/**
 What each step of the broker's operations answers and leaves in the store, stated with its
 own bounds and without the step functions: when an operation succeeds, which failure it
 reports otherwise, what it writes, deletes and sends, and how a disconnect's two revoke
 attempts decide its answer over a whole run.
 */
module BrokerOutcomes {
  import opened Wrappers
  import opened BrokerErrors
  import opened Permits
  import opened Broker

  // ----- The bounds, spelled out -----

  predicate Storable(token: Token) {
    1 <= |token| <= 1024
  }

  /** The access token and its lifetime may be handed to the caller. */
  predicate Presentable(success: Success) {
    |success.access| <= 4096 && 1 <= success.seconds <= 86_400
  }

  /** Some token of the response may be sent for revocation. */
  predicate Revocable(success: Success) {
    (success.rotated.Some? && Storable(success.rotated.value)) || 1 <= |success.access| <= 4096
  }

  /** The operation ended with this answer and touched neither store nor provider. */
  predicate EndsQuietly(w: World, v: World, o: nat, result: Result<(), BrokerError>) {
    o in v.ops && v.ops[o] == Finished(result) && v.store == w.store && v.requests == w.requests
  }

  // ----- Starting -----

  /** An operation on a subject starts exactly for 1 to 255 printable, non-space characters. */
  lemma StartsExactly(w: World, e: Event)
    requires Enabled(w, e) && e.StartOn?
    ensures var v := Next(w, e);
      if 1 <= |e.text| <= 255 && forall i :: 0 <= i < |e.text| ==> '!' <= e.text[i] <= '~'
      then v.ops[e.o] == Claiming(e.text, e.job) && v.store == w.store && v.requests == w.requests
      else EndsQuietly(w, v, e.o, Err(InvalidInput))
  {
  }

  /** What a delivered exchange makes of a completion. */
  lemma ExchangeEnds(w: World, e: Event)
    requires Enabled(w, e) && e.AnswerExchange?
    ensures var v := Next(w, e);
      match e.answer
      case Granted(success) =>
        if 1 <= |success.subject| <= 255
           && forall i :: 0 <= i < |success.subject| ==> '!' <= success.subject[i] <= '~'
        then v.ops[e.o] == Claiming(success.subject, Complete(success)) && v.store == w.store
        else EndsQuietly(w, v, e.o, Err(IdentityUnverified))
      case UnderScoped(_) => EndsQuietly(w, v, e.o, Err(InsufficientScope))
      case Failed(error) => EndsQuietly(w, v, e.o, Err(error))
  {
  }

  /** The permit is refused exactly when the set is poisoned, the subject is busy or 32 are held. */
  lemma ClaimsExactly(w: World, e: Event)
    requires Enabled(w, e) && e.Claim?
    ensures var v := Next(w, e);
      var s, job := w.ops[e.o].subject, w.ops[e.o].job;
      if w.poisoned then EndsQuietly(w, v, e.o, Err(Unavailable)) && v.held == w.held
      else if s in w.held || |w.held| >= 32 then EndsQuietly(w, v, e.o, Err(Busy)) && v.held == w.held
      else v.ops[e.o] == Holding(s, Loading(job)) && v.held == w.held + {s} && v.store == w.store
  {
  }

  // ----- A completion -----

  /** After its snapshot a completion succeeds, and stores, exactly within all bounds. */
  lemma CompletionSucceedsExactly(w: World, e: Event)
    requires Enabled(w, e) && e.Act? && w.ops[e.o].stage.Snapshotted?
    ensures var v := Next(w, e);
      var s, success := w.ops[e.o].subject, w.ops[e.o].stage.success;
      && (v.ops[e.o] == Finished(Ok(())) <==>
            success.timely && Presentable(success) && success.rotated.Some? && Storable(success.rotated.value)
            && !e.fault)
      && (v.ops[e.o] == Finished(Ok(())) ==> v.store == w.store[s := success.rotated.value])
      && (v.ops[e.o] != Finished(Ok(())) ==> v.store == w.store && AtStage(v, e.o) && v.ops[e.o].stage.Stranded?)
      && v.requests == w.requests
  {
  }

  /** The failure a completion will report, and what it still knows when it cleans up. */
  lemma CompletionFailsWith(w: World, e: Event)
    requires Enabled(w, e) && e.Act? && w.ops[e.o].stage.Snapshotted?
    requires Next(w, e).ops[e.o] != Finished(Ok(()))
    ensures var Snapshotted(success, empty) := w.ops[e.o].stage;
      Next(w, e).ops[e.o] == Holding(w.ops[e.o].subject, Stranded(success, empty,
        if !success.timely then IdentityUnverified
        else if !Presentable(success) then MalformedResponse
        else if success.rotated.None? then MissingRefreshToken
        else if !Storable(success.rotated.value) then MalformedResponse
        else PersistenceFailed))
  {
  }

  /** A failed completion sends one revoke exactly over an empty snapshot with a revocable token. */
  lemma StrandedRevokesExactly(w: World, e: Event)
    requires Enabled(w, e) && e.Act? && w.ops[e.o].stage.Stranded?
    ensures var v := Next(w, e);
      var s, Stranded(success, empty, error) := w.ops[e.o].subject, w.ops[e.o].stage;
      if empty && Revocable(success)
      then v.ops[e.o] == Holding(s, CleaningUp(error)) && v.store == w.store
           && v.requests == w.requests[w.sent := Request(e.o, Revoke(s, ChosenToken(success), true))]
      else EndsQuietly(w, v, e.o, Err(error))
  {
  }

  /** Whatever the cleanup answers, the completion reports its own failure. */
  lemma CleanupHidesNothing(w: World, e: Event)
    requires Enabled(w, e) && e.AnswerRevoke? && w.ops[e.o].stage.CleaningUp?
    ensures EndsQuietly(w, Next(w, e), e.o, Err(w.ops[e.o].stage.error))
  {
  }

  // ----- Loading -----

  /** What the store access under the permit does for each job. */
  lemma LoadsExactly(w: World, e: Event)
    requires Enabled(w, e) && e.Load?
    ensures var v := Next(w, e);
      var s, store := w.ops[e.o].subject, w.store;
      if e.fault then EndsQuietly(w, v, e.o, Err(PersistenceFailed))
      else match w.ops[e.o].stage.job
        case Complete(success) =>
          v.ops[e.o] == Holding(s, Snapshotted(success, s !in store)) && v.store == store && v.requests == w.requests
        case Refresh =>
          if s !in store then EndsQuietly(w, v, e.o, Err(MissingRefreshToken))
          else if !Storable(store[s]) then EndsQuietly(w, v, e.o, Err(PersistenceFailed))
          else v.ops[e.o] == Holding(s, Refreshing(store[s], None)) && v.store == store && v.requests == w.requests
        case RevokeGrant =>
          if s !in store then EndsQuietly(w, v, e.o, Ok(()))
          else if !Storable(store[s]) then EndsQuietly(w, v, e.o, Err(PersistenceFailed))
          else v.ops[e.o] == Holding(s, Revoking(store[s], false)) && v.store == store
               && v.requests == w.requests[w.sent := Request(e.o, Revoke(s, store[s], false))]
        case DeleteTokens =>
          v.ops[e.o] == Finished(Ok(())) && v.store == store - {s} && v.requests == w.requests
  {
  }

  // ----- A refresh -----

  /** The rotation an answer about the operation's own subject offers. */
  function OwnRotation(answer: Answer, subject: string): Option<Token> {
    match answer
    case Granted(success) => if success.subject == subject then success.rotated else None
    case UnderScoped(rotated) => rotated
    case _ => None
  }

  /** A refresh ends in success exactly when its answer is its own, timely, in bounds and stored. */
  lemma RefreshSucceedsExactly(w: World, e: Event)
    requires Enabled(w, e) && e.Act? && w.ops[e.o].stage.Answered?
    ensures var answer := w.ops[e.o].stage.answer;
      Next(w, e).ops[e.o] == Finished(Ok(())) <==>
        answer.Granted?
        && var success := answer.success;
           success.subject == w.ops[e.o].subject && success.timely && Presentable(success)
           && (success.rotated.Some? ==> Storable(success.rotated.value) && !e.fault)
  {
  }

  /** A well-shaped rotation is kept whatever the result; nothing else is ever written. */
  lemma RotationsAreKept(w: World, e: Event)
    requires Enabled(w, e) && e.Act? && w.ops[e.o].stage.Answered? && w.ops[e.o].stage.answer != Revoked
    ensures var s := w.ops[e.o].subject;
      var rotation := OwnRotation(w.ops[e.o].stage.answer, s);
      Next(w, e).store ==
        if rotation.Some? && Storable(rotation.value) && !e.fault then w.store[s := rotation.value] else w.store
  {
  }

  /** The answer of a refresh, case by case. */
  lemma RefreshEnds(w: World, e: Event)
    requires Enabled(w, e) && e.Act? && w.ops[e.o].stage.Answered?
    ensures var s, answer := w.ops[e.o].subject, w.ops[e.o].stage.answer;
      var v, rotation := Next(w, e), OwnRotation(answer, s);
      && v.requests == w.requests
      && (answer == Revoked && !e.fault ==>
            v.ops[e.o] == Finished(Err(ConsentRevoked)) && v.store == w.store - {s})
      && (answer == Revoked && e.fault ==> EndsQuietly(w, v, e.o, Err(PersistenceFailed)))
      && (answer.Failed? ==> EndsQuietly(w, v, e.o, Err(answer.error)))
      && (answer.Granted? && answer.success.subject != s ==> EndsQuietly(w, v, e.o, Err(IdentityMismatch)))
      && (rotation.Some? && !Storable(rotation.value) ==> EndsQuietly(w, v, e.o, Err(MalformedResponse)))
      && (rotation.Some? && Storable(rotation.value) && e.fault ==> EndsQuietly(w, v, e.o, Err(PersistenceFailed)))
      && (rotation.Some? ==> Storable(rotation.value) && !e.fault ==>
            (answer.UnderScoped? ==> v.ops[e.o] == Finished(Err(InsufficientScope)))
            && (answer.Granted? ==> v.ops[e.o] == Finished(OwnGrantEnds(answer.success))))
      && (rotation.None? && answer.UnderScoped? ==> EndsQuietly(w, v, e.o, Err(InsufficientScope)))
      && (rotation.None? && answer.Granted? && answer.success.subject == s ==>
            EndsQuietly(w, v, e.o, OwnGrantEnds(answer.success)))
  {
  }

  function OwnGrantEnds(success: Success): Result<(), BrokerError> {
    if !success.timely then Err(IdentityUnverified)
    else if !Presentable(success) then Err(MalformedResponse)
    else Ok(())
  }

  // ----- A disconnect -----

  /** One answer to a disconnect's revoke: only a confirmation succeeds, only the last gives up. */
  lemma RevokeAnswered(w: World, e: Event)
    requires Enabled(w, e) && e.AnswerRevoke? && w.ops[e.o].stage.Revoking?
    ensures var v := Next(w, e);
      var s, Revoking(token, last) := w.ops[e.o].subject, w.ops[e.o].stage;
      && v.store == w.store
      && (e.confirmed ==> EndsQuietly(w, v, e.o, Ok(())))
      && (!e.confirmed && last ==> EndsQuietly(w, v, e.o, Err(RevokeUnconfirmed)))
      && (!e.confirmed && !last ==>
            v.ops[e.o] == Holding(s, Revoking(token, true)) && (s in w.held ==> v.held == w.held)
            && v.requests == w.requests[w.sent := Request(e.o, Revoke(s, token, false))])
  {
    if !e.confirmed && !w.ops[e.o].stage.last && w.ops[e.o].subject in w.held {
      assert w.held - {w.ops[e.o].subject} + {w.ops[e.o].subject} == w.held;
    }
  }

  /** The answers the operation's revokes were given during the run, in order. */
  function Confirmations(w: World, events: seq<Event>, o: nat): seq<bool>
    requires IsRun(w, events)
    decreases |events|
  {
    if events == [] then []
    else
      (if events[0].AnswerRevoke? && events[0].o == o then [events[0].confirmed] else [])
      + Confirmations(Next(w, events[0]), events[1..], o)
  }

  predicate Over(pc: Pc) {
    pc.Finished? || pc.Cancelled?
  }

  /** An operation that is over stays as it is, and is asked nothing more. */
  lemma {:induction false} OverStaysOver(w: World, events: seq<Event>, o: nat)
    requires IsRun(w, events) && o in w.ops && Over(w.ops[o])
    ensures o in Final(w, events).ops && Final(w, events).ops[o] == w.ops[o] && Confirmations(w, events, o) == []
    decreases |events|
  {
    if events != [] {
      OthersLeaveIt(w, events[0], o);
      OverStaysOver(Next(w, events[0]), events[1..], o);
    }
  }

  /** Only its own answers and a cancellation move an operation that revokes or is over. */
  lemma OthersLeaveIt(w: World, e: Event, o: nat)
    requires Enabled(w, e) && o in w.ops && (Over(w.ops[o]) || (w.ops[o].Holding? && w.ops[o].stage.Revoking?))
    ensures (e.AnswerRevoke? || e.Cancel?) && e.o == o ==> !Over(w.ops[o])
    ensures !((e.AnswerRevoke? || e.Cancel?) && e.o == o) ==> o in Next(w, e).ops && Next(w, e).ops[o] == w.ops[o]
  {
  }

  /** What a disconnect has become of its answers: `last` says that the first one was spent before. */
  predicate Decided(pc: Pc, was: Pc, last: bool, answers: seq<bool>) {
    && (pc == Finished(Ok(())) <==> answers == [true] || (!last && answers == [false, true]))
    && (pc == Finished(Err(RevokeUnconfirmed)) <==> answers == if last then [false] else [false, false])
    && (pc.Finished? ==> pc.result == Ok(()) || pc.result == Err(RevokeUnconfirmed))
    && (!Over(pc) ==>
          (pc == was && answers == [])
          || (!last && answers == [false] && pc.Holding? && pc.stage.Revoking? && pc.stage.last))
  }

  lemma PrefixFalse(later: seq<bool>)
    ensures [false] + later == [false, true] <==> later == [true]
    ensures [false] + later == [false, false] <==> later == [false]
    ensures [false] + later != [true] && ([false] + later == [false] <==> later == [])
  {
    var all := [false] + later;
    assert all[0] == false && all[1..] == later;
    assert [false, true][1..] == [true] && [false, false][1..] == [false] && [false][1..] == [];
  }

  /**
   Main result: over every run, a disconnect that has sent its revoke reports success exactly
   after a confirmation, and an unconfirmed revoke exactly after two answers without one.
   */
  lemma {:induction false} DisconnectAnswers(w: World, events: seq<Event>, o: nat)
    requires IsRun(w, events) && AtStage(w, o) && w.ops[o].stage.Revoking?
    ensures o in Final(w, events).ops
    ensures Decided(Final(w, events).ops[o], w.ops[o], w.ops[o].stage.last, Confirmations(w, events, o))
    decreases |events|
  {
    if events != [] {
      var e, rest := events[0], events[1..];
      var later := Confirmations(Next(w, e), rest, o);
      OthersLeaveIt(w, e, o);
      if e.AnswerRevoke? && e.o == o {
        RevokeAnswered(w, e);
        if Over(Next(w, e).ops[o]) {
          OverStaysOver(Next(w, e), rest, o);
          assert Confirmations(w, events, o) == [e.confirmed];
          assert e.confirmed || w.ops[o].stage.last;
        } else {
          DisconnectAnswers(Next(w, e), rest, o);
          PrefixFalse(later);
        }
      } else if e.Cancel? && e.o == o {
        assert Next(w, e).ops[o] == Cancelled;
        OverStaysOver(Next(w, e), rest, o);
      } else {
        DisconnectAnswers(Next(w, e), rest, o);
      }
    }
  }

  /** An unconfirmed disconnect, like every answer to one, keeps the credential it loaded. */
  lemma DisconnectKeepsCredential(w: World, e: Event)
    requires Reachable(w) && Enabled(w, e) && e.AnswerRevoke? && w.ops[e.o].stage.Revoking?
    ensures var s := w.ops[e.o].subject;
      s in Next(w, e).store && Next(w, e).store[s] == w.ops[e.o].stage.token
  {
    ReachableInv(w);
    assert Knows(w.store, w.ops[e.o].subject, w.ops[e.o].stage);
    RevokeAnswered(w, e);
  }
}
