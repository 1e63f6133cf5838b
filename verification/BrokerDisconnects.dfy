/**
 What a caller must respect so that a disconnect's own revoke ends the credential it was
 asked to end and no other: beside the conditions of `BrokerGrants`, that a disconnect and a
 completion of one account do not overlap and that its revokes are awaited to the end.
 */
module BrokerDisconnects {
  import opened Wrappers
  import opened BrokerErrors
  import opened Permits
  import opened Broker
  import opened BrokerGrants
  import opened BrokerLimits

  // ----- What a caller must respect -----

  predicate Revokes(pc: Pc, subject: string) {
    pc.Holding? && pc.subject == subject && pc.stage.Revoking?
  }

  /** A disconnect of `subject` awaits the answer to a revoke. */
  predicate Disconnecting(w: World, o: nat, subject: string) {
    o in w.ops && Revokes(w.ops[o], subject)
  }

  /** The disconnect's credential is loaded and its first revoke is sent. */
  predicate LoadsToRevoke(w: World, e: Event, subject: string) {
    e.Load? && Holds(w, e.o, subject) && w.ops[e.o].stage == Loading(RevokeGrant)
  }

  /** Completions and disconnects of one account do not overlap. */
  ghost predicate Apart(w: World, e: Event) {
    && (GrantsExchange(w, e) ==> forall o :: !Disconnecting(w, o, e.answer.success.subject))
    && (forall s :: LoadsToRevoke(w, e, s) ==> forall o :: !InFlight(w, o, s))
  }

  /** A disconnect goes on only when the revoke it sent is processed or lost. */
  ghost predicate Heard(w: World, e: Event) {
    (e.Cancel? || e.AnswerRevoke?) && AtStage(w, e.o) && w.ops[e.o].stage.Revoking? ==>
      forall r :: r in w.requests ==> w.requests[r].sender != e.o
  }

  ghost predicate ApartRun(w: World, events: seq<Event>)
    requires IsRun(w, events)
    decreases |events|
  {
    events == [] || (Apart(w, events[0]) && ApartRun(Next(w, events[0]), events[1..]))
  }

  ghost predicate HeardRun(w: World, events: seq<Event>)
    requires IsRun(w, events)
    decreases |events|
  {
    events == [] || (Heard(w, events[0]) && HeardRun(Next(w, events[0]), events[1..]))
  }

  // ----- The invariant -----

  ghost predicate KeptApart(w: World) {
    forall a, b, s :: InFlight(w, a, s) ==> !Disconnecting(w, b, s)
  }

  /** The sender of a disconnect's revoke still waits, with the token it asked to revoke. */
  ghost predicate DisconnectsWait(w: World) {
    forall r :: r in w.requests && !w.requests[r].revoke.cleanup ==> Asks(w, w.requests[r])
  }

  predicate Asks(w: World, request: Request) {
    && Disconnecting(w, request.sender, request.revoke.subject)
    && w.ops[request.sender].stage.token == request.revoke.token
  }

  /** Whatever is about to be stored still works. */
  ghost predicate PendingWorks(w: World) {
    forall o, s :: o in w.ops && MayStore(w.ops[o], s) ==> FateOf(w, Mint(s, From(o))) == Live
  }

  ghost predicate Safe(w: World) {
    && Inv(w) && Traced(w) && OneCompletionEach(w) && SendersWait(w)
    && KeptApart(w) && DisconnectsWait(w) && PendingWorks(w)
  }

  lemma CarryKeepsApart(w: World, o: nat, turn: Turn)
    requires KeptApart(w)
    requires forall s :: Completing(turn.pc, s) ==> InFlight(w, o, s) || forall p :: !Disconnecting(w, p, s)
    requires forall s :: Revokes(turn.pc, s) ==> Disconnecting(w, o, s) || forall p :: !InFlight(w, p, s)
    ensures KeptApart(Carry(w, o, turn))
  {
    var v := Carry(w, o, turn);
    assert forall p, s :: p != o ==> (InFlight(v, p, s) <==> InFlight(w, p, s));
    assert forall p, s :: p != o ==> (Disconnecting(v, p, s) <==> Disconnecting(w, p, s));
  }

  /** A disconnect begins to revoke when it has loaded its credential. */
  lemma DisconnectStarts(w: World, e: Event)
    requires Enabled(w, e) && OfOperation(e)
    ensures forall s :: Revokes(TurnOf(w, e).pc, s) ==> Disconnecting(w, e.o, s) || LoadsToRevoke(w, e, s)
  {
  }

  lemma StepKeepsApart(w: World, e: Event)
    requires Inv(w) && KeptApart(w) && Enabled(w, e) && Apart(w, e)
    ensures KeptApart(Next(w, e))
  {
    if OfOperation(e) {
      CompletionStarts(w, e);
      DisconnectStarts(w, e);
      CarryKeepsApart(w, e.o, TurnOf(w, e));
    } else {
      assert forall o, s :: InFlight(Next(w, e), o, s) <==> InFlight(w, o, s);
      assert forall o, s :: Disconnecting(Next(w, e), o, s) <==> Disconnecting(w, o, s);
    }
  }

  lemma CarryKeepsDisconnectsWaiting(w: World, o: nat, turn: Turn)
    requires DisconnectsWait(w)
    requires turn.send.Some? && !turn.send.value.cleanup ==>
      Revokes(turn.pc, turn.send.value.subject) && turn.pc.stage.token == turn.send.value.token
    requires AtStage(w, o) && w.ops[o].stage.Revoking? ==>
      forall r :: r in w.requests ==> w.requests[r].sender != o
    ensures DisconnectsWait(Carry(w, o, turn))
  {
    var v := Carry(w, o, turn);
    forall r | r in v.requests && !v.requests[r].revoke.cleanup
      ensures Asks(v, v.requests[r])
    {
      if r in w.requests && v.requests[r] == w.requests[r] {
        assert Asks(w, w.requests[r]);
      }
    }
  }

  /** A turn that sends a disconnect's revoke waits with the token it sent. */
  lemma RevokeTurn(w: World, e: Event)
    requires Enabled(w, e) && OfOperation(e)
    ensures var turn := TurnOf(w, e);
      turn.send.Some? && !turn.send.value.cleanup ==>
        Revokes(turn.pc, turn.send.value.subject) && turn.pc.stage.token == turn.send.value.token
  {
  }

  lemma StepKeepsDisconnectsWaiting(w: World, e: Event)
    requires DisconnectsWait(w) && Enabled(w, e) && Heard(w, e)
    ensures DisconnectsWait(Next(w, e))
  {
    if OfOperation(e) {
      RevokeTurn(w, e);
      CarryKeepsDisconnectsWaiting(w, e.o, TurnOf(w, e));
    } else {
      forall r | r in Next(w, e).requests && !Next(w, e).requests[r].revoke.cleanup
        ensures Asks(Next(w, e), Next(w, e).requests[r])
      {
        assert Asks(w, w.requests[r]);
      }
    }
  }

  /** No revoke that is processed meets anything about to be stored. */
  lemma LandingMeetsNothingPending(w: World, r: nat)
    requires Safe(w) && r in w.requests
    ensures forall o :: o in w.ops ==> !MayStore(w.ops[o], w.requests[r].revoke.subject)
  {
    var Request(sender, revoke) := w.requests[r];
    if revoke.cleanup {
      LandingIsHarmless(w, r, revoke.subject);
    } else {
      assert Asks(w, w.requests[r]) && Holds(w, sender, revoke.subject);
      assert forall o :: o in w.ops && MayStore(w.ops[o], revoke.subject) ==>
        Holds(w, o, revoke.subject) || InFlight(w, o, revoke.subject);
    }
  }

  lemma CarryKeepsPendingWorking(w: World, o: nat, turn: Turn)
    requires PendingWorks(w)
    requires forall s :: MayStore(turn.pc, s) ==> (o in w.ops && MayStore(w.ops[o], s)) || turn.mint == Some(s)
    requires turn.mint.Some? ==> FateOf(w, Mint(turn.mint.value, From(o))) == Live
    ensures PendingWorks(Carry(w, o, turn))
  {
  }

  lemma StepKeepsPendingWorking(w: World, e: Event)
    requires Safe(w) && Enabled(w, e)
    ensures PendingWorks(Next(w, e))
  {
    if OfOperation(e) {
      TurnIsTraced(w, e);
      if TurnOf(w, e).mint.Some? {
        MintsOnce(w, e, Mint(TurnOf(w, e).mint.value, From(e.o)));
      }
      CarryKeepsPendingWorking(w, e.o, TurnOf(w, e));
    } else if e.Land? {
      LandingMeetsNothingPending(w, e.r);
    }
  }

  lemma StepKeepsSafe(w: World, e: Event)
    requires Safe(w) && Enabled(w, e)
    requires Serial(w, e) && Awaited(w, e) && Apart(w, e) && Heard(w, e)
    ensures Safe(Next(w, e))
  {
    StepKeepsInv(w, e);
    StepKeepsTraced(w, e);
    StepKeepsOneCompletion(w, e);
    StepKeepsSendersWaiting(w, e);
    StepKeepsApart(w, e);
    StepKeepsDisconnectsWaiting(w, e);
    StepKeepsPendingWorking(w, e);
  }

  lemma {:induction false} RunKeepsSafe(w: World, events: seq<Event>)
    requires IsRun(w, events) && Safe(w)
    requires SerialRun(w, events) && AwaitedRun(w, events) && ApartRun(w, events) && HeardRun(w, events)
    ensures Safe(Final(w, events))
    decreases |events|
  {
    if events != [] {
      StepKeepsSafe(w, events[0]);
      RunKeepsSafe(Next(w, events[0]), events[1..]);
    }
  }

  // ----- Main results -----

  /** Main result: under the four conditions every credential works at the moment it is stored. */
  lemma CredentialsAreStoredWorking(store: map<string, Token>, events: seq<Event>, e: Event)
    requires var w := Initial(store);
      IsRun(w, events) && SerialRun(w, events) && AwaitedRun(w, events) && ApartRun(w, events) && HeardRun(w, events)
    requires var w := Final(Initial(store), events);
      Enabled(w, e) && OfOperation(e) && TurnOf(w, e).effect.Write?
    ensures var w := Final(Initial(store), events);
      var v := Next(w, e);
      AtStage(w, e.o) && w.ops[e.o].subject in v.store && FateOf(v, MintOf(v, w.ops[e.o].subject)) == Live
  {
    RunKeepsSafe(Initial(store), events);
    var w := Final(Initial(store), events);
    TurnIsTraced(w, e);
    StoredWorking(w, e.o, TurnOf(w, e));
  }

  lemma StoredWorking(w: World, o: nat, turn: Turn)
    requires PendingWorks(w) && turn.effect.Write? && AtStage(w, o) && MayStore(w.ops[o], w.ops[o].subject)
    ensures var v := Carry(w, o, turn);
      w.ops[o].subject in v.store && FateOf(v, MintOf(v, w.ops[o].subject)) == Live
  {
  }

  /**
   Main result: under the four conditions a disconnect's revoke is processed while the store
   holds the very credential it names, its sender waits, and nothing is about to be stored:
   credentials stored later are spared.
   */
  lemma DisconnectEndsOwnCredential(store: map<string, Token>, events: seq<Event>, r: nat)
    requires var w := Initial(store);
      IsRun(w, events) && SerialRun(w, events) && AwaitedRun(w, events) && ApartRun(w, events) && HeardRun(w, events)
    requires var w := Final(Initial(store), events); r in w.requests && !w.requests[r].revoke.cleanup
    ensures var w := Final(Initial(store), events);
      var Request(sender, revoke) := w.requests[r];
      && Disconnecting(w, sender, revoke.subject)
      && revoke.subject in w.store && w.store[revoke.subject] == revoke.token
      && forall o :: o in w.ops ==> !MayStore(w.ops[o], revoke.subject)
  {
    RunKeepsSafe(Initial(store), events);
    var w := Final(Initial(store), events);
    var Request(sender, revoke) := w.requests[r];
    assert Asks(w, w.requests[r]) && Knows(w.store, w.ops[sender].subject, w.ops[sender].stage);
    LandingMeetsNothingPending(w, r);
  }

  // ----- The conditions of `BrokerGrants` alone do not spare a later credential -----

  function Disconnect(n: nat, s: string): seq<Event> {
    [StartOn(n, s, RevokeGrant)] + ([Claim(n)] + [Load(n, false)])
  }

  lemma DisconnectSends(w: World, n: nat, s: string)
    requires n !in w.ops && ValidSubject(s) && Free(w, s) && s in w.store && WellShapedRefresh(w.store[s])
    ensures IsRun(w, Disconnect(n, s)) && SerialRun(w, Disconnect(n, s)) && AwaitedRun(w, Disconnect(n, s))
    ensures Final(w, Disconnect(n, s)) ==
      w.(ops := w.ops[n := Holding(s, Revoking(w.store[s], false))], held := w.held + {s},
         requests := w.requests[w.sent := Request(n, Revoke(s, w.store[s], false))], sent := w.sent + 1)
  {
    var w1 := Next(w, StartOn(n, s, RevokeGrant));
    assert w1 == w.(ops := w.ops[n := Claiming(s, RevokeGrant)]);
    var w2 := Next(w1, Claim(n));
    assert w2 == w.(ops := w.ops[n := Holding(s, Loading(RevokeGrant))], held := w.held + {s});
    assert w2.held - {s} + {s} == w.held + {s};
    assert Next(w2, Load(n, false)).ops == w.ops[n := Holding(s, Revoking(w.store[s], false))];
    RunOne(w2, Load(n, false));
    RunCons(w1, Claim(n), [Load(n, false)]);
    RunCons(w, StartOn(n, s, RevokeGrant), [Claim(n)] + [Load(n, false)]);
  }

  lemma RevokingEnds(w: World, n: nat, s: string, e: Event)
    requires n in w.ops && w.ops[n].Holding? && w.ops[n].subject == s && w.ops[n].stage.Revoking?
    requires e == Cancel(n) || e == AnswerRevoke(n, true)
    ensures IsRun(w, [e]) && SerialRun(w, [e]) && AwaitedRun(w, [e])
    ensures Final(w, [e]) ==
      w.(ops := w.ops[n := if e.Cancel? then Cancelled else Finished(Ok(()))], held := w.held - {s})
  {
    RunOne(w, e);
  }

  /** A disconnect cancelled while its revoke is under way ends the credential of the next sign-in. */
  lemma CancelledDisconnectEndsGrant(s: string, stored: Token)
    requires ValidSubject(s) && WellShapedRefresh(stored)
    ensures var w, events := Initial(map[s := stored]),
        (Disconnect(0, s) + [Cancel(0)]) + (Begin(1, Good(s)) + (Settle(1) + [Land(0)]));
      && IsRun(w, events) && SerialRun(w, events) && AwaitedRun(w, events)
      && SuccessOverDeadGrant(Final(w, events), 1, s, Disconnected)
  {
    var w := Initial(map[s := stored]);
    DisconnectSends(w, 0, s);
    var w1 := Final(w, Disconnect(0, s));
    RevokingEnds(w1, 0, s, Cancel(0));
    RunAppend(w, Disconnect(0, s), [Cancel(0)]);
    var w2 := Final(w, Disconnect(0, s) + [Cancel(0)]);
    assert Reachable(w2) && w2.held == {};
    LateRevokeEndsGrant(w2, 0, 1);
    RunAppend(w, Disconnect(0, s) + [Cancel(0)], Begin(1, Good(s)) + (Settle(1) + [Land(0)]));
  }
}
