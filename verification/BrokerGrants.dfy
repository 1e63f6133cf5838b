/**
 What the provider's grant-wide revocation does to the credentials the broker stores:
 the fate of every stored credential over every run, and what a caller must respect so that
 no completion's cleanup ends a credential that is stored.
 */
module BrokerGrants {
  import opened Wrappers
  import opened BrokerErrors
  import opened Permits
  import opened Broker

  // ----- The provider mints once for an operation -----

  /** An operation that was granted tokens, or will not be. */
  predicate Served(pc: Pc) {
    match pc
    case Exchanging(granted) => granted.Some?
    case Claiming(_, job) => job.Complete?
    case Holding(_, stage) =>
      !stage.Revoking? && (stage.Loading? ==> stage.job.Complete?) && (stage.Refreshing? ==> stage.granted.Some?)
    case _ => true
  }

  /** The tokens were minted before the run, or by a grant that will not come again. */
  predicate Past(w: World, m: Mint) {
    m.source.From? ==> m.source.o in w.ops && Served(w.ops[m.source.o])
  }

  /** The tokens an event makes the provider mint. */
  function MintedBy(w: World, e: Event): Option<Mint>
    requires Enabled(w, e)
  {
    if OfOperation(e) && TurnOf(w, e).mint.Some? then Some(Mint(TurnOf(w, e).mint.value, From(e.o))) else None
  }

  lemma ServedOnce(w: World, e: Event)
    requires Enabled(w, e) && OfOperation(e)
    ensures e.o in w.ops && Served(w.ops[e.o]) ==> Served(TurnOf(w, e).pc) && TurnOf(w, e).mint.None?
    ensures TurnOf(w, e).mint.Some? ==> Served(TurnOf(w, e).pc)
  {
  }

  lemma MintsOnce(w: World, e: Event, m: Mint)
    requires Enabled(w, e)
    ensures Past(w, m) ==> Past(Next(w, e), m) && MintedBy(w, e) != Some(m)
    ensures MintedBy(w, e) == Some(m) ==> Past(Next(w, e), m)
  {
    if OfOperation(e) {
      ServedOnce(w, e);
    }
  }

  // ----- The fate of a mint over a run -----

  /** The first revoke of `subject` the provider processes during the run. */
  function FirstLanding(w: World, events: seq<Event>, subject: string): Option<Revoke>
    requires IsRun(w, events)
    decreases |events|
  {
    if events == [] then None
    else if events[0].Land? && w.requests[events[0].r].revoke.subject == subject then
      Some(w.requests[events[0].r].revoke)
    else FirstLanding(Next(w, events[0]), events[1..], subject)
  }

  /** The first one processed after the run mints `m`. */
  function FirstLandingAfter(w: World, events: seq<Event>, m: Mint): Option<Revoke>
    requires IsRun(w, events)
    decreases |events|
  {
    if m.source.Earlier? then FirstLanding(w, events, m.subject)
    else if events == [] then None
    else if MintedBy(w, events[0]) == Some(m) then FirstLanding(Next(w, events[0]), events[1..], m.subject)
    else FirstLandingAfter(Next(w, events[0]), events[1..], m)
  }

  function FateBy(landing: Option<Revoke>): Fate {
    if landing.None? then Live else if landing.value.cleanup then CleanedUp else Disconnected
  }

  ghost predicate EndedWereMinted(w: World) {
    w.cleaned <= w.minted && w.disconnected <= w.minted
  }

  lemma StepFate(w: World, e: Event, m: Mint)
    requires Enabled(w, e) && m in w.minted
    ensures m in Next(w, e).minted
    ensures FateOf(Next(w, e), m)
      == if FateOf(w, m) == Live && e.Land? && w.requests[e.r].revoke.subject == m.subject
         then FateBy(Some(w.requests[e.r].revoke)) else FateOf(w, m)
  {
    if OfOperation(e) {
      CarryKeepsFate(w, e.o, TurnOf(w, e), m);
    }
  }

  lemma CarryKeepsFate(w: World, o: nat, turn: Turn, m: Mint)
    ensures FateOf(Carry(w, o, turn), m) == FateOf(w, m)
    ensures m in w.minted ==> m in Carry(w, o, turn).minted
  {
  }

  lemma {:induction false} FateOfEarlierMint(w: World, events: seq<Event>, m: Mint)
    requires IsRun(w, events) && m in w.minted && Past(w, m)
    ensures FateOf(Final(w, events), m)
      == if FateOf(w, m) == Live then FateBy(FirstLanding(w, events, m.subject)) else FateOf(w, m)
    decreases |events|
  {
    if events != [] {
      MintsOnce(w, events[0], m);
      StepFate(w, events[0], m);
      FateOfEarlierMint(Next(w, events[0]), events[1..], m);
    }
  }

  lemma StepMints(w: World, e: Event, m: Mint)
    requires Enabled(w, e) && EndedWereMinted(w)
    ensures EndedWereMinted(Next(w, e))
    ensures m in Next(w, e).minted <==> m in w.minted || MintedBy(w, e) == Some(m)
    ensures m in Next(w, e).minted && m !in w.minted ==> m.source.From? && FateOf(Next(w, e), m) == Live
  {
  }

  lemma {:induction false} FateOfLaterMint(w: World, events: seq<Event>, m: Mint)
    requires IsRun(w, events) && EndedWereMinted(w)
    requires m !in w.minted && m in Final(w, events).minted
    ensures m.source.From? && FateOf(Final(w, events), m) == FateBy(FirstLandingAfter(w, events, m))
    decreases |events|
  {
    if events != [] {
      var next := Next(w, events[0]);
      StepMints(w, events[0], m);
      if MintedBy(w, events[0]) == Some(m) {
        MintsOnce(w, events[0], m);
        FateOfEarlierMint(next, events[1..], m);
      } else {
        FateOfLaterMint(next, events[1..], m);
      }
    }
  }

  // ----- Where stored credentials come from -----

  /** The operation may still store, under `subject`, what it was granted. */
  predicate MayStore(pc: Pc, subject: string) {
    match pc
    case Exchanging(granted) => GrantedTo(granted, subject)
    case Claiming(s, job) => s == subject && job.Complete?
    case Holding(s, stage) =>
      s == subject
      && match stage {
           case Loading(job) => job.Complete?
           case Snapshotted(_, _) => true
           case Refreshing(loaded, granted) =>
             granted.Some? && Offered(Answered(granted.value, loaded), subject).Some?
           case Answered(_, _) => Offered(stage, subject).Some?
           case _ => false
         }
    case _ => false
  }

  /** A granted exchange of `subject` is under way. */
  predicate GrantedTo(granted: Option<Answer>, subject: string) {
    granted.Some? && granted.value.Granted? && granted.value.success.subject == subject
  }

  /** The mint the credential stored under `subject` comes from. */
  function MintOf(w: World, subject: string): Mint {
    Mint(subject, if subject in w.origin then From(w.origin[subject]) else Earlier)
  }

  ghost predicate Traced(w: World) {
    && EndedWereMinted(w)
    && (forall m :: m in w.minted ==> Past(w, m))
    && (forall s :: s in w.store ==> MintOf(w, s) in w.minted)
    && (forall o, s :: o in w.ops && MayStore(w.ops[o], s) ==> Mint(s, From(o)) in w.minted)
  }

  /** What a turn stores was offered to it, and what it may store it has minted. */
  lemma TurnIsTraced(w: World, e: Event)
    requires Enabled(w, e) && OfOperation(e)
    requires AtStage(w, e.o) ==> Knows(w.store, w.ops[e.o].subject, w.ops[e.o].stage)
    ensures TurnOf(w, e).effect.Write? ==> AtStage(w, e.o) && MayStore(w.ops[e.o], w.ops[e.o].subject)
    ensures forall s :: MayStore(TurnOf(w, e).pc, s) ==>
      (e.o in w.ops && MayStore(w.ops[e.o], s)) || TurnOf(w, e).mint == Some(s)
  {
  }

  lemma StepKeepsStoredMinted(w: World, e: Event)
    requires Inv(w) && Traced(w) && Enabled(w, e)
    ensures forall s :: s in Next(w, e).store ==> MintOf(Next(w, e), s) in Next(w, e).minted
  {
    if OfOperation(e) {
      TurnIsTraced(w, e);
      CarryKeepsStoredMinted(w, e.o, TurnOf(w, e));
    } else {
      assert forall s :: s in w.store ==> MintOf(Next(w, e), s) == MintOf(w, s);
    }
  }

  lemma CarryKeepsStoredMinted(w: World, o: nat, turn: Turn)
    requires Traced(w)
    requires turn.effect.Write? ==> AtStage(w, o) && MayStore(w.ops[o], w.ops[o].subject)
    ensures forall s :: s in Carry(w, o, turn).store ==> MintOf(Carry(w, o, turn), s) in Carry(w, o, turn).minted
  {
    var v := Carry(w, o, turn);
    forall s | s in v.store
      ensures MintOf(v, s) in v.minted
    {
      if s in w.store && MintOf(v, s) == MintOf(w, s) {
        assert MintOf(w, s) in w.minted;
      }
    }
  }

  lemma StepKeepsPast(w: World, e: Event)
    requires Traced(w) && Enabled(w, e)
    ensures EndedWereMinted(Next(w, e)) && forall m :: m in Next(w, e).minted ==> Past(Next(w, e), m)
  {
    forall m | m in Next(w, e).minted
      ensures Past(Next(w, e), m)
    {
      MintsOnce(w, e, m);
    }
  }

  lemma CarryKeepsMayStore(w: World, o: nat, turn: Turn)
    requires Traced(w)
    requires forall s :: MayStore(turn.pc, s) ==> (o in w.ops && MayStore(w.ops[o], s)) || turn.mint == Some(s)
    ensures var v := Carry(w, o, turn);
      forall p, s :: p in v.ops && MayStore(v.ops[p], s) ==> Mint(s, From(p)) in v.minted
  {
  }

  lemma StepKeepsTraced(w: World, e: Event)
    requires Inv(w) && Traced(w) && Enabled(w, e)
    ensures Traced(Next(w, e))
  {
    StepKeepsStoredMinted(w, e);
    StepKeepsPast(w, e);
    StepKeepsMayStore(w, e, Next(w, e));
  }

  lemma StepKeepsMayStore(w: World, e: Event, v: World)
    requires Inv(w) && Traced(w) && Enabled(w, e) && v == Next(w, e)
    ensures forall p, s :: p in v.ops && MayStore(v.ops[p], s) ==> Mint(s, From(p)) in v.minted
  {
    if OfOperation(e) {
      TurnIsTraced(w, e);
      CarryKeepsMayStore(w, e.o, TurnOf(w, e));
    }
  }

  lemma {:induction false} RunKeepsTraced(w: World, events: seq<Event>)
    requires IsRun(w, events) && Inv(w) && Traced(w)
    ensures Traced(Final(w, events))
    decreases |events|
  {
    if events != [] {
      StepKeepsInv(w, events[0]);
      StepKeepsTraced(w, events[0]);
      RunKeepsTraced(Next(w, events[0]), events[1..]);
    }
  }

  lemma ReachableTraced(w: World)
    requires Reachable(w)
    ensures Traced(w)
  {
    var store: map<string, Token>, events: seq<Event> :|
      IsRun(Initial(store), events) && Final(Initial(store), events) == w;
    RunKeepsTraced(Initial(store), events);
  }

  /**
   Main result: over every run a stored credential works if and only if no revoke of its
   subject was processed since the provider minted it; else the first one processed ended it.
   */
  lemma StoredCredentialFate(store: map<string, Token>, events: seq<Event>, s: string)
    requires IsRun(Initial(store), events) && s in Final(Initial(store), events).store
    ensures var w := Final(Initial(store), events);
      MintOf(w, s) in w.minted
      && FateOf(w, MintOf(w, s)) == FateBy(FirstLandingAfter(Initial(store), events, MintOf(w, s)))
  {
    RunKeepsTraced(Initial(store), events);
    var m := MintOf(Final(Initial(store), events), s);
    if m in Initial(store).minted {
      FateOfEarlierMint(Initial(store), events, m);
    } else {
      FateOfLaterMint(Initial(store), events, m);
    }
  }

  // ----- What a caller must respect -----

  /** A completion of `subject` from the grant of its exchange, delivered or not, to its end. */
  predicate Completing(pc: Pc, subject: string) {
    match pc
    case Exchanging(granted) => GrantedTo(granted, subject)
    case Claiming(s, job) => s == subject && job.Complete?
    case Holding(s, stage) =>
      s == subject
      && (stage.Snapshotted? || stage.Stranded? || stage.CleaningUp? || (stage.Loading? && stage.job.Complete?))
    case _ => false
  }

  predicate InFlight(w: World, o: nat, subject: string) {
    o in w.ops && Completing(w.ops[o], subject)
  }

  /** The provider grants an exchange. */
  predicate GrantsExchange(w: World, e: Event) {
    e.Grant? && e.o in w.ops && w.ops[e.o].Exchanging? && e.answer.Granted?
  }

  /** Completions of one account do not overlap: none is in flight when another is granted. */
  ghost predicate Serial(w: World, e: Event) {
    GrantsExchange(w, e) ==> forall o :: o != e.o ==> !InFlight(w, o, e.answer.success.subject)
  }

  predicate Cleaning(w: World, o: nat) {
    AtStage(w, o) && w.ops[o].stage.CleaningUp?
  }

  /** A cleanup revoke is awaited to the end: its sender goes on only when it is processed or lost. */
  ghost predicate Awaited(w: World, e: Event) {
    (e.Cancel? || e.AnswerRevoke?) && Cleaning(w, e.o) ==> forall r :: r in w.requests ==> w.requests[r].sender != e.o
  }

  ghost predicate SerialRun(w: World, events: seq<Event>)
    requires IsRun(w, events)
    decreases |events|
  {
    events == [] || (Serial(w, events[0]) && SerialRun(Next(w, events[0]), events[1..]))
  }

  ghost predicate AwaitedRun(w: World, events: seq<Event>)
    requires IsRun(w, events)
    decreases |events|
  {
    events == [] || (Awaited(w, events[0]) && AwaitedRun(Next(w, events[0]), events[1..]))
  }

  // ----- One completion at a time is serial -----

  /** A completion from the start of its exchange to its end, whoever signs in. */
  predicate Completes(pc: Pc) {
    match pc
    case Exchanging(_) => true
    case Claiming(_, job) => job.Complete?
    case Holding(_, stage) =>
      stage.Snapshotted? || stage.Stranded? || stage.CleaningUp? || (stage.Loading? && stage.job.Complete?)
    case _ => false
  }

  predicate Running(w: World, o: nat) {
    o in w.ops && Completes(w.ops[o])
  }

  /** What a caller can check before the call: no completion is running. */
  ghost predicate OneAtATime(w: World, e: Event) {
    e.StartComplete? && e.prelude.None? ==> forall o :: !Running(w, o)
  }

  ghost predicate OneAtATimeRun(w: World, events: seq<Event>)
    requires IsRun(w, events)
    decreases |events|
  {
    events == [] || (OneAtATime(w, events[0]) && OneAtATimeRun(Next(w, events[0]), events[1..]))
  }

  ghost predicate OneRunning(w: World) {
    forall a, b :: Running(w, a) && Running(w, b) ==> a == b
  }

  lemma CompletionsBegin(w: World, e: Event)
    requires Enabled(w, e) && OfOperation(e)
    ensures Completes(TurnOf(w, e).pc) ==> Running(w, e.o) || (e.StartComplete? && e.prelude.None?)
  {
  }

  lemma CarryKeepsOneRunning(w: World, o: nat, turn: Turn)
    requires OneRunning(w) && (Completes(turn.pc) ==> Running(w, o) || forall p :: !Running(w, p))
    ensures OneRunning(Carry(w, o, turn))
  {
    assert forall p :: p != o ==> (Running(Carry(w, o, turn), p) <==> Running(w, p));
  }

  lemma StepKeepsOneRunning(w: World, e: Event, v: World)
    requires OneRunning(w) && Enabled(w, e) && OneAtATime(w, e) && v == Next(w, e)
    ensures OneRunning(v)
  {
    if OfOperation(e) {
      CompletionsBegin(w, e);
      CarryKeepsOneRunning(w, e.o, TurnOf(w, e));
    } else {
      assert forall o :: Running(v, o) <==> Running(w, o);
    }
  }

  lemma OneRunningIsSerial(w: World, e: Event)
    requires OneRunning(w)
    ensures Serial(w, e)
  {
    if GrantsExchange(w, e) {
      assert Running(w, e.o);
      assert forall o :: InFlight(w, o, e.answer.success.subject) ==> Running(w, o);
    }
  }

  /** Running completions one at a time, of whatever accounts, is enough to be serial. */
  lemma {:induction false} OneAtATimeIsSerial(w: World, events: seq<Event>)
    requires IsRun(w, events) && OneRunning(w) && OneAtATimeRun(w, events)
    ensures SerialRun(w, events)
    decreases |events|
  {
    if events != [] {
      OneRunningIsSerial(w, events[0]);
      StepKeepsOneRunning(w, events[0], Next(w, events[0]));
      OneAtATimeIsSerial(Next(w, events[0]), events[1..]);
    }
  }

  // ----- Under both conditions no stored credential is cleaned up -----

  ghost predicate StoredIsUntouched(w: World) {
    && (forall s :: s in w.store ==> MintOf(w, s) !in w.cleaned)
    && (forall o, s :: o in w.ops && MayStore(w.ops[o], s) ==> Mint(s, From(o)) !in w.cleaned)
  }

  ghost predicate OneCompletionEach(w: World) {
    forall a, b, s :: InFlight(w, a, s) && InFlight(w, b, s) ==> a == b
  }

  ghost predicate SendersWait(w: World) {
    forall r :: r in w.requests && w.requests[r].revoke.cleanup ==> Cleaning(w, w.requests[r].sender)
  }

  lemma CarryKeepsOneCompletion(w: World, o: nat, turn: Turn)
    requires OneCompletionEach(w)
    requires forall s :: Completing(turn.pc, s) ==> InFlight(w, o, s) || forall p :: p != o ==> !InFlight(w, p, s)
    ensures OneCompletionEach(Carry(w, o, turn))
  {
    var v := Carry(w, o, turn);
    assert forall p, s :: p != o ==> (InFlight(v, p, s) <==> InFlight(w, p, s));
  }

  /** A completion is in flight from the grant of its exchange only. */
  lemma CompletionStarts(w: World, e: Event)
    requires Enabled(w, e) && OfOperation(e)
    requires AtStage(w, e.o) ==> Knows(w.store, w.ops[e.o].subject, w.ops[e.o].stage)
    ensures forall s :: Completing(TurnOf(w, e).pc, s) ==>
      InFlight(w, e.o, s) || (GrantsExchange(w, e) && e.answer.success.subject == s)
  {
  }

  lemma StepKeepsOneCompletion(w: World, e: Event)
    requires Inv(w) && OneCompletionEach(w) && Enabled(w, e) && Serial(w, e)
    ensures OneCompletionEach(Next(w, e))
  {
    if OfOperation(e) {
      CompletionStarts(w, e);
      CarryKeepsOneCompletion(w, e.o, TurnOf(w, e));
    } else {
      assert forall o, s :: InFlight(Next(w, e), o, s) <==> InFlight(w, o, s);
    }
  }

  lemma CarryKeepsSendersWaiting(w: World, o: nat, turn: Turn)
    requires SendersWait(w)
    requires turn.send.Some? && turn.send.value.cleanup ==> turn.pc.Holding? && turn.pc.stage.CleaningUp?
    requires Cleaning(w, o) ==> forall r :: r in w.requests ==> w.requests[r].sender != o
    ensures SendersWait(Carry(w, o, turn))
  {
    assert forall p :: p != o && Cleaning(w, p) ==> Cleaning(Carry(w, o, turn), p);
  }

  lemma StepKeepsSendersWaiting(w: World, e: Event)
    requires SendersWait(w) && Enabled(w, e) && Awaited(w, e)
    ensures SendersWait(Next(w, e))
  {
    if OfOperation(e) {
      if TurnOf(w, e).send.Some? && TurnOf(w, e).send.value.cleanup {
        CleanupTurn(w, e);
      }
      CarryKeepsSendersWaiting(w, e.o, TurnOf(w, e));
    } else {
      assert forall o :: Cleaning(w, o) ==> Cleaning(Next(w, e), o);
    }
  }

  /** A cleanup revoke that is processed while its sender waits meets nothing stored or about to be. */
  lemma LandingIsHarmless(w: World, r: nat, s: string)
    requires Inv(w) && OneCompletionEach(w) && SendersWait(w) && Traced(w)
    requires r in w.requests && w.requests[r].revoke.cleanup && w.requests[r].revoke.subject == s
    ensures s !in w.store
    ensures forall o :: o in w.ops ==> !MayStore(w.ops[o], s)
  {
    var sender := w.requests[r].sender;
    assert FromSender(w.ops, w.requests[r]) && Knows(w.store, s, w.ops[sender].stage);
    assert Holds(w, sender, s) && InFlight(w, sender, s);
    assert forall o :: o in w.ops && MayStore(w.ops[o], s) ==> Holds(w, o, s) || InFlight(w, o, s);
  }

  lemma StepKeepsUntouched(w: World, e: Event)
    requires Inv(w) && Traced(w) && OneCompletionEach(w) && SendersWait(w) && StoredIsUntouched(w)
    requires Enabled(w, e)
    ensures StoredIsUntouched(Next(w, e))
  {
    if OfOperation(e) {
      TurnKeepsUntouched(w, e);
    } else if e.Land? && w.requests[e.r].revoke.cleanup {
      LandingIsHarmless(w, e.r, w.requests[e.r].revoke.subject);
    }
  }

  lemma CarryKeepsUntouched(w: World, o: nat, turn: Turn)
    requires StoredIsUntouched(w)
    requires turn.effect.Write? ==> AtStage(w, o) && MayStore(w.ops[o], w.ops[o].subject)
    requires forall s :: MayStore(turn.pc, s) ==> (o in w.ops && MayStore(w.ops[o], s)) || turn.mint == Some(s)
    requires turn.mint.Some? ==> Mint(turn.mint.value, From(o)) !in w.cleaned
    ensures StoredIsUntouched(Carry(w, o, turn))
  {
    var v := Carry(w, o, turn);
    forall s | s in v.store
      ensures MintOf(v, s) !in v.cleaned
    {
      if s in w.store && MintOf(v, s) == MintOf(w, s) {
        assert MintOf(w, s) !in w.cleaned;
      }
    }
  }

  /** What a turn mints has not been ended yet: its operation has had no grant before. */
  lemma TurnKeepsUntouched(w: World, e: Event)
    requires Inv(w) && Traced(w) && StoredIsUntouched(w)
    requires Enabled(w, e) && OfOperation(e)
    ensures StoredIsUntouched(Next(w, e))
  {
    TurnIsTraced(w, e);
    if TurnOf(w, e).mint.Some? {
      MintsOnce(w, e, Mint(TurnOf(w, e).mint.value, From(e.o)));
    }
    CarryKeepsUntouched(w, e.o, TurnOf(w, e));
  }

  lemma {:induction false} CarefulRunKeepsUntouched(w: World, events: seq<Event>)
    requires IsRun(w, events) && SerialRun(w, events) && AwaitedRun(w, events)
    requires Inv(w) && Traced(w) && OneCompletionEach(w) && SendersWait(w) && StoredIsUntouched(w)
    ensures StoredIsUntouched(Final(w, events))
    decreases |events|
  {
    if events != [] {
      var e := events[0];
      StepKeepsInv(w, e);
      StepKeepsTraced(w, e);
      StepKeepsOneCompletion(w, e);
      StepKeepsSendersWaiting(w, e);
      StepKeepsUntouched(w, e);
      CarefulRunKeepsUntouched(Next(w, e), events[1..]);
    }
  }

  /**
   Main result: when no completion of an account is granted while another is in flight, and
   cleanup revokes are awaited to the end, no completion or refresh ends a stored credential.
   */
  lemma StoredGrantsSurvive(store: map<string, Token>, events: seq<Event>, s: string)
    requires IsRun(Initial(store), events)
    requires SerialRun(Initial(store), events) && AwaitedRun(Initial(store), events)
    requires s in Final(Initial(store), events).store
    ensures var w := Final(Initial(store), events);
      FateOf(w, MintOf(w, s)) != CleanedUp
  {
    RunKeepsTraced(Initial(store), events);
    CarefulRunKeepsUntouched(Initial(store), events);
  }
}
