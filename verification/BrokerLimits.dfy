/**
 Why a caller must respect both conditions of `BrokerGrants.StoredGrantsSurvive`: for every
 subject, runs that respect one of them only and end with a reported success over a
 credential that a completion's cleanup has ended.
 */
module BrokerLimits {
  import opened Wrappers
  import opened BrokerErrors
  import opened Permits
  import opened Broker
  import opened BrokerGrants

  // ----- Runs piece by piece -----

  lemma RunOne(w: World, e: Event)
    requires Enabled(w, e)
    ensures IsRun(w, [e]) && Final(w, [e]) == Next(w, e)
    ensures SerialRun(w, [e]) <==> Serial(w, e)
    ensures AwaitedRun(w, [e]) <==> Awaited(w, e)
  {
    assert [e][1..] == [];
  }

  lemma {:induction false} RunAppend(w: World, first: seq<Event>, second: seq<Event>)
    requires IsRun(w, first) && IsRun(Final(w, first), second)
    ensures IsRun(w, first + second) && Final(w, first + second) == Final(Final(w, first), second)
    ensures SerialRun(w, first + second) <==> SerialRun(w, first) && SerialRun(Final(w, first), second)
    ensures AwaitedRun(w, first + second) <==> AwaitedRun(w, first) && AwaitedRun(Final(w, first), second)
    decreases |first|
  {
    if first == [] {
      assert first + second == second;
    } else {
      RunAppend(Next(w, first[0]), first[1..], second);
      assert (first + second)[1..] == first[1..] + second;
    }
  }

  /** An event before a run. */
  lemma RunCons(w: World, e: Event, events: seq<Event>)
    requires Enabled(w, e) && IsRun(Next(w, e), events)
    ensures IsRun(w, [e] + events) && Final(w, [e] + events) == Final(Next(w, e), events)
    ensures SerialRun(w, [e] + events) <==> Serial(w, e) && SerialRun(Next(w, e), events)
    ensures AwaitedRun(w, [e] + events) <==> Awaited(w, e) && AwaitedRun(Next(w, e), events)
  {
    assert ([e] + events)[1..] == events;
  }

  // ----- The pieces of a sign-in -----

  /** A response that passes every gate, and one whose identity token is stale. */
  function Good(subject: string): Success {
    Success(subject, "access", Some("refresh"), 1, true)
  }

  function Stale(subject: string): Success {
    Success(subject, "access", Some("stranded"), 1, false)
  }

  /** The exchange is started and granted; its answer is under way. */
  function Ask(n: nat, success: Success): seq<Event> {
    [StartComplete(n, None)] + [Grant(n, Granted(success))]
  }

  lemma AskRuns(w: World, n: nat, success: Success)
    requires n !in w.ops
    ensures IsRun(w, Ask(n, success)) && AwaitedRun(w, Ask(n, success))
    ensures SerialRun(w, Ask(n, success)) <==> forall o :: o != n ==> !InFlight(w, o, success.subject)
    ensures Final(w, Ask(n, success)) ==
      w.(ops := w.ops[n := Exchanging(Some(Granted(success)))],
         minted := w.minted + {Mint(success.subject, From(n))})
  {
    var w1 := Next(w, StartComplete(n, None));
    assert w1 == w.(ops := w.ops[n := Exchanging(None)]);
    assert forall o :: o != n ==> (InFlight(w1, o, success.subject) <==> InFlight(w, o, success.subject));
    var e := Grant(n, Granted(success));
    assert Next(w1, e).ops == w.ops[n := Exchanging(Some(Granted(success)))];
    RunOne(w1, e);
    RunCons(w, StartComplete(n, None), [e]);
  }

  function Deliver(n: nat, success: Success): seq<Event> {
    [AnswerExchange(n, Granted(success))]
  }

  lemma DeliverRuns(w: World, n: nat, success: Success)
    requires n in w.ops && w.ops[n] == Exchanging(Some(Granted(success))) && ValidSubject(success.subject)
    ensures var events := Deliver(n, success);
      IsRun(w, events) && AwaitedRun(w, events) && SerialRun(w, events)
    ensures Final(w, Deliver(n, success)) == w.(ops := w.ops[n := Claiming(success.subject, Complete(success))])
  {
    RunOne(w, AnswerExchange(n, Granted(success)));
  }

  function Begin(n: nat, success: Success): seq<Event> {
    Ask(n, success) + Deliver(n, success)
  }

  lemma BeginRuns(w: World, n: nat, success: Success)
    requires n !in w.ops && ValidSubject(success.subject)
    ensures IsRun(w, Begin(n, success)) && AwaitedRun(w, Begin(n, success))
    ensures SerialRun(w, Begin(n, success)) <==> forall o :: o != n ==> !InFlight(w, o, success.subject)
    ensures Final(w, Begin(n, success)) ==
      w.(ops := w.ops[n := Claiming(success.subject, Complete(success))],
         minted := w.minted + {Mint(success.subject, From(n))})
  {
    AskRuns(w, n, success);
    var w1 := Final(w, Ask(n, success));
    DeliverRuns(w1, n, success);
    assert w1.ops[n := Claiming(success.subject, Complete(success))]
      == w.ops[n := Claiming(success.subject, Complete(success))];
    RunAppend(w, Ask(n, success), Deliver(n, success));
  }

  /** The permit is there for the taking. */
  predicate Free(w: World, subject: string) {
    subject !in w.held && !w.poisoned && |w.held| < MAX_SUBJECT_PERMITS
  }

  function TakePermit(n: nat): seq<Event> {
    [Claim(n)] + [Load(n, false)]
  }

  lemma TakePermitRuns(w: World, n: nat, success: Success)
    requires n in w.ops && w.ops[n] == Claiming(success.subject, Complete(success)) && Free(w, success.subject)
    ensures IsRun(w, TakePermit(n)) && SerialRun(w, TakePermit(n)) && AwaitedRun(w, TakePermit(n))
    ensures var s := success.subject;
      Final(w, TakePermit(n)) ==
        w.(ops := w.ops[n := Holding(s, Snapshotted(success, s !in w.store))], held := w.held + {s})
  {
    var s := success.subject;
    var w1 := Next(w, Claim(n));
    assert w1 == w.(ops := w.ops[n := Holding(s, Loading(Complete(success)))], held := w.held + {s});
    var w2 := Next(w1, Load(n, false));
    assert w2.ops == w.ops[n := Holding(s, Snapshotted(success, s !in w.store))];
    assert w1.held - {s} + {s} == w.held + {s};
    RunOne(w1, Load(n, false));
    RunCons(w, Claim(n), [Load(n, false)]);
  }

  function Settle(n: nat): seq<Event> {
    TakePermit(n) + [Act(n, false)]
  }

  lemma SettleStores(w: World, n: nat, s: string)
    requires n in w.ops && w.ops[n] == Claiming(s, Complete(Good(s))) && Free(w, s)
    ensures IsRun(w, Settle(n)) && SerialRun(w, Settle(n)) && AwaitedRun(w, Settle(n))
    ensures var v := Final(w, Settle(n));
      && v.ops == w.ops[n := Finished(Ok(()))] && v.requests == w.requests
      && v.minted == w.minted && v.cleaned == w.cleaned && v.disconnected == w.disconnected
      && v.store == w.store[s := "refresh"] && v.origin == w.origin[s := n]
  {
    TakePermitRuns(w, n, Good(s));
    var w1 := Final(w, TakePermit(n));
    RunOne(w1, Act(n, false));
    RunAppend(w, TakePermit(n), [Act(n, false)]);
  }

  /** A stale response over an empty store ends in a cleanup revoke. */
  function Strand(n: nat): seq<Event> {
    Settle(n) + [Act(n, false)]
  }

  lemma StrandSends(w: World, n: nat, s: string)
    requires n in w.ops && w.ops[n] == Claiming(s, Complete(Stale(s))) && Free(w, s) && s !in w.store
    ensures IsRun(w, Strand(n)) && SerialRun(w, Strand(n)) && AwaitedRun(w, Strand(n))
    ensures Final(w, Strand(n)) ==
      w.(ops := w.ops[n := Holding(s, CleaningUp(IdentityUnverified))], held := w.held + {s},
         requests := w.requests[w.sent := Request(n, Revoke(s, "stranded", true))], sent := w.sent + 1)
  {
    TakePermitRuns(w, n, Stale(s));
    var act := Act(n, false);
    var w1 := Final(w, TakePermit(n));
    var w2 := Next(w1, act);
    assert w1.held - {s} + {s} == w.held + {s};
    assert w2 == w1.(ops := w.ops[n := Holding(s, Stranded(Stale(s), true, IdentityUnverified))]);
    RunOne(w1, act);
    RunAppend(w, TakePermit(n), [act]);
    assert Next(w2, act).ops == w.ops[n := Holding(s, CleaningUp(IdentityUnverified))];
    RunOne(w2, act);
    RunAppend(w, Settle(n), [act]);
  }

  // ----- Runs that end a stored credential -----

  /** The operation reported success, and a revoke has ended what it stored. */
  predicate SuccessOverDeadGrant(w: World, o: nat, s: string, fate: Fate) {
    && o in w.ops && w.ops[o] == Finished(Ok(())) && fate != Live
    && s in w.store && MintOf(w, s) == Mint(s, From(o)) && FateOf(w, MintOf(w, s)) == fate
  }

  /** An unprocessed revoke whose subject is idle ends the credential of the next sign-in. */
  lemma LateRevokeEndsGrant(w: World, late: nat, n: nat)
    requires Reachable(w) && late in w.requests
    requires var s := w.requests[late].revoke.subject;
      ValidSubject(s) && Free(w, s) && forall o :: !InFlight(w, o, s)
    requires n !in w.ops
    ensures var s := w.requests[late].revoke.subject;
      var events := Begin(n, Good(s)) + (Settle(n) + [Land(late)]);
      IsRun(w, events) && SerialRun(w, events) && AwaitedRun(w, events)
      && SuccessOverDeadGrant(Final(w, events), n, s, FateBy(Some(w.requests[late].revoke)))
  {
    var s := w.requests[late].revoke.subject;
    ReachableTraced(w);
    assert !Past(w, Mint(s, From(n)));
    BeginRuns(w, n, Good(s));
    var w1 := Final(w, Begin(n, Good(s)));
    SettleStores(w1, n, s);
    var w2 := Final(w1, Settle(n));
    RunOne(w2, Land(late));
    RunAppend(w1, Settle(n), [Land(late)]);
    RunAppend(w, Begin(n, Good(s)), Settle(n) + [Land(late)]);
  }

  lemma CancelEnds(w: World, n: nat, s: string, r: nat)
    requires n in w.ops && w.ops[n] == Holding(s, CleaningUp(IdentityUnverified))
    requires r in w.requests && w.requests[r].sender == n
    ensures IsRun(w, [Cancel(n)]) && SerialRun(w, [Cancel(n)]) && !AwaitedRun(w, [Cancel(n)])
    ensures Final(w, [Cancel(n)]) == w.(ops := w.ops[n := Cancelled], held := w.held - {s})
  {
    RunOne(w, Cancel(n));
    assert Cleaning(w, n);
  }

  /** A stale sign-in that is cancelled while its cleanup revoke is under way. */
  lemma StrandThenCancel(w: World, n: nat, s: string)
    requires n in w.ops && w.ops[n] == Claiming(s, Complete(Stale(s))) && Free(w, s) && s !in w.store
    ensures var events := Strand(n) + [Cancel(n)];
      && IsRun(w, events) && SerialRun(w, events) && !AwaitedRun(w, events)
      && Final(w, events) ==
           w.(ops := w.ops[n := Cancelled], sent := w.sent + 1,
              requests := w.requests[w.sent := Request(n, Revoke(s, "stranded", true))])
  {
    StrandSends(w, n, s);
    var w1 := Final(w, Strand(n));
    CancelEnds(w1, n, s, w.sent);
    assert w1.held - {s} == w.held;
    assert w1.ops[n := Cancelled] == w.ops[n := Cancelled];
    RunAppend(w, Strand(n), [Cancel(n)]);
  }

  function CancelledSignIn(s: string): seq<Event> {
    Begin(0, Stale(s)) + (Strand(0) + [Cancel(0)])
  }

  lemma CancelledSignInLeavesRevoke(s: string)
    requires ValidSubject(s)
    ensures var w := Initial(map[]);
      IsRun(w, CancelledSignIn(s)) && SerialRun(w, CancelledSignIn(s)) && !AwaitedRun(w, CancelledSignIn(s))
    ensures var v := Final(Initial(map[]), CancelledSignIn(s));
      && v.ops == map[0 := Cancelled] && v.held == {} && !v.poisoned
      && v.requests == map[0 := Request(0, Revoke(s, "stranded", true))]
  {
    var w := Initial(map[]);
    BeginRuns(w, 0, Stale(s));
    var w1 := Final(w, Begin(0, Stale(s)));
    StrandThenCancel(w1, 0, s);
    RunAppend(w, Begin(0, Stale(s)), Strand(0) + [Cancel(0)]);
  }

  /** Without awaiting the revoke, serial sign-ins are not enough. */
  lemma CancelledSignInEndsGrant(s: string)
    requires ValidSubject(s)
    ensures var events := CancelledSignIn(s) + (Begin(1, Good(s)) + (Settle(1) + [Land(0)]));
      && IsRun(Initial(map[]), events) && SerialRun(Initial(map[]), events) && !AwaitedRun(Initial(map[]), events)
      && SuccessOverDeadGrant(Final(Initial(map[]), events), 1, s, CleanedUp)
  {
    CancelledSignInLeavesRevoke(s);
    var w := Final(Initial(map[]), CancelledSignIn(s));
    assert Reachable(w);
    LateRevokeEndsGrant(w, 0, 1);
    RunAppend(Initial(map[]), CancelledSignIn(s), Begin(1, Good(s)) + (Settle(1) + [Land(0)]));
  }

  /** Two sign-ins of one account at once: the second cleans up before the first takes its permit. */
  function Overlapping(s: string): seq<Event> {
    Begin(0, Good(s)) + (Begin(1, Stale(s)) + (Strand(1) + (([Land(0)] + [AnswerRevoke(1, true)]) + Settle(0))))
  }

  /** With every revoke awaited to the end, overlapping sign-ins are not safe. */
  lemma OverlappingSignInsEndGrant(s: string)
    requires ValidSubject(s)
    ensures var events := Overlapping(s);
      && IsRun(Initial(map[]), events) && AwaitedRun(Initial(map[]), events) && !SerialRun(Initial(map[]), events)
      && SuccessOverDeadGrant(Final(Initial(map[]), events), 0, s, CleanedUp)
  {
    var w := Initial(map[]);
    BeginRuns(w, 0, Good(s));
    var w1 := Final(w, Begin(0, Good(s)));
    BeginRuns(w1, 1, Stale(s));
    assert InFlight(w1, 0, s);
    var w2 := Final(w1, Begin(1, Stale(s)));
    StrandSends(w2, 1, s);
    var w3 := Final(w2, Strand(1));
    var tail := ([Land(0)] + [AnswerRevoke(1, true)]) + Settle(0);
    LandedThenSettled(w3, s);
    RunAppend(w2, Strand(1), tail);
    RunAppend(w1, Begin(1, Stale(s)), Strand(1) + tail);
    RunAppend(w, Begin(0, Good(s)), Begin(1, Stale(s)) + (Strand(1) + tail));
  }

  /** The revoke lands and is confirmed; then the first sign-in goes on. */
  lemma LandedAndConfirmed(w: World, s: string)
    requires 1 in w.ops && w.ops[1] == Holding(s, CleaningUp(IdentityUnverified))
    requires w.held == {s} && 0 in w.ops
    requires w.requests == map[0 := Request(1, Revoke(s, "stranded", true))]
    requires Mint(s, From(0)) in w.minted && FateOf(w, Mint(s, From(0))) == Live
    ensures var events := [Land(0)] + [AnswerRevoke(1, true)];
      && IsRun(w, events) && AwaitedRun(w, events)
      && var v := Final(w, events);
         && v.held == {} && v.poisoned == w.poisoned && 0 in v.ops && v.ops[0] == w.ops[0]
         && FateOf(v, Mint(s, From(0))) == CleanedUp
  {
    var w1 := Next(w, Land(0));
    RunOne(w1, AnswerRevoke(1, true));
    RunCons(w, Land(0), [AnswerRevoke(1, true)]);
  }

  lemma LandedThenSettled(w: World, s: string)
    requires 0 in w.ops && w.ops[0] == Claiming(s, Complete(Good(s)))
    requires 1 in w.ops && w.ops[1] == Holding(s, CleaningUp(IdentityUnverified))
    requires w.held == {s} && !w.poisoned
    requires w.requests == map[0 := Request(1, Revoke(s, "stranded", true))]
    requires Mint(s, From(0)) in w.minted && FateOf(w, Mint(s, From(0))) == Live
    ensures var events := ([Land(0)] + [AnswerRevoke(1, true)]) + Settle(0);
      IsRun(w, events) && AwaitedRun(w, events) && SuccessOverDeadGrant(Final(w, events), 0, s, CleanedUp)
  {
    LandedAndConfirmed(w, s);
    var w1 := Final(w, [Land(0)] + [AnswerRevoke(1, true)]);
    SettleStores(w1, 0, s);
    RunAppend(w, [Land(0)] + [AnswerRevoke(1, true)], Settle(0));
  }

  /** The first sign-in's answer is still under way while the second comes, fails and cleans up. */
  function Delayed(s: string): seq<Event> {
    Ask(0, Good(s)) + (Begin(1, Stale(s)) + (Strand(1) + Late(s)))
  }

  function Late(s: string): seq<Event> {
    ([Land(0)] + [AnswerRevoke(1, true)]) + (Deliver(0, Good(s)) + Settle(0))
  }

  lemma LandedThenDelivered(w: World, s: string)
    requires 0 in w.ops && w.ops[0] == Exchanging(Some(Granted(Good(s)))) && ValidSubject(s)
    requires 1 in w.ops && w.ops[1] == Holding(s, CleaningUp(IdentityUnverified))
    requires w.held == {s} && !w.poisoned
    requires w.requests == map[0 := Request(1, Revoke(s, "stranded", true))]
    requires Mint(s, From(0)) in w.minted && FateOf(w, Mint(s, From(0))) == Live
    ensures IsRun(w, Late(s)) && AwaitedRun(w, Late(s))
    ensures SuccessOverDeadGrant(Final(w, Late(s)), 0, s, CleanedUp)
  {
    LandedAndConfirmed(w, s);
    var w1 := Final(w, [Land(0)] + [AnswerRevoke(1, true)]);
    DeliverRuns(w1, 0, Good(s));
    var w2 := Final(w1, Deliver(0, Good(s)));
    SettleStores(w2, 0, s);
    RunAppend(w1, Deliver(0, Good(s)), Settle(0));
    RunAppend(w, [Land(0)] + [AnswerRevoke(1, true)], Deliver(0, Good(s)) + Settle(0));
  }

  /** An overlap is unsafe even when the answers do not overlap: the provider mints before it delivers. */
  lemma DelayedAnswerEndsGrant(s: string)
    requires ValidSubject(s)
    ensures var events := Delayed(s);
      && IsRun(Initial(map[]), events) && AwaitedRun(Initial(map[]), events) && !SerialRun(Initial(map[]), events)
      && SuccessOverDeadGrant(Final(Initial(map[]), events), 0, s, CleanedUp)
  {
    var w := Initial(map[]);
    AskRuns(w, 0, Good(s));
    var w1 := Final(w, Ask(0, Good(s)));
    BeginRuns(w1, 1, Stale(s));
    assert InFlight(w1, 0, s);
    var w2 := Final(w1, Begin(1, Stale(s)));
    StrandSends(w2, 1, s);
    var w3 := Final(w2, Strand(1));
    LandedThenDelivered(w3, s);
    RunAppend(w2, Strand(1), Late(s));
    RunAppend(w1, Begin(1, Stale(s)), Strand(1) + Late(s));
    RunAppend(w, Ask(0, Good(s)), Begin(1, Stale(s)) + (Strand(1) + Late(s)));
  }
}
