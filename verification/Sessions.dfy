/**
 The pending-session registry of adapters/token-broker-core/src/registry.rs: bounded,
 reaped at insert time, and one-shot.

 `id` tells session values apart; the code moves each value in and out of the map.
 */
module Sessions {
  import opened Wrappers
  import opened Sets
  import opened BrokerErrors

  const MAX_PENDING_SESSIONS := 8
  const MAX_HANDLE_ALLOCATION_ATTEMPTS: nat := 3

  datatype Session = Session(id: nat, expiresAt: nat)

  /** The n-th draw of the entropy source: a handle, or `None` when the source fails. */
  type Entropy = nat -> Option<string>

  datatype Registry = Registry(sessions: map<string, Session>, poisoned: bool)

  // ----- Specification -----

  /** The sessions not yet expired: `retain` at insert time. */
  function Live(sessions: map<string, Session>, now: nat): map<string, Session> {
    map handle | handle in sessions && now < sessions[handle].expiresAt :: sessions[handle]
  }

  /** The handle the allocation loop settles on after `attempts` collisions. */
  function Allocate(taken: set<string>, entropy: Entropy, attempts: nat): Result<string, BrokerError>
    requires attempts < MAX_HANDLE_ALLOCATION_ATTEMPTS
    decreases MAX_HANDLE_ALLOCATION_ATTEMPTS - attempts
  {
    match entropy(attempts)
    case None => Err(Unavailable)
    case Some(handle) =>
      if handle !in taken then Ok(handle)
      else if attempts + 1 >= MAX_HANDLE_ALLOCATION_ATTEMPTS then Err(Unavailable)
      else Allocate(taken, entropy, attempts + 1)
  }

  function Inserted(r: Registry, session: Session, now: nat, entropy: Entropy)
    : (Registry, Result<string, BrokerError>)
  {
    if r.poisoned then (Registry(map[], true), Err(Unavailable))
    else
      var live := Live(r.sessions, now);
      if |live| >= MAX_PENDING_SESSIONS then (Registry(live, false), Err(Busy))
      else
        match Allocate(live.Keys, entropy, 0)
        case Err(error) => (Registry(live, false), Err(error))
        case Ok(handle) => (Registry(live[handle := session], false), Ok(handle))
  }

  function Claimed(r: Registry, handle: string): (Registry, Result<Session, BrokerError>) {
    if r.poisoned then (Registry(map[], true), Err(Unavailable))
    else if handle in r.sessions then (Registry(r.sessions - {handle}, false), Ok(r.sessions[handle]))
    else (r, Err(SessionUnknown))
  }

  // ----- The registry -----

  class SessionRegistry {
    var sessions: map<string, Session>
    var poisoned: bool

    ghost function State(): Registry
      reads this
    {
      Registry(sessions, poisoned)
    }

    constructor ()
      ensures State() == Registry(map[], false)
    {
      sessions, poisoned := map[], false;
    }

    /** `lock_sessions`: a poisoned map is drained, then refused. */
    method Lock() returns (ok: bool)
      modifies this`sessions
      ensures ok == !poisoned && sessions == if poisoned then map[] else old(sessions)
    {
      if poisoned {
        sessions := map[];
      }
      ok := !poisoned;
    }

    method Insert(session: Session, now: nat, entropy: Entropy)
      returns (r: Result<string, BrokerError>, draws: nat)
      modifies this`sessions
      ensures (State(), r) == Inserted(old(State()), session, now, entropy)
      ensures draws <= 3
    {
      draws := 0;
      var locked := Lock();
      if !locked {
        return Err(Unavailable), 0;
      }
      sessions := Live(sessions, now);
      if |sessions| >= MAX_PENDING_SESSIONS {
        return Err(Busy), 0;
      }
      while true
        invariant draws < MAX_HANDLE_ALLOCATION_ATTEMPTS
        invariant sessions == Live(old(sessions), now)
        invariant Allocate(sessions.Keys, entropy, 0) == Allocate(sessions.Keys, entropy, draws)
        decreases MAX_HANDLE_ALLOCATION_ATTEMPTS - draws
      {
        var handle := entropy(draws);
        draws := draws + 1;
        if handle.None? {
          return Err(Unavailable), draws;
        }
        if handle.value !in sessions {
          sessions := sessions[handle.value := session];
          return Ok(handle.value), draws;
        }
        if draws >= MAX_HANDLE_ALLOCATION_ATTEMPTS {
          return Err(Unavailable), draws;
        }
      }
    }

    /** `claim`: the removal is the claim. */
    method Claim(handle: string) returns (r: Result<Session, BrokerError>)
      modifies this`sessions
      ensures (State(), r) == Claimed(old(State()), handle)
    {
      var locked := Lock();
      if !locked {
        return Err(Unavailable);
      }
      if handle in sessions {
        r := Ok(sessions[handle]);
        sessions := sessions - {handle};
      } else {
        r := Err(SessionUnknown);
      }
    }
  }

  // ----- What one insert keeps -----

  /** A live session is never dropped or replaced by an insert. */
  lemma InsertKeepsLiveSessions(r: Registry, session: Session, now: nat, entropy: Entropy, handle: string)
    requires !r.poisoned && handle in r.sessions && now < r.sessions[handle].expiresAt
    ensures var after := Inserted(r, session, now, entropy).0;
      handle in after.sessions && after.sessions[handle] == r.sessions[handle]
  {
    if |Live(r.sessions, now)| < MAX_PENDING_SESSIONS {
      AllocatedIsFree(Live(r.sessions, now).Keys, entropy, 0);
    }
  }

  /** Besides its own session an insert leaves exactly the live ones. */
  lemma InsertLeavesOnlyLive(r: Registry, session: Session, now: nat, entropy: Entropy, handle: string)
    requires !r.poisoned
    ensures var (after, answer) := Inserted(r, session, now, entropy);
      && (answer == Ok(handle) ==>
            handle in after.sessions && after.sessions[handle] == session
            && (handle in r.sessions ==> r.sessions[handle].expiresAt <= now))
      && (answer != Ok(handle) ==>
            (handle in after.sessions <==> handle in r.sessions && now < r.sessions[handle].expiresAt))
  {
    if |Live(r.sessions, now)| < MAX_PENDING_SESSIONS {
      AllocatedIsFree(Live(r.sessions, now).Keys, entropy, 0);
    }
  }

  /** A claim takes exactly its own session, and only a poisoned registry loses the others. */
  lemma ClaimTakesOne(r: Registry, handle: string)
    ensures var (after, answer) := Claimed(r, handle);
      && (answer.Ok? <==> !r.poisoned && handle in r.sessions)
      && (answer.Ok? ==> answer.value == r.sessions[handle])
      && (answer.Err? ==> answer.error == if r.poisoned then Unavailable else SessionUnknown)
      && handle !in after.sessions && after.poisoned == r.poisoned
      && (r.poisoned ==> after.sessions == map[])
      && (!r.poisoned ==> forall other :: other != handle ==>
            (other in after.sessions <==> other in r.sessions)
            && (other in r.sessions ==> after.sessions[other] == r.sessions[other]))
  {
  }

  /** Draw `n` is the first of the three that the source answers with a free handle. */
  predicate FirstFree(taken: set<string>, entropy: Entropy, n: nat) {
    && n < 3 && entropy(n).Some? && entropy(n).value !in taken
    && forall i: nat :: i < n ==> entropy(i).Some? && entropy(i).value in taken
  }

  /** The allocation settles on the first free handle of three draws, and stops at a failing draw. */
  lemma AllocatesFirstFree(taken: set<string>, entropy: Entropy)
    ensures forall n: nat :: FirstFree(taken, entropy, n) ==> Allocate(taken, entropy, 0) == Ok(entropy(n).value)
    ensures (forall n: nat :: !FirstFree(taken, entropy, n)) ==> Allocate(taken, entropy, 0) == Err(Unavailable)
  {
    var zero, one, two := entropy(0), entropy(1), entropy(2);
    assert Allocate(taken, entropy, 0).Ok? ==>
      FirstFree(taken, entropy, 0) || FirstFree(taken, entropy, 1) || FirstFree(taken, entropy, 2);
    AllocatedIsFree(taken, entropy, 0);
    forall n: nat | FirstFree(taken, entropy, n)
      ensures Allocate(taken, entropy, 0) == Ok(entropy(n).value)
    {
      if n == 1 {
        assert zero.Some?;
      } else if n == 2 {
        assert zero.Some? && one.Some?;
      }
    }
  }

  /** Below the bound an insert succeeds exactly when one of three draws gives a free handle. */
  lemma InsertSucceedsExactly(r: Registry, session: Session, now: nat, entropy: Entropy)
    ensures var live := Live(r.sessions, now);
      Inserted(r, session, now, entropy).1.Ok? <==>
        !r.poisoned && |live| < 8 && exists n: nat :: FirstFree(live.Keys, entropy, n)
    ensures r.poisoned ==> Inserted(r, session, now, entropy) == (Registry(map[], true), Err(Unavailable))
  {
    AllocatesFirstFree(Live(r.sessions, now).Keys, entropy);
  }

  lemma {:induction false} AllocatedIsFree(taken: set<string>, entropy: Entropy, attempts: nat)
    requires attempts < MAX_HANDLE_ALLOCATION_ATTEMPTS
    ensures Allocate(taken, entropy, attempts).Ok? ==> Allocate(taken, entropy, attempts).value !in taken
    ensures Allocate(taken, entropy, attempts).Err? ==> Allocate(taken, entropy, attempts).error == Unavailable
    decreases MAX_HANDLE_ALLOCATION_ATTEMPTS - attempts
  {
    if attempts + 1 < MAX_HANDLE_ALLOCATION_ATTEMPTS {
      AllocatedIsFree(taken, entropy, attempts + 1);
    }
  }

  /** Busy means exactly that the registry is full of live sessions. */
  lemma BusyExactlyWhenFull(r: Registry, session: Session, now: nat, entropy: Entropy)
    ensures Inserted(r, session, now, entropy).1 == Err(Busy) <==>
      !r.poisoned && |Live(r.sessions, now)| >= 8
  {
    if !r.poisoned && |Live(r.sessions, now)| < MAX_PENDING_SESSIONS {
      AllocatedIsFree(Live(r.sessions, now).Keys, entropy, 0);
    }
  }

  // ----- Whole runs -----

  datatype Op = InsertOp(session: Session, now: nat, entropy: Entropy) | ClaimOp(handle: string) | PoisonOp

  function Step(r: Registry, op: Op): Registry {
    match op
    case InsertOp(session, now, entropy) => Inserted(r, session, now, entropy).0
    case ClaimOp(handle) => Claimed(r, handle).0
    case PoisonOp => r.(poisoned := true)
  }

  function Run(r: Registry, ops: seq<Op>): Registry
    decreases |ops|
  {
    if ops == [] then r else Run(Step(r, ops[0]), ops[1..])
  }

  /** The ids of the sessions moved into the registry, and of those claims returned. */
  function InsertedIds(ops: seq<Op>): seq<nat> {
    if ops == [] then []
    else (if ops[0].InsertOp? then [ops[0].session.id] else []) + InsertedIds(ops[1..])
  }

  function ClaimedIds(r: Registry, ops: seq<Op>): seq<nat>
    decreases |ops|
  {
    if ops == [] then []
    else
      var answer := if ops[0].ClaimOp? then Claimed(r, ops[0].handle).1 else Err(SessionUnknown);
      (if answer.Ok? then [answer.value.id] else []) + ClaimedIds(Step(r, ops[0]), ops[1..])
  }

  ghost predicate Distinct(ids: seq<nat>) {
    forall i, j :: 0 <= i < j < |ids| ==> ids[i] != ids[j]
  }

  ghost predicate OneHandleEach(r: Registry) {
    forall a, b :: a in r.sessions && b in r.sessions && r.sessions[a].id == r.sessions[b].id ==> a == b
  }

  function Ids(r: Registry): set<nat> {
    set handle | handle in r.sessions :: r.sessions[handle].id
  }

  lemma StepIds(r: Registry, op: Op)
    requires OneHandleEach(r) && (op.InsertOp? ==> op.session.id !in Ids(r))
    ensures OneHandleEach(Step(r, op))
    ensures Ids(Step(r, op)) <= Ids(r) + (if op.InsertOp? then {op.session.id} else {})
    ensures op.ClaimOp? && Claimed(r, op.handle).1.Ok? ==>
      Claimed(r, op.handle).1.value.id in Ids(r) - Ids(Step(r, op))
  {
  }

  /** Main result: one-shot.  No session is returned twice, and only inserted ones are returned. */
  lemma {:induction false} EachSessionClaimedAtMostOnce(r: Registry, ops: seq<Op>)
    requires OneHandleEach(r) && Distinct(InsertedIds(ops))
    requires forall i :: 0 <= i < |InsertedIds(ops)| ==> InsertedIds(ops)[i] !in Ids(r)
    ensures Distinct(ClaimedIds(r, ops))
    ensures forall i :: 0 <= i < |ClaimedIds(r, ops)| ==>
      ClaimedIds(r, ops)[i] in Ids(r) || ClaimedIds(r, ops)[i] in InsertedIds(ops)
    decreases |ops|
  {
    if ops != [] {
      var next := Step(r, ops[0]);
      var rest := InsertedIds(ops[1..]);
      var shift := |InsertedIds(ops)| - |rest|;
      assert forall i :: 0 <= i < |rest| ==> rest[i] == InsertedIds(ops)[i + shift];
      assert ops[0].InsertOp? ==> InsertedIds(ops)[0] == ops[0].session.id;
      StepIds(r, ops[0]);
      EachSessionClaimedAtMostOnce(next, ops[1..]);
      var tail := ClaimedIds(next, ops[1..]);
      var all := ClaimedIds(r, ops);
      if |all| > |tail| {
        assert all[0] !in tail;
      }
    }
  }

  /** Main result: bounded.  No run leaves more than eight sessions in the registry. */
  lemma {:induction false} NeverOverfull(r: Registry, ops: seq<Op>)
    requires |r.sessions| <= 8
    ensures |Run(r, ops).sessions| <= 8
    decreases |ops|
  {
    if ops != [] {
      if ops[0].InsertOp? {
        FewerKeys(Live(r.sessions, ops[0].now), r.sessions);
      } else if ops[0].ClaimOp? {
        FewerKeys(r.sessions - {ops[0].handle}, r.sessions);
      }
      NeverOverfull(Step(r, ops[0]), ops[1..]);
    }
  }
}
