/**
 The account-identity gate: `run_identity_gate` of adapters/sync-runtime/src/gate.rs, a
 bounded read-decide-record loop over a store that others write in between.

 `Slot(others, fault)` is what happens around one store call of the gate: the transactions
 that other processes commit just before it, and whether and where the call itself fails.
 */
module Gate {
  import opened Wrappers
  import opened Messages
  import opened Identity
  import opened MailboxStore

  const MAX_GATE_ATTEMPTS: nat := 4

  datatype GateError = HasherFailed | StoreFailed(error: StoreError)

  datatype Slot = Slot(others: seq<Call>, fault: Fault)

  function RunAll(db: Db, calls: seq<Call>): Db
    decreases |calls|
  {
    if calls == [] then db else RunAll(After(db, calls[0].tx, calls[0].fault), calls[1..])
  }

  /** Commits of others: everything between two calls of the gate. */
  method Interfere(store: Store, calls: seq<Call>)
    modifies store
    ensures store.State() == RunAll(old(store.State()), calls)
  {
    var db := RunAll(Db(store.rows, store.nullRows, store.identity, store.binding, store.lifecycle), calls);
    store.rows, store.nullRows, store.identity := db.rows, db.nullRows, db.identity;
    store.binding, store.lifecycle := db.binding, db.lifecycle;
  }

  /** What happens around the read and the record of one try. */
  datatype Round = Round(read: Slot, record: Slot)

  /** One try: read, decide, record.  `None` says the record lost a race. */
  function Try(db: Db, hash: Hash, round: Round): (Db, Option<Result<Hash, GateError>>) {
    var Round(read, record) := round;
    var seen := RunAll(db, read.others);
    if read.fault != Never then (seen, Some(Err(StoreFailed(Storage))))
    else
      match ReadIdentity(seen.identity)
      case Err(error) => (seen, Some(Err(StoreFailed(error))))
      case Ok(stored) =>
        if Decide(stored, hash) == Match then (seen, Some(Ok(hash)))
        else
          var moved := RunAll(seen, record.others);
          var clear := Decide(stored, hash) == ClearAndRecord;
          var (after, reply) := Committed(moved, IdentityRecorded(moved, hash, clear, stored), record.fault);
          match reply
          case Ok(_) => (after, Some(Ok(hash)))
          case Err(error) =>
            if error == IdentityRaced then (after, None) else (after, Some(Err(StoreFailed(error))))
  }

  /** The compare-and-set the gate asks for after reading `stored`. */
  function RecordTx(stored: Option<Hash>, hash: Hash): Tx {
    RecordIdentity(hash, Decide(stored, hash) == ClearAndRecord, stored)
  }

  /** The tries of the gate, one a round. */
  function GateOver(db: Db, hash: Hash, rounds: seq<Round>): (Db, Result<Hash, GateError>)
    decreases |rounds|
  {
    if rounds == [] then (db, Err(StoreFailed(IdentityRaced)))
    else
      var (after, answer) := Try(db, hash, rounds[0]);
      if answer.Some? then (after, answer.value) else GateOver(after, hash, rounds[1..])
  }

  /** `run_identity_gate`; `hasher` is the hasher's answer for the session's subject. */
  method RunIdentityGate(store: Store, hasher: Option<Hash>, rounds: seq<Round>)
    returns (r: Result<Hash, GateError>)
    requires |rounds| == 4
    modifies store
    ensures hasher.None? ==> r == Err(HasherFailed) && store.State() == old(store.State())
    ensures hasher.Some? ==> (store.State(), r) == GateOver(old(store.State()), hasher.value, rounds)
  {
    if hasher.None? {
      return Err(HasherFailed);
    }
    ghost var settled := GateOver(store.State(), hasher.value, rounds);
    for attempt := 0 to MAX_GATE_ATTEMPTS
      invariant settled == GateOver(store.State(), hasher.value, rounds[attempt..])
    {
      var answer := TryOnce(store, hasher.value, rounds[attempt]);
      assert rounds[attempt..][1..] == rounds[attempt + 1..];
      if answer.Some? {
        return answer.value;
      }
    }
    return Err(StoreFailed(IdentityRaced));
  }

  /** The body of the gate's loop. */
  method TryOnce(store: Store, hash: Hash, round: Round) returns (answer: Option<Result<Hash, GateError>>)
    modifies store
    ensures (store.State(), answer) == Try(old(store.State()), hash, round)
  {
    var Round(read, record) := round;
    Interfere(store, read.others);
    var stored := store.LoadIdentity(read.fault);
    if stored.Err? {
      return Some(Err(StoreFailed(stored.error)));
    }
    var decision := Decide(stored.value, hash);
    if decision == Match {
      return Some(Ok(hash));
    }
    Interfere(store, record.others);
    var reply := store.WriteIdentityHash(hash, decision == ClearAndRecord, stored.value, record.fault);
    if reply.Ok? {
      return Some(Ok(hash));
    }
    if reply.error != IdentityRaced {
      return Some(Err(StoreFailed(reply.error)));
    }
    return None;
  }

  // ----- The fence -----

  /**
   Recording over another account's identity destroys its mail and its freshness in the same
   commit and keeps the recovery marker; a first record keeps everything.
   */
  lemma ReplacingIdentityClearsMail(db: Db, stored: Option<Hash>, hash: Hash)
    requires stored != Some(hash)
    ensures var (after, reply) := Attempt(db, RecordTx(stored, hash));
      && (reply.Ok? <==> ReadIdentity(db.identity) == Ok(stored))
      && (reply.Err? ==> after == db)
      && (reply.Ok? ==> ReadIdentity(after.identity) == Ok(Some(hash)) && after.binding == db.binding)
      && (reply.Ok? && stored.Some? ==>
            after.rows == map[] && after.nullRows == 0
            && (after.lifecycle.Some? <==> db.lifecycle.Some?)
            && (after.lifecycle.Some? ==> after.lifecycle.value == Lifecycle(db.lifecycle.value.recovery, None)))
      && (reply.Ok? && stored.None? ==> after == db.(identity := after.identity))
  {
  }

  lemma TryReturnsRecordedIdentity(db: Db, hash: Hash, round: Round)
    ensures var (after, answer) := Try(db, hash, round);
      answer.Some? && answer.value.Ok? ==>
        answer.value.value == hash && ReadIdentity(after.identity) == Ok(Some(hash))
  {
  }

  /** A hash the gate returns is the recorded identity at the instant it is returned. */
  lemma {:induction false} GateReturnsRecordedIdentity(db: Db, hash: Hash, rounds: seq<Round>)
    ensures var (after, r) := GateOver(db, hash, rounds);
      r.Ok? ==> r.value == hash && ReadIdentity(after.identity) == Ok(Some(hash))
    decreases |rounds|
  {
    if rounds != [] {
      TryReturnsRecordedIdentity(db, hash, rounds[0]);
      GateReturnsRecordedIdentity(Try(db, hash, rounds[0]).0, hash, rounds[1..]);
    }
  }

  // ----- What the gate leaves -----

  /** The database a try reads, and the one it records over. */
  function SeenBy(db: Db, round: Round): Db {
    RunAll(db, round.read.others)
  }

  function MovedTo(db: Db, round: Round): Db {
    RunAll(SeenBy(db, round), round.record.others)
  }

  /** The database after `k` tries that recorded nothing: the commits of others only. */
  function AfterLost(db: Db, rounds: seq<Round>, k: nat): Db
    requires k <= |rounds|
    decreases k
  {
    if k == 0 then db else AfterLost(MovedTo(db, rounds[0]), rounds[1..], k - 1)
  }

  /** `after` is `db` with the identity recorded, and with another account's mail and freshness gone. */
  predicate Recorded(db: Db, hash: Hash, clears: bool, after: Db) {
    && after.identity == IdentityRow(Some(hash), Some(2)) && after.binding == db.binding
    && (if clears
        then after.rows == map[] && after.nullRows == 0
             && (after.lifecycle.Some? <==> db.lifecycle.Some?)
             && (after.lifecycle.Some? ==>
                   after.lifecycle.value == Lifecycle(db.lifecycle.value.recovery, None))
        else after == db.(identity := after.identity))
  }

  /** How a try that lets the sync begin ends: it found its own hash, or it recorded it. */
  predicate Settles(db: Db, hash: Hash, round: Round, after: Db) {
    var seen, moved := SeenBy(db, round), MovedTo(db, round);
    match ReadIdentity(seen.identity)
    case Err(_) => false
    case Ok(None) => moved.identity == NoRow && Recorded(moved, hash, false, after)
    case Ok(Some(stored)) =>
      if stored == hash then after == seen
      else ReadIdentity(moved.identity) == Ok(Some(stored)) && Recorded(moved, hash, true, after)
  }

  /** The outcome of one try, without its decision: success settles, a loss or a failure changes nothing. */
  lemma TrySettles(db: Db, hash: Hash, round: Round)
    ensures var (after, answer) := Try(db, hash, round);
      var seen, moved := SeenBy(db, round), MovedTo(db, round);
      && (answer == Some(Ok(hash)) ==> Settles(db, hash, round, after))
      && (answer == None ==>
            after == moved && ReadIdentity(seen.identity).Ok? && ReadIdentity(moved.identity).Ok?
            && ReadIdentity(moved.identity) != ReadIdentity(seen.identity))
      && (answer.Some? && answer.value.Err? ==>
            (after == seen || after == moved)
            && answer.value.error in {StoreFailed(Storage), StoreFailed(Corrupted)})
      && (answer.Some? && answer.value.Ok? ==> answer.value.value == hash)
  {
    ReplacingIdentityKeepsMarker(MovedTo(db, round), hash);
  }

  lemma ReplacingIdentityKeepsMarker(db: Db, hash: Hash)
    ensures forall stored: Option<Hash> ::
      stored != Some(hash) && Attempt(db, RecordTx(stored, hash)).1.Ok? ==>
        Recorded(db, hash, stored.Some?, Attempt(db, RecordTx(stored, hash)).0)
  {
    forall stored: Option<Hash> | stored != Some(hash) && Attempt(db, RecordTx(stored, hash)).1.Ok?
      ensures Recorded(db, hash, stored.Some?, Attempt(db, RecordTx(stored, hash)).0)
    {
      ReplacingIdentityClearsMail(db, stored, hash);
    }
  }

  /**
   Main result: when the gate lets a sync begin, exactly one of its tries settled: it found its
   own hash and changed nothing, or it recorded its hash over the identity it had read, and
   mail of another account is gone with its freshness while a first record keeps everything.
   */
  lemma {:induction false} GateSettles(db: Db, hash: Hash, rounds: seq<Round>) returns (k: nat)
    requires GateOver(db, hash, rounds).1.Ok?
    ensures k < |rounds| && Settles(AfterLost(db, rounds, k), hash, rounds[k], GateOver(db, hash, rounds).0)
    decreases |rounds|
  {
    TrySettles(db, hash, rounds[0]);
    if Try(db, hash, rounds[0]).1.Some? {
      k := 0;
    } else {
      k := GateSettles(MovedTo(db, rounds[0]), hash, rounds[1..]);
      k := k + 1;
    }
  }

  /** A gate that fails has changed nothing: what differs is the work of others. */
  lemma {:induction false} FailedGateChangesNothing(db: Db, hash: Hash, rounds: seq<Round>) returns (k: nat)
    requires GateOver(db, hash, rounds).1.Err?
    ensures k <= |rounds|
    ensures var lost, after := AfterLost(db, rounds, k), GateOver(db, hash, rounds).0;
      after == lost || (k < |rounds| && (after == SeenBy(lost, rounds[k]) || after == MovedTo(lost, rounds[k])))
    decreases |rounds|
  {
    if rounds == [] {
      k := 0;
    } else {
      TrySettles(db, hash, rounds[0]);
      if Try(db, hash, rounds[0]).1.Some? {
        k := 0;
      } else {
        k := FailedGateChangesNothing(MovedTo(db, rounds[0]), hash, rounds[1..]);
        k := k + 1;
      }
    }
  }

  // ----- Convergence -----

  predicate NoFault(rounds: seq<Round>) {
    forall i :: 0 <= i < |rounds| ==> rounds[i].read.fault == rounds[i].record.fault == Never
  }

  /** How many of the calls commit a change of the recorded identity. */
  function IdentityCommits(db: Db, calls: seq<Call>): nat
    decreases |calls|
  {
    if calls == [] then 0
    else
      var next := After(db, calls[0].tx, calls[0].fault);
      (if next.identity != db.identity then 1 else 0) + IdentityCommits(next, calls[1..])
  }

  /** Identity commits of others between the read of a try and its own record. */
  function CommitsBetween(db: Db, round: Round): nat {
    IdentityCommits(RunAll(db, round.read.others), round.record.others)
  }

  function ForeignCommits(db: Db, hash: Hash, rounds: seq<Round>): nat
    decreases |rounds|
  {
    if rounds == [] then 0
    else CommitsBetween(db, rounds[0]) + ForeignCommits(Try(db, hash, rounds[0]).0, hash, rounds[1..])
  }

  lemma {:induction false} NoCommitNoChange(db: Db, calls: seq<Call>)
    requires IdentityCommits(db, calls) == 0
    ensures RunAll(db, calls).identity == db.identity
    decreases |calls|
  {
    if calls != [] {
      NoCommitNoChange(After(db, calls[0].tx, calls[0].fault), calls[1..]);
    }
  }

  /** No transaction writes an unreadable identity. */
  lemma {:induction false} ReadableStaysReadable(db: Db, calls: seq<Call>)
    requires ReadIdentity(db.identity).Ok?
    ensures ReadIdentity(RunAll(db, calls).identity).Ok?
    decreases |calls|
  {
    if calls != [] {
      ReadableStaysReadable(After(db, calls[0].tx, calls[0].fault), calls[1..]);
    }
  }

  /** A try without faults succeeds or loses to an identity commit of its own window. */
  lemma LostTryNeedsForeignCommit(db: Db, hash: Hash, round: Round)
    requires round.read.fault == round.record.fault == Never && ReadIdentity(db.identity).Ok?
    ensures var (after, answer) := Try(db, hash, round);
      ReadIdentity(after.identity).Ok?
      && (if answer.Some? then answer.value.Ok? else CommitsBetween(db, round) >= 1)
  {
    var seen := RunAll(db, round.read.others);
    ReadableStaysReadable(db, round.read.others);
    ReadableStaysReadable(seen, round.record.others);
    if IdentityCommits(seen, round.record.others) == 0 {
      NoCommitNoChange(seen, round.record.others);
    }
  }

  /** Every lost attempt is paid for by an identity commit of someone else in its own window. */
  lemma {:induction false} LostAttemptsNeedForeignCommits(db: Db, hash: Hash, rounds: seq<Round>)
    requires NoFault(rounds) && ReadIdentity(db.identity).Ok?
    ensures GateOver(db, hash, rounds).1.Err? ==>
      GateOver(db, hash, rounds).1.error == StoreFailed(IdentityRaced)
      && ForeignCommits(db, hash, rounds) >= |rounds|
    decreases |rounds|
  {
    if rounds != [] {
      LostTryNeedsForeignCommit(db, hash, rounds[0]);
      LostAttemptsNeedForeignCommits(Try(db, hash, rounds[0]).0, hash, rounds[1..]);
    }
  }

  /** Main result: three identity commits by others cannot starve the four attempts. */
  lemma GateConverges(db: Db, hash: Hash, rounds: seq<Round>)
    requires |rounds| == 4 && NoFault(rounds) && ReadIdentity(db.identity).Ok?
    requires ForeignCommits(db, hash, rounds) <= 3
    ensures GateOver(db, hash, rounds).1 == Ok(hash)
  {
    LostAttemptsNeedForeignCommits(db, hash, rounds);
    GateReturnsRecordedIdentity(db, hash, rounds);
  }
}
