/**
 The encrypted mailbox store of adapters/store-sqlcipher/src/lib.rs, one account's
 database: its transactions as functions on the database, the class whose methods
 perform them, and what any sequence of them keeps.

 A transaction either commits or leaves the database as it was; `fault` says whether some
 statement of it fails with a storage error, and where.
 */
module MailboxStore {
  import opened Wrappers
  import opened Messages
  import opened Identity

  const MAX_STORE_LIMIT := 10_000

  datatype Recovery = IncompleteTeardown | RevokeUnconfirmed

  datatype Lifecycle = Lifecycle(recovery: Option<Recovery>, freshness: Option<int>)

  /** The `account_binding` row, if it is present and names this account. */
  datatype Binding = Binding(subject: Option<string>, token: Option<string>)

  /**
   The database.  `nullRows` counts message rows whose primary key is NULL, which SQLite
   admits and no operation writes.
   */
  datatype Db = Db(rows: Table, nullRows: nat, identity: IdentityRow,
                   binding: Option<Binding>, lifecycle: Option<Lifecycle>)

  // ----- The transactions -----

  /** Whether a statement of a transaction fails, and on which side of its identity or binding check. */
  datatype Fault = Never | BeforeCheck | AfterCheck

  datatype Tx =
    | RecordIdentity(computed: Hash, clear: bool, expected: Option<Hash>)
    | Reconcile(envelopes: seq<Envelope>, keep: nat, fence: Hash)
    | Cache(message: Envelope, content: string, fence: Hash)
    | Purge
    | Upsert(envelopes: seq<Envelope>)
    | Put(message: Envelope, content: string)
    | MarkMessageRead(id: string)
    | MarkThreadRead(thread: string)
    | RecordSync(millis: int)
    | SetRecovery(recovery: Option<Recovery>)

  datatype Reply = Done | Kept(survivors: seq<string>) | Cached(changed: bool)

  function ClearFreshness(lifecycle: Option<Lifecycle>): Option<Lifecycle> {
    if lifecycle.Some? then Some(lifecycle.value.(freshness := None)) else None
  }

  /** `assert_identity_matches_expected`. */
  function CheckExpected(row: IdentityRow, expected: Option<Hash>): Result<(), StoreError> {
    match ReadIdentity(row)
    case Err(error) => Err(error)
    case Ok(current) => if current == expected then Ok(()) else Err(IdentityRaced)
  }

  /** `assert_identity_unchanged`: the fence inside every mailbox write. */
  function CheckFence(row: IdentityRow, fence: Hash): Result<(), StoreError> {
    match ReadIdentity(row)
    case Err(error) => Err(error)
    case Ok(current) => if current == Some(fence) then Ok(()) else Err(IdentityChanged)
  }

  function MarkRead(rows: Table, wanted: Row -> bool): Table {
    map id | id in rows :: if wanted(rows[id]) then rows[id].(unread := false) else rows[id]
  }

  type Outcome = (Db, Result<Reply, StoreError>)

  /** `write_identity_hash`. */
  function IdentityRecorded(db: Db, computed: Hash, clear: bool, expected: Option<Hash>): Outcome {
    match CheckExpected(db.identity, expected)
    case Err(error) => (db, Err(error))
    case Ok(_) =>
      var cleared := if clear
        then db.(rows := map[], nullRows := 0, lifecycle := ClearFreshness(db.lifecycle)) else db;
      (cleared.(identity := IdentityRow(Some(computed), Some(IDENTITY_ALGO_VERSION))), Ok(Done))
  }

  /** `reconcile`: the fence is the last check, but it undoes everything. */
  function MailboxReconciled(db: Db, envelopes: seq<Envelope>, keep: nat, fence: Hash): Outcome {
    if |envelopes| > MAX_STORE_LIMIT then (db, Err(Storage))
    else if db.nullRows > 0 then (db, Err(Corrupted))
    else
      var rows := Reconciled(db.rows, envelopes, keep);
      match CheckFence(db.identity, fence)
      case Err(error) => (db, Err(error))
      case Ok(_) => (db.(rows := rows), Ok(Kept(Survivors(envelopes, rows, {}))))
  }

  /** `cache_if_present`. */
  function BodyCached(db: Db, message: Envelope, content: string, fence: Hash): Outcome {
    var changed := message.id in db.rows;
    var rows := if changed then WriteEnvelope(db.rows, message, Some(content)) else db.rows;
    match CheckFence(db.identity, fence)
    case Err(error) => (db, Err(error))
    case Ok(_) => (db.(rows := rows), Ok(Cached(changed)))
  }

  /** `purge`: mailbox, identity, routing subject, credential and freshness go together. */
  function Purged(db: Db): Outcome {
    if db.binding.None? then (db, Err(Corrupted))
    else (Db(map[], 0, NoRow, Some(Binding(None, None)), ClearFreshness(db.lifecycle)), Ok(Done))
  }

  /** What a transaction answers and leaves behind when no statement fails. */
  function Attempt(db: Db, tx: Tx): Outcome {
    match tx
    case RecordIdentity(computed, clear, expected) => IdentityRecorded(db, computed, clear, expected)
    case Reconcile(envelopes, keep, fence) => MailboxReconciled(db, envelopes, keep, fence)
    case Cache(message, content, fence) => BodyCached(db, message, content, fence)
    case Purge => Purged(db)
    case Upsert(envelopes) => (db.(rows := UpsertAll(db.rows, envelopes)), Ok(Done))
    case Put(message, content) =>
      (db.(rows := WriteEnvelope(db.rows, message, Some(content))), Ok(Done))
    case MarkMessageRead(id) =>
      (db.(rows := map i | i in db.rows ::
             if i == id then db.rows[i].(unread := false) else db.rows[i]), Ok(Done))
    case MarkThreadRead(thread) =>
      (db.(rows := MarkRead(db.rows, (row: Row) => row.thread == thread)), Ok(Done))
    case RecordSync(millis) =>
      if millis < 0 then (db, Err(Corrupted))
      else
        var recovery := if db.lifecycle.Some? then db.lifecycle.value.recovery else None;
        (db.(lifecycle := Some(Lifecycle(recovery, Some(millis)))), Ok(Done))
    case SetRecovery(recovery) =>
      var freshness := if db.lifecycle.Some? then db.lifecycle.value.freshness else None;
      (db.(lifecycle := Some(Lifecycle(recovery, freshness))), Ok(Done))
  }

  /** A transaction with a storage fault commits nothing, and a fault before its check is its answer. */
  function Committed(db: Db, outcome: Outcome, fault: Fault): Outcome {
    if fault == BeforeCheck || (fault == AfterCheck && outcome.1.Ok?) then (db, Err(Storage)) else outcome
  }

  function Perform(db: Db, tx: Tx, fault: Fault): Outcome {
    if tx.RecordSync? && tx.millis < 0 then Attempt(db, tx) else Committed(db, Attempt(db, tx), fault)
  }

  function After(db: Db, tx: Tx, fault: Fault): Db {
    Perform(db, tx, fault).0
  }

  // ----- The store -----

  /** The upsert loop of one transaction, on its working copy of the table. */
  method WriteBatch(rows: Table, envelopes: seq<Envelope>) returns (work: Table)
    ensures work == UpsertAll(rows, envelopes)
  {
    work := rows;
    for i := 0 to |envelopes|
      invariant UpsertAll(work, envelopes[i..]) == UpsertAll(rows, envelopes)
    {
      assert envelopes[i..][1..] == envelopes[i + 1..];
      work := WriteEnvelope(work, envelopes[i], None);
    }
  }

  /** The survivor loop of `reconcile`. */
  method ReportSurvivors(envelopes: seq<Envelope>, table: Table) returns (survivors: seq<string>)
    ensures survivors == Survivors(envelopes, table, {})
    ensures forall id :: id in survivors <==> Mentions(envelopes, id) && id in table
    ensures forall i, j :: 0 <= i < j < |survivors| ==>
      FirstOccurrence(envelopes, survivors[i]) < FirstOccurrence(envelopes, survivors[j])
  {
    survivors := CollectSurvivors(envelopes, table);
    SurvivorsSpec(envelopes, table, {});
  }

  method CollectSurvivors(envelopes: seq<Envelope>, table: Table) returns (survivors: seq<string>)
    ensures survivors == Survivors(envelopes, table, {})
  {
    survivors := [];
    var seen: set<string> := {};
    for i := 0 to |envelopes|
      invariant survivors + Survivors(envelopes[i..], table, seen) == Survivors(envelopes, table, {})
    {
      SurvivorsStep(envelopes, i, table, seen);
      var id := envelopes[i].id;
      if id in seen {
        assert seen + {id} == seen;
        continue;
      }
      seen := seen + {id};
      if id in table {
        survivors := survivors + [id];
      }
    }
    assert survivors + [] == survivors;
  }

  lemma SurvivorsStep(envelopes: seq<Envelope>, i: nat, table: Table, seen: set<string>)
    requires i < |envelopes|
    ensures var id := envelopes[i].id;
      Survivors(envelopes[i..], table, seen)
      == (if id !in seen && id in table then [id] else []) + Survivors(envelopes[i + 1..], table, seen + {id})
  {
    assert envelopes[i..][1..] == envelopes[i + 1..];
  }

  class Store {
    var rows: Table
    var nullRows: nat
    var identity: IdentityRow
    var binding: Option<Binding>
    var lifecycle: Option<Lifecycle>

    ghost function State(): Db
      reads this
    {
      Db(rows, nullRows, identity, binding, lifecycle)
    }

    constructor (db: Db)
      ensures State() == db
    {
      rows, nullRows, identity, binding, lifecycle :=
        db.rows, db.nullRows, db.identity, db.binding, db.lifecycle;
    }

    method LoadIdentity(fault: Fault) returns (r: Result<Option<Hash>, StoreError>)
      ensures r == if fault != Never then Err(Storage) else ReadIdentity(identity)
    {
      if fault != Never {
        return Err(Storage);
      }
      r := ReadIdentity(identity);
    }

    /** `write_identity_hash`: compare-and-set, clearing the mailbox on request. */
    method WriteIdentityHash(computed: Hash, clear: bool, expected: Option<Hash>, fault: Fault)
      returns (r: Result<Reply, StoreError>)
      modifies this
      ensures (State(), r) == Perform(old(State()), RecordIdentity(computed, clear, expected), fault)
    {
      if fault == BeforeCheck {
        return Err(Storage);
      }
      var check := CheckExpected(identity, expected);
      if check.Err? {
        return Err(check.error);
      }
      var kept, nulls, life := rows, nullRows, lifecycle;
      if clear {
        kept, nulls := map[], 0;
        life := ClearFreshness(life);
      }
      if fault == AfterCheck {
        return Err(Storage);
      }
      rows, nullRows, lifecycle := kept, nulls, life;
      identity := IdentityRow(Some(computed), Some(IDENTITY_ALGO_VERSION));
      return Ok(Done);
    }

    /** `reconcile`: upsert the batch, prune to the first `keep` rows, report the survivors. */
    method ReconcileRecent(envelopes: seq<Envelope>, keep: nat, fence: Hash, fault: Fault)
      returns (r: Result<Reply, StoreError>)
      modifies this
      ensures (State(), r) == Perform(old(State()), Reconcile(envelopes, keep, fence), fault)
    {
      if |envelopes| > MAX_STORE_LIMIT || fault == BeforeCheck {
        return Err(Storage);
      }
      if nullRows > 0 {
        return Err(Corrupted);
      }
      var work := WriteBatch(rows, envelopes);
      work := Prune(work, keep);
      var survivors := ReportSurvivors(envelopes, work);
      var check := CheckFence(identity, fence);
      if check.Err? {
        return Err(check.error);
      }
      if fault == AfterCheck {
        return Err(Storage);
      }
      rows := work;
      return Ok(Kept(survivors));
    }

    method CacheIfPresent(message: Envelope, content: string, fence: Hash, fault: Fault)
      returns (r: Result<Reply, StoreError>)
      modifies this
      ensures (State(), r) == Perform(old(State()), Cache(message, content, fence), fault)
    {
      if fault == BeforeCheck {
        return Err(Storage);
      }
      var work := rows;
      var changed := message.id in work;
      if changed {
        work := WriteEnvelope(work, message, Some(content));
      }
      var check := CheckFence(identity, fence);
      if check.Err? {
        return Err(check.error);
      }
      if fault == AfterCheck {
        return Err(Storage);
      }
      rows := work;
      return Ok(Cached(changed));
    }

    method PurgeAccount(fault: Fault) returns (r: Result<Reply, StoreError>)
      modifies this
      ensures (State(), r) == Perform(old(State()), Purge, fault)
    {
      if fault == BeforeCheck {
        return Err(Storage);
      }
      if binding.None? {
        return Err(Corrupted);
      }
      if fault == AfterCheck {
        return Err(Storage);
      }
      rows, nullRows, identity := map[], 0, NoRow;
      binding := Some(Binding(None, None));
      lifecycle := ClearFreshness(lifecycle);
      return Ok(Done);
    }

    method UpsertEnvelopes(envelopes: seq<Envelope>, fault: Fault) returns (r: Result<Reply, StoreError>)
      modifies this
      ensures (State(), r) == Perform(old(State()), Upsert(envelopes), fault)
    {
      var work := WriteBatch(rows, envelopes);
      if fault != Never {
        return Err(Storage);
      }
      rows := work;
      return Ok(Done);
    }

    method PutMessage(message: Envelope, content: string, fault: Fault) returns (r: Result<Reply, StoreError>)
      modifies this
      ensures (State(), r) == Perform(old(State()), Put(message, content), fault)
    {
      if fault != Never {
        return Err(Storage);
      }
      rows := WriteEnvelope(rows, message, Some(content));
      return Ok(Done);
    }

    method MarkOneMessageRead(id: string, fault: Fault) returns (r: Result<Reply, StoreError>)
      modifies this
      ensures (State(), r) == Perform(old(State()), MarkMessageRead(id), fault)
    {
      if fault != Never {
        return Err(Storage);
      }
      ghost var before := rows;
      if id in rows {
        rows := rows[id := rows[id].(unread := false)];
      }
      assert rows == map i | i in before :: if i == id then before[i].(unread := false) else before[i];
      return Ok(Done);
    }

    method MarkOneThreadRead(thread: string, fault: Fault) returns (r: Result<Reply, StoreError>)
      modifies this
      ensures (State(), r) == Perform(old(State()), MarkThreadRead(thread), fault)
    {
      if fault != Never {
        return Err(Storage);
      }
      rows := MarkRead(rows, (row: Row) => row.thread == thread);
      return Ok(Done);
    }

    /** `record_successful_sync_at`: keeps the recovery marker of an existing row. */
    method RecordSuccessfulSyncAt(millis: int, fault: Fault) returns (r: Result<Reply, StoreError>)
      modifies this
      ensures (State(), r) == Perform(old(State()), RecordSync(millis), fault)
    {
      if millis < 0 {
        return Err(Corrupted);
      }
      if fault != Never {
        return Err(Storage);
      }
      lifecycle := if lifecycle.Some? then Some(lifecycle.value.(freshness := Some(millis)))
                   else Some(Lifecycle(None, Some(millis)));
      return Ok(Done);
    }

    /** `update_recovery`: keeps the freshness of an existing row. */
    method UpdateRecovery(recovery: Option<Recovery>, fault: Fault) returns (r: Result<Reply, StoreError>)
      modifies this
      ensures (State(), r) == Perform(old(State()), SetRecovery(recovery), fault)
    {
      if fault != Never {
        return Err(Storage);
      }
      lifecycle := if lifecycle.Some? then Some(lifecycle.value.(recovery := recovery))
                   else Some(Lifecycle(recovery, None));
      return Ok(Done);
    }
  }

  // ----- Sticky reads and preserved bodies, over any sequence of transactions -----

  datatype Call = Call(tx: Tx, fault: Fault)

  function States(db: Db, calls: seq<Call>): (states: seq<Db>)
    ensures |states| == |calls| + 1 && states[0] == db
    decreases |calls|
  {
    if calls == [] then [db] else [db] + States(After(db, calls[0].tx, calls[0].fault), calls[1..])
  }

  /** The row is never deleted while the calls run. */
  ghost predicate StaysPresent(states: seq<Db>, id: string) {
    forall i :: 0 <= i < |states| ==> id in states[i].rows
  }

  /** Whether a call stores a body under `id`. */
  predicate WritesBody(tx: Tx, id: string) {
    (tx.Cache? || tx.Put?) && tx.message.id == id
  }

  lemma StepKeepsRow(db: Db, tx: Tx, fault: Fault, id: string)
    requires id in db.rows && id in After(db, tx, fault).rows
    ensures After(db, tx, fault).rows[id].unread ==> db.rows[id].unread
    ensures !WritesBody(tx, id) ==>
      After(db, tx, fault).rows[id].content == db.rows[id].content
  {
    match tx
    case Reconcile(envelopes, keep, fence) => UpsertAllClosedForm(db.rows, envelopes, id);
    case Upsert(envelopes) => UpsertAllClosedForm(db.rows, envelopes, id);
    case _ =>
  }

  /** A body write that takes effect stores that body under its id, and touches no other row. */
  lemma BodyWriteSetsOneRow(db: Db, tx: Tx, fault: Fault)
    requires tx.Cache? || tx.Put?
    ensures var (after, reply) := Perform(db, tx, fault);
      var id := tx.message.id;
      && (forall other :: other != id ==>
            (other in after.rows <==> other in db.rows)
            && (other in db.rows ==> after.rows[other] == db.rows[other]))
      && (reply == Ok(Done) || reply == Ok(Cached(true)) ==>
            id in after.rows && after.rows[id].content == Some(tx.content)
            && after.rows[id].thread == tx.message.thread && after.rows[id].headers == tx.message.headers
            && after.rows[id].receivedAt == tx.message.receivedAt
            && (after.rows[id].unread <==> tx.message.unread && (id in db.rows ==> db.rows[id].unread)))
      && (reply != Ok(Done) && reply != Ok(Cached(true)) ==> after == db)
  {
  }

  /**
   Main result: while a row is not deleted, no sequence of transactions turns it from read
   back to unread, and its body changes only by a body write to it.
   */
  lemma {:induction false} ReadsStickAndBodiesStay(db: Db, calls: seq<Call>, id: string)
    requires StaysPresent(States(db, calls), id)
    ensures var last := States(db, calls)[|calls|];
      (last.rows[id].unread ==> db.rows[id].unread)
      && ((forall i :: 0 <= i < |calls| ==> !WritesBody(calls[i].tx, id))
          ==> last.rows[id].content == db.rows[id].content)
    decreases |calls|
  {
    if calls != [] {
      var next := After(db, calls[0].tx, calls[0].fault);
      var states, rest := States(db, calls), States(next, calls[1..]);
      assert states[0] == db && rest[0] == next;
      assert forall i :: 0 <= i < |rest| ==> rest[i] == states[i + 1];
      assert id in states[0].rows && id in states[1].rows;
      StepKeepsRow(db, calls[0].tx, calls[0].fault, id);
      ReadsStickAndBodiesStay(next, calls[1..], id);
    }
  }
}
