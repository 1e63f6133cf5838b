/**
 What each mailbox transaction commits and answers, stated field by field over `Perform` and
 without the step functions: exactly when it succeeds, what the new database holds, and that
 a failure of any kind changes nothing.
 */
module MailboxOutcomes {
  import opened Wrappers
  import opened Messages
  import opened Identity
  import opened MailboxStore

  /** The recorded identity is readable and is this hash. */
  predicate Records(db: Db, hash: Hash) {
    db.identity == IdentityRow(Some(hash), Some(2))
  }

  /** Why a fenced write is refused: the identity is unreadable, or it is not the fence. */
  function FenceError(row: IdentityRow): StoreError {
    if row.IdentityRow? && (row.hash.None? || row.version != Some(2)) then Corrupted else IdentityChanged
  }

  // ----- Faults -----

  /** A transaction in which a statement fails, like one that is refused, commits nothing. */
  lemma FailuresChangeNothing(db: Db, tx: Tx, fault: Fault)
    ensures var (after, reply) := Perform(db, tx, fault);
      && (reply.Err? ==> after == db)
      && (fault != Never ==> reply.Err?)
      && (fault == BeforeCheck && !(tx.RecordSync? && tx.millis < 0) ==> reply == Err(Storage))
      && (fault == AfterCheck ==>
            reply == if Perform(db, tx, Never).1.Ok? then Err(Storage) else Perform(db, tx, Never).1)
  {
  }

  // ----- Reconcile -----

  /** The row a reconciled batch must leave under `id`. */
  ghost function Expected(db: Db, envelopes: seq<Envelope>, id: string): Row
    requires id in db.rows || Mentions(envelopes, id)
  {
    if Mentions(envelopes, id) then RowAfter(db.rows, envelopes, id) else db.rows[id]
  }

  function ReconcileError(db: Db, envelopes: seq<Envelope>): StoreError {
    if |envelopes| > 10_000 then Storage else if db.nullRows > 0 then Corrupted else FenceError(db.identity)
  }

  /** A reconcile succeeds exactly within its limit, without null ids, under the recorded fence. */
  lemma ReconcileSucceedsExactly(db: Db, envelopes: seq<Envelope>, keep: nat, fence: Hash)
    ensures var (after, reply) := Perform(db, Reconcile(envelopes, keep, fence), Never);
      && (reply.Ok? <==> |envelopes| <= 10_000 && db.nullRows == 0 && Records(db, fence))
      && (reply.Err? ==> after == db && reply.error == ReconcileError(db, envelopes))
  {
    ReadingFailsClosed(db.identity);
  }

  /**
   Main result: a reconcile that succeeds leaves exactly the first `keep` rows of the listing
   of the batch over the old table, each with the fields it must have, changes nothing else,
   and answers the distinct batch ids still present in first-occurrence order.
   */
  lemma ReconcileCommits(db: Db, envelopes: seq<Envelope>, keep: nat, fence: Hash, ids: seq<string>)
    requires Perform(db, Reconcile(envelopes, keep, fence), Never).1.Ok?
    requires IsListing(UpsertAll(db.rows, envelopes), ids)
    ensures var (after, reply) := Perform(db, Reconcile(envelopes, keep, fence), Never);
      && after == db.(rows := after.rows)
      && (forall id :: id in after.rows <==> id in ids[..if keep < |ids| then keep else |ids|])
      && (forall id :: id in after.rows ==>
            (id in db.rows || Mentions(envelopes, id)) && after.rows[id] == Expected(db, envelopes, id))
      && reply.value.Kept?
      && (forall id :: id in reply.value.survivors <==> Mentions(envelopes, id) && id in after.rows)
      && (forall i, j :: 0 <= i < j < |reply.value.survivors| ==>
            FirstOccurrence(envelopes, reply.value.survivors[i]) < FirstOccurrence(envelopes, reply.value.survivors[j]))
  {
    var rows := UpsertAll(db.rows, envelopes);
    PruneKeepsTheFirst(rows, keep, ids);
    SurvivorsSpec(envelopes, Prune(rows, keep), {});
    forall id | id in Prune(rows, keep)
      ensures (id in db.rows || Mentions(envelopes, id)) && rows[id] == Expected(db, envelopes, id)
    {
      UpsertAllClosedForm(db.rows, envelopes, id);
    }
  }

  /** The listing that `ReconcileCommits` speaks of is one of the expected rows, and exists. */
  lemma ReconciledListing(db: Db, envelopes: seq<Envelope>) returns (ids: seq<string>)
    ensures IsListing(UpsertAll(db.rows, envelopes), ids)
    ensures forall id :: id in ids <==> id in db.rows || Mentions(envelopes, id)
    ensures forall i :: 0 <= i < |ids| ==> UpsertAll(db.rows, envelopes)[ids[i]] == Expected(db, envelopes, ids[i])
  {
    ids := ListingExists(UpsertAll(db.rows, envelopes));
    forall id
      ensures id in ids <==> id in db.rows || Mentions(envelopes, id)
      ensures id in ids ==> UpsertAll(db.rows, envelopes)[id] == Expected(db, envelopes, id)
    {
      UpsertAllClosedForm(db.rows, envelopes, id);
    }
  }

  // ----- The other writes of mail -----

  /** An upsert always commits, the whole batch and nothing else. */
  lemma UpsertCommits(db: Db, envelopes: seq<Envelope>)
    ensures var (after, reply) := Perform(db, Upsert(envelopes), Never);
      && reply == Ok(Done) && after == db.(rows := after.rows)
      && (forall id :: id in after.rows <==> id in db.rows || Mentions(envelopes, id))
      && (forall id :: id in after.rows ==> after.rows[id] == Expected(db, envelopes, id))
  {
    forall id
      ensures id in UpsertAll(db.rows, envelopes) <==> id in db.rows || Mentions(envelopes, id)
      ensures id in UpsertAll(db.rows, envelopes) ==>
        UpsertAll(db.rows, envelopes)[id] == Expected(db, envelopes, id)
    {
      UpsertAllClosedForm(db.rows, envelopes, id);
    }
  }

  /** A body is cached exactly under the recorded fence, and only over a present row. */
  lemma CacheSucceedsExactly(db: Db, message: Envelope, content: string, fence: Hash)
    ensures var (after, reply) := Perform(db, Cache(message, content, fence), Never);
      && (reply.Ok? <==> Records(db, fence))
      && (reply.Ok? ==> reply == Ok(Cached(message.id in db.rows)) && after == db.(rows := after.rows))
      && (reply.Ok? && message.id !in db.rows ==> after == db)
      && (reply.Err? ==> reply.error == FenceError(db.identity))
  {
    ReadingFailsClosed(db.identity);
  }

  /** A put always commits and touches the rows only; `BodyWriteSetsOneRow` says which. */
  lemma PutCommits(db: Db, message: Envelope, content: string)
    ensures var (after, reply) := Perform(db, Put(message, content), Never);
      reply == Ok(Done) && after == db.(rows := after.rows) && message.id in after.rows
  {
  }

  // ----- Read marks -----

  /** One read mark clears one flag. */
  lemma MarkMessageCommits(db: Db, id: string)
    ensures var (after, reply) := Perform(db, MarkMessageRead(id), Never);
      && reply == Ok(Done) && after == db.(rows := after.rows) && after.rows.Keys == db.rows.Keys
      && (forall other :: other in db.rows && other != id ==> after.rows[other] == db.rows[other])
      && (id in db.rows ==> !after.rows[id].unread && after.rows[id].(unread := db.rows[id].unread) == db.rows[id])
  {
  }

  /** A thread's read mark clears the flags of that thread. */
  lemma MarkThreadCommits(db: Db, thread: string)
    ensures var (after, reply) := Perform(db, MarkThreadRead(thread), Never);
      && reply == Ok(Done) && after == db.(rows := after.rows) && after.rows.Keys == db.rows.Keys
      && (forall id :: id in db.rows && db.rows[id].thread != thread ==> after.rows[id] == db.rows[id])
      && (forall id :: id in db.rows && db.rows[id].thread == thread ==>
            !after.rows[id].unread && after.rows[id].(unread := db.rows[id].unread) == db.rows[id])
  {
  }

  // ----- Purge and lifecycle -----

  /** The two lifecycle fields; a missing row reads as neither. */
  function RecoveryOf(db: Db): Option<Recovery> {
    if db.lifecycle.Some? then db.lifecycle.value.recovery else None
  }

  function FreshnessOf(db: Db): Option<int> {
    if db.lifecycle.Some? then db.lifecycle.value.freshness else None
  }

  /** A purge needs the binding row, and leaves nothing of the account but the recovery marker. */
  lemma PurgeCommits(db: Db)
    ensures var (after, reply) := Perform(db, Purge, Never);
      && (reply == Ok(Done) <==> db.binding.Some?)
      && (db.binding.None? ==> reply == Err(Corrupted) && after == db)
      && (db.binding.Some? ==>
            after.rows == map[] && after.nullRows == 0 && after.identity == NoRow
            && after.binding == Some(Binding(None, None))
            && FreshnessOf(after) == None && RecoveryOf(after) == RecoveryOf(db))
  {
  }

  /** A recorded sync sets the freshness alone, and is refused for negative times. */
  lemma SyncIsRecorded(db: Db, millis: int)
    ensures var (after, reply) := Perform(db, RecordSync(millis), Never);
      && (millis < 0 ==> reply == Err(Corrupted) && after == db)
      && (millis >= 0 ==>
            reply == Ok(Done) && after == db.(lifecycle := after.lifecycle)
            && FreshnessOf(after) == Some(millis) && RecoveryOf(after) == RecoveryOf(db))
  {
  }

  /** A recovery marker is set alone. */
  lemma RecoveryIsRecorded(db: Db, recovery: Option<Recovery>)
    ensures var (after, reply) := Perform(db, SetRecovery(recovery), Never);
      && reply == Ok(Done) && after == db.(lifecycle := after.lifecycle)
      && RecoveryOf(after) == recovery && FreshnessOf(after) == FreshnessOf(db)
  {
  }
}
