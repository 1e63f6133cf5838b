/**
 Many gated sync cycles, purges and mark-reads over one store, interleaved transaction by
 transaction.  Each cycle runs the gate (adapters/sync-runtime/src/gate.rs) for the hash of
 its own session and then writes mail under the fence the gate returned.

 `owner` is history, not stored data: the hash of the session whose mail a row holds.
 `foreign` counts the identity commits others made since a cycle started.
 */
module GateProtocol {
  import opened Wrappers
  import opened Messages
  import opened Identity
  import opened MailboxStore
  import opened Gate

  datatype Pc =
    | Reading(attempt: nat)
    | Recording(attempt: nat, stored: Option<Hash>)
    | Syncing(fence: Hash)
    | Stopped(error: StoreError)

  datatype Cycle = Cycle(hash: Hash, pc: Pc, foreign: nat)

  datatype World = World(db: Db, owner: map<string, Hash>, cycles: map<nat, Cycle>)

  datatype Event =
    | Start(c: nat, hash: Hash)
    | Read(c: nat, fault: Fault)
    | Record(c: nat, fault: Fault)
    | SyncReconcile(c: nat, envelopes: seq<Envelope>, keep: nat, fault: Fault)
    | SyncCache(c: nat, message: Envelope, content: string, fault: Fault)
    | Outside(tx: Tx, fault: Fault)

  /** Transactions no cycle performs and no fence guards. */
  predicate IsOutside(tx: Tx) {
    tx.Purge? || tx.MarkMessageRead? || tx.MarkThreadRead? || tx.RecordSync? || tx.SetRecovery?
  }

  predicate Enabled(w: World, e: Event) {
    match e
    case Start(c, _) => c !in w.cycles
    case Read(c, _) => c in w.cycles && w.cycles[c].pc.Reading?
    case Record(c, _) => c in w.cycles && w.cycles[c].pc.Recording?
    case SyncReconcile(c, _, _, _) => c in w.cycles && w.cycles[c].pc.Syncing?
    case SyncCache(c, _, _, _) => c in w.cycles && w.cycles[c].pc.Syncing?
    case Outside(tx, _) => IsOutside(tx)
  }

  /** The transaction an event performs; starting and reading perform none. */
  function TxOf(w: World, e: Event): Option<Tx>
    requires Enabled(w, e)
  {
    match e
    case Start(_, _) => None
    case Read(_, _) => None
    case Record(c, _) =>
      var cycle := w.cycles[c];
      Some(RecordTx(cycle.pc.stored, cycle.hash))
    case SyncReconcile(c, envelopes, keep, _) => Some(Reconcile(envelopes, keep, w.cycles[c].pc.fence))
    case SyncCache(c, message, content, _) => Some(Cache(message, content, w.cycles[c].pc.fence))
    case Outside(tx, _) => Some(tx)
  }

  function Ids(envelopes: seq<Envelope>): set<string> {
    set i | 0 <= i < |envelopes| :: envelopes[i].id
  }

  /** The rows an event writes with the mail of its own session. */
  function Written(e: Event): set<string> {
    match e
    case SyncReconcile(_, envelopes, _, _) => Ids(envelopes)
    case SyncCache(_, message, _, _) => {message.id}
    case _ => {}
  }

  function NextPc(w: World, e: Event, reply: Result<Reply, StoreError>): Pc
    requires Enabled(w, e) && !e.Outside?
  {
    match e
    case Start(_, _) => Reading(0)
    case Read(c, fault) =>
      var cycle := w.cycles[c];
      if fault != Never then Stopped(Storage)
      else (match ReadIdentity(w.db.identity)
            case Err(error) => Stopped(error)
            case Ok(stored) =>
              if Decide(stored, cycle.hash) == Match then Syncing(cycle.hash)
              else Recording(cycle.pc.attempt, stored))
    case Record(c, _) =>
      var cycle := w.cycles[c];
      if reply.Ok? then Syncing(cycle.hash)
      else if reply.error != IdentityRaced then Stopped(reply.error)
      else if cycle.pc.attempt + 1 < MAX_GATE_ATTEMPTS then Reading(cycle.pc.attempt + 1)
      else Stopped(IdentityRaced)
    case _ => if reply.Ok? then w.cycles[e.c].pc else Stopped(reply.error)
  }

  function Next(w: World, e: Event): World
    requires Enabled(w, e)
  {
    var tx := TxOf(w, e);
    var (db, reply) := if tx.Some? then Perform(w.db, tx.value, e.fault) else (w.db, Ok(Done));
    var writer := if e.Outside? then "" else if e.Start? then e.hash else w.cycles[e.c].hash;
    var owner := map id | id in db.rows ::
      if reply.Ok? && id in Written(e) then writer
      else if id in w.owner then w.owner[id] else "";
    var others := map c | c in w.cycles ::
      if db.identity != w.db.identity && (e.Outside? || e.c != c)
      then w.cycles[c].(foreign := w.cycles[c].foreign + 1) else w.cycles[c];
    var cycles := if e.Outside? then others
      else if e.Start? then others[e.c := Cycle(e.hash, Reading(0), 0)]
      else others[e.c := w.cycles[e.c].(pc := NextPc(w, e, reply))];
    World(db, owner, cycles)
  }

  ghost predicate IsRun(w: World, events: seq<Event>)
    decreases |events|
  {
    events == [] || (Enabled(w, events[0]) && IsRun(Next(w, events[0]), events[1..]))
  }

  function Final(w: World, events: seq<Event>): World
    requires IsRun(w, events)
    decreases |events|
  {
    if events == [] then w else Final(Next(w, events[0]), events[1..])
  }

  /** A freshly created store, with no cycle yet. */
  const INITIAL := World(Db(map[], 0, NoRow, Some(Binding(None, None)), None), map[], map[])

  // ----- Isolation -----

  /** Every row holds mail of the account the recorded identity names. */
  ghost predicate Isolated(w: World) {
    && w.owner.Keys == w.db.rows.Keys
    && w.db.nullRows == 0
    && (forall id :: id in w.db.rows ==> ReadIdentity(w.db.identity) == Ok(Some(w.owner[id])))
  }

  /** A cycle past the gate writes under the hash of its own session. */
  ghost predicate FencesAreOwn(w: World) {
    forall c :: c in w.cycles && w.cycles[c].pc.Syncing? ==> w.cycles[c].pc.fence == w.cycles[c].hash
  }

  lemma StepKeepsIsolation(w: World, e: Event)
    requires Isolated(w) && FencesAreOwn(w) && Enabled(w, e)
    ensures Isolated(Next(w, e)) && FencesAreOwn(Next(w, e))
  {
    var tx := TxOf(w, e);
    if tx.Some? {
      TxKeepsIsolation(w, e, tx.value);
    }
    StepKeepsFences(w, e);
  }

  lemma StepKeepsFences(w: World, e: Event)
    requires FencesAreOwn(w) && Enabled(w, e)
    ensures FencesAreOwn(Next(w, e))
  {
    forall c | c in Next(w, e).cycles && Next(w, e).cycles[c].pc.Syncing?
      ensures Next(w, e).cycles[c].pc.fence == Next(w, e).cycles[c].hash
    {
      if e.Outside? || c != e.c {
        assert c in w.cycles && Next(w, e).cycles[c].pc == w.cycles[c].pc;
      }
    }
  }

  /** The heart of isolation: what one transaction of an event may do to the rows. */
  lemma TxKeepsIsolation(w: World, e: Event, tx: Tx)
    requires Isolated(w) && FencesAreOwn(w) && Enabled(w, e) && TxOf(w, e) == Some(tx)
    ensures var (db, reply) := Perform(w.db, tx, e.fault);
      && db.nullRows == 0
      && (reply.Err? ==> db == w.db)
      && (db.rows != map[] ==> db.identity == w.db.identity)
      && (forall id :: id in db.rows ==> id in w.db.rows || id in Written(e))
      && (db.rows != map[] && reply.Ok? && Written(e) != {} ==>
            ReadIdentity(db.identity) == Ok(Some(w.cycles[e.c].hash)))
  {
    match e
    case SyncReconcile(c, envelopes, keep, fault) =>
      forall id | id in UpsertAll(w.db.rows, envelopes)
        ensures id in w.db.rows || id in Ids(envelopes)
      {
        UpsertAllClosedForm(w.db.rows, envelopes, id);
      }
    case _ =>
  }

  /**
   Main result: in every interleaving, every message was written by a session of the account
   that is recorded now, and a store with no recorded identity holds no message.
   */
  lemma {:induction false} AccountsNeverMix(events: seq<Event>)
    requires IsRun(INITIAL, events)
    ensures var w := Final(INITIAL, events);
      Isolated(w) && (w.db.identity == NoRow ==> w.db.rows == map[])
  {
    RunKeepsIsolation(INITIAL, events);
  }

  lemma {:induction false} RunKeepsIsolation(w: World, events: seq<Event>)
    requires IsRun(w, events) && Isolated(w) && FencesAreOwn(w)
    ensures Isolated(Final(w, events)) && FencesAreOwn(Final(w, events))
    decreases |events|
  {
    if events != [] {
      StepKeepsIsolation(w, events[0]);
      RunKeepsIsolation(Next(w, events[0]), events[1..]);
    }
  }

  /** A cycle enters its sync only at an instant when its hash is the recorded identity. */
  lemma SyncStartsUnderRecordedIdentity(w: World, e: Event, c: nat)
    requires Enabled(w, e) && c in w.cycles && !w.cycles[c].pc.Syncing?
    requires Next(w, e).cycles[c].pc.Syncing?
    ensures Next(w, e).cycles[c].pc.fence == w.cycles[c].hash
    ensures ReadIdentity(Next(w, e).db.identity) == Ok(Some(w.cycles[c].hash))
  {
  }

  // ----- Convergence -----

  /** A cycle on its n-th retry has met n identity commits by others, one more if it will lose again. */
  ghost predicate RetriesArePaid(w: World) {
    forall c :: c in w.cycles ==> CyclePaid(w.cycles[c], w.db.identity)
  }

  predicate CyclePaid(cycle: Cycle, identity: IdentityRow) {
    match cycle.pc
    case Reading(n) => n <= cycle.foreign && n < MAX_GATE_ATTEMPTS
    case Recording(n, stored) =>
      n <= cycle.foreign && n < MAX_GATE_ATTEMPTS
      && (ReadIdentity(identity).Ok? && ReadIdentity(identity) != Ok(stored) ==> n + 1 <= cycle.foreign)
    case Stopped(IdentityRaced) => MAX_GATE_ATTEMPTS <= cycle.foreign
    case _ => true
  }

  lemma StepKeepsRetriesPaid(w: World, e: Event)
    requires RetriesArePaid(w) && Enabled(w, e)
    ensures RetriesArePaid(Next(w, e))
  {
    forall c | c in Next(w, e).cycles
      ensures CyclePaid(Next(w, e).cycles[c], Next(w, e).db.identity)
    {
      if e.Outside? || c != e.c {
        assert CyclePaid(w.cycles[c], w.db.identity);
      } else {
        OwnStepPaid(w, e);
      }
    }
  }

  /** The cycle that moves: a lost record uses up the commit that beat it. */
  lemma OwnStepPaid(w: World, e: Event)
    requires RetriesArePaid(w) && Enabled(w, e) && !e.Outside?
    ensures CyclePaid(Next(w, e).cycles[e.c], Next(w, e).db.identity)
  {
    if !e.Start? {
      assert CyclePaid(w.cycles[e.c], w.db.identity);
    }
  }

  lemma {:induction false} RunKeepsRetriesPaid(w: World, events: seq<Event>)
    requires IsRun(w, events) && RetriesArePaid(w)
    ensures RetriesArePaid(Final(w, events))
    decreases |events|
  {
    if events != [] {
      StepKeepsRetriesPaid(w, events[0]);
      RunKeepsRetriesPaid(Next(w, events[0]), events[1..]);
    }
  }

  /** Main result: a cycle gives up on races only after four identity commits by others. */
  lemma GivingUpTakesFourCommits(events: seq<Event>, c: nat)
    requires IsRun(INITIAL, events)
    requires c in Final(INITIAL, events).cycles
    requires Final(INITIAL, events).cycles[c].pc == Stopped(IdentityRaced)
    ensures Final(INITIAL, events).cycles[c].foreign >= 4
  {
    RunKeepsRetriesPaid(INITIAL, events);
  }

  // ----- Failing closed -----

  predicate IsPurge(e: Event) {
    e.Outside? && e.tx.Purge?
  }

  /**
   Main result: from an unreadable identity, cycles change nothing in the database, and
   whatever else runs leaves the identity as it is until a purge.
   */
  lemma {:induction false} UnreadableIdentityFailsClosed(w: World, events: seq<Event>)
    requires IsRun(w, events) && ReadIdentity(w.db.identity).Err?
    requires forall i :: 0 <= i < |events| ==> !IsPurge(events[i])
    ensures Final(w, events).db.identity == w.db.identity
    ensures (forall i :: 0 <= i < |events| ==> !events[i].Outside?) ==> Final(w, events).db == w.db
    decreases |events|
  {
    if events != [] {
      var next := Next(w, events[0]);
      assert next.db.identity == w.db.identity && (!events[0].Outside? ==> next.db == w.db);
      UnreadableIdentityFailsClosed(next, events[1..]);
    }
  }

  /** The purge does leave that state, whenever the binding row is intact. */
  lemma PurgeRecovers(w: World)
    requires w.db.binding.Some?
    ensures ReadIdentity(Next(w, Outside(Purge, Never)).db.identity) == Ok(None)
    ensures Next(w, Outside(Purge, Never)).db.rows == map[]
  {
  }
}
