/**
 The gate's method is a cycle of the protocol: a run of `GateOver` whose foreign transactions
 are those of protocol events is itself a protocol run, with the same database at its end and
 the same outcome for its cycle.  What holds over every protocol run holds of the method.
 */
module GateRefinement {
  import opened Wrappers
  import opened Messages
  import opened Identity
  import opened MailboxStore
  import opened Gate
  import opened GateProtocol

  /** What others do before a read and before a record of the gate, and the faults of these two. */
  datatype Lead = Lead(read: seq<Event>, readFault: Fault, record: seq<Event>, recordFault: Fault)

  /** None of the events is one of the cycle's own. */
  predicate Others(events: seq<Event>, c: nat) {
    forall i :: 0 <= i < |events| ==> events[i].Outside? || events[i].c != c
  }

  /** The transactions of the events, for the gate's view of them. */
  function CallsOf(w: World, events: seq<Event>): seq<Call>
    requires IsRun(w, events)
    decreases |events|
  {
    if events == [] then []
    else
      var rest := CallsOf(Next(w, events[0]), events[1..]);
      match TxOf(w, events[0])
      case None => rest
      case Some(tx) => [Call(tx, events[0].fault)] + rest
  }

  /** The same but for the count of foreign commits. */
  predicate SameCycle(w: World, v: World, c: nat) {
    c in w.cycles && c in v.cycles && v.cycles[c].hash == w.cycles[c].hash && v.cycles[c].pc == w.cycles[c].pc
  }

  /** Events of others move the database as their transactions do, and leave the cycle where it is. */
  lemma {:induction false} OthersRun(w: World, events: seq<Event>, c: nat)
    requires IsRun(w, events) && Others(events, c) && c in w.cycles
    ensures Final(w, events).db == RunAll(w.db, CallsOf(w, events))
    ensures SameCycle(w, Final(w, events), c)
    decreases |events|
  {
    if events != [] {
      var e := events[0];
      OtherStep(w, e, c);
      OthersRun(Next(w, e), events[1..], c);
      match TxOf(w, e) {
        case None =>
        case Some(tx) =>
          var rest := CallsOf(Next(w, e), events[1..]);
          assert ([Call(tx, e.fault)] + rest)[1..] == rest;
      }
    }
  }

  lemma OtherStep(w: World, e: Event, c: nat)
    requires Enabled(w, e) && (e.Outside? || e.c != c) && c in w.cycles
    ensures SameCycle(w, Next(w, e), c)
    ensures Next(w, e).db == match TxOf(w, e)
      case None => w.db
      case Some(tx) => After(w.db, tx, e.fault)
  {
  }

  // ----- One try -----

  /** The world at the read, after it, and at the record of a try of cycle `c`. */
  function AtRead(w: World, lead: Lead): World
    requires IsRun(w, lead.read)
  {
    Final(w, lead.read)
  }

  /** The leads fit the worlds they meet, and are the work of others. */
  ghost predicate IsTry(w: World, c: nat, lead: Lead) {
    && c in w.cycles && w.cycles[c].pc.Reading? && IsRun(w, lead.read) && Others(lead.read, c)
    && Enabled(AtRead(w, lead), Read(c, lead.readFault))
    && var read := Next(AtRead(w, lead), Read(c, lead.readFault));
       Others(lead.record, c) && IsRun(read, lead.record)
  }

  function HasRead(w: World, c: nat, lead: Lead): World
    requires IsTry(w, c, lead)
  {
    Next(AtRead(w, lead), Read(c, lead.readFault))
  }

  predicate Records(w: World, c: nat, lead: Lead)
    requires IsTry(w, c, lead)
  {
    c in HasRead(w, c, lead).cycles && HasRead(w, c, lead).cycles[c].pc.Recording?
  }

  function RoundOf(w: World, c: nat, lead: Lead): Round
    requires IsTry(w, c, lead)
  {
    Round(Slot(CallsOf(w, lead.read), lead.readFault),
          Slot(CallsOf(HasRead(w, c, lead), lead.record), lead.recordFault))
  }

  /** The protocol's events for one try; the record happens only if the read asks for it. */
  function TryEvents(w: World, c: nat, lead: Lead): seq<Event>
    requires IsTry(w, c, lead)
  {
    lead.read + ([Read(c, lead.readFault)]
                 + (if Records(w, c, lead) then lead.record + [Record(c, lead.recordFault)] else []))
  }

  lemma RunOne(w: World, e: Event)
    requires Enabled(w, e)
    ensures IsRun(w, [e]) && Final(w, [e]) == Next(w, e)
  {
    assert [e][1..] == [];
  }

  lemma {:induction false} RunAppend(w: World, first: seq<Event>, second: seq<Event>)
    requires IsRun(w, first) && IsRun(Final(w, first), second)
    ensures IsRun(w, first + second) && Final(w, first + second) == Final(Final(w, first), second)
    decreases |first|
  {
    if first == [] {
      assert first + second == second;
    } else {
      RunAppend(Next(w, first[0]), first[1..], second);
      assert (first + second)[1..] == first[1..] + second;
    }
  }

  /** The world after a try. */
  function AfterTry(w: World, c: nat, lead: Lead): World
    requires IsTry(w, c, lead)
  {
    var read := HasRead(w, c, lead);
    if !Records(w, c, lead) then read
    else if Enabled(Final(read, lead.record), Record(c, lead.recordFault)) then
      Next(Final(read, lead.record), Record(c, lead.recordFault))
    else read
  }

  lemma TryIsRun(w: World, c: nat, lead: Lead)
    requires IsTry(w, c, lead)
    ensures IsRun(w, TryEvents(w, c, lead)) && Final(w, TryEvents(w, c, lead)) == AfterTry(w, c, lead)
  {
    var at, read := AtRead(w, lead), HasRead(w, c, lead);
    var event := Read(c, lead.readFault);
    RunOne(at, event);
    if Records(w, c, lead) {
      OthersRun(read, lead.record, c);
      var last := Record(c, lead.recordFault);
      RunOne(Final(read, lead.record), last);
      RunAppend(read, lead.record, [last]);
      RunAppend(at, [event], lead.record + [last]);
      RunAppend(w, lead.read, [event] + (lead.record + [last]));
    } else {
      assert [event] + [] == [event];
      RunAppend(w, lead.read, [event]);
    }
  }

  /** Where the cycle stands after a try with this answer. */
  function PcAfter(attempt: nat, answer: Option<Result<Hash, GateError>>): Pc {
    match answer
    case None => if attempt + 1 < MAX_GATE_ATTEMPTS then Reading(attempt + 1) else Stopped(IdentityRaced)
    case Some(Ok(hash)) => Syncing(hash)
    case Some(Err(StoreFailed(error))) => Stopped(error)
    case Some(Err(HasherFailed)) => Reading(attempt)
  }

  /** The read of a try, in the protocol. */
  lemma ReadStep(w: World, c: nat, fault: Fault)
    requires Enabled(w, Read(c, fault))
    ensures var v := Next(w, Read(c, fault));
      var hash, attempt := w.cycles[c].hash, w.cycles[c].pc.attempt;
      && v.db == w.db && c in v.cycles && v.cycles[c].hash == hash
      && v.cycles[c].pc ==
           if fault != Never then Stopped(Storage)
           else match ReadIdentity(w.db.identity)
             case Err(error) => Stopped(error)
             case Ok(stored) => if stored == Some(hash) then Syncing(hash) else Recording(attempt, stored)
  {
  }

  /** The record of a try, in the protocol. */
  lemma RecordStep(w: World, c: nat, fault: Fault)
    requires Enabled(w, Record(c, fault))
    ensures var v := Next(w, Record(c, fault));
      var cycle := w.cycles[c];
      var (db, reply) := Perform(w.db, RecordTx(cycle.pc.stored, cycle.hash), fault);
      && v.db == db && c in v.cycles && v.cycles[c].hash == cycle.hash
      && v.cycles[c].pc == PcAfter(cycle.pc.attempt,
           if reply.Ok? then Some(Ok(cycle.hash))
           else if reply.error == IdentityRaced then None
           else Some(Err(StoreFailed(reply.error))))
  {
  }

  /** One try of the method is one try of the protocol. */
  lemma TryRefines(w: World, c: nat, lead: Lead)
    requires IsTry(w, c, lead)
    ensures var (db, answer) := Try(w.db, w.cycles[c].hash, RoundOf(w, c, lead));
      var v := AfterTry(w, c, lead);
      && v.db == db && c in v.cycles && v.cycles[c].hash == w.cycles[c].hash
      && v.cycles[c].pc == PcAfter(w.cycles[c].pc.attempt, answer)
  {
    var at, read := AtRead(w, lead), HasRead(w, c, lead);
    OthersRun(w, lead.read, c);
    ReadStep(at, c, lead.readFault);
    OthersRun(read, lead.record, c);
    if Records(w, c, lead) {
      RecordStep(Final(read, lead.record), c, lead.recordFault);
    }
  }

  // ----- The whole gate -----

  /** The leads of all tries; those after the last try are not used. */
  ghost predicate IsGate(w: World, c: nat, leads: seq<Lead>)
    decreases |leads|
  {
    c in w.cycles
    && (leads != [] && w.cycles[c].pc.Reading? ==>
          IsTry(w, c, leads[0]) && IsGate(AfterTry(w, c, leads[0]), c, leads[1..]))
  }

  function RoundsOf(w: World, c: nat, leads: seq<Lead>): seq<Round>
    requires IsGate(w, c, leads)
    decreases |leads|
  {
    if leads == [] then []
    else if w.cycles[c].pc.Reading? then
      [RoundOf(w, c, leads[0])] + RoundsOf(AfterTry(w, c, leads[0]), c, leads[1..])
    else seq(|leads|, _ => Round(Slot([], Never), Slot([], Never)))
  }

  function GateEvents(w: World, c: nat, leads: seq<Lead>): seq<Event>
    requires IsGate(w, c, leads)
    decreases |leads|
  {
    if leads == [] || !w.cycles[c].pc.Reading? then []
    else TryEvents(w, c, leads[0]) + GateEvents(AfterTry(w, c, leads[0]), c, leads[1..])
  }

  /** A gate that nobody interferes with is one of these, whatever fails in it. */
  lemma {:induction false} QuietGate(w: World, c: nat, leads: seq<Lead>)
    requires c in w.cycles && forall i :: 0 <= i < |leads| ==> leads[i].read == leads[i].record == []
    ensures IsGate(w, c, leads)
    decreases |leads|
  {
    if leads != [] && w.cycles[c].pc.Reading? {
      assert leads[0].read == [];
      TryRefines(w, c, leads[0]);
      QuietGate(AfterTry(w, c, leads[0]), c, leads[1..]);
    }
  }

  /** The outcome of the gate, as its cycle's program counter. */
  function OutcomePc(r: Result<Hash, GateError>): Pc {
    match r
    case Ok(hash) => Syncing(hash)
    case Err(StoreFailed(error)) => Stopped(error)
    case Err(HasherFailed) => Reading(0)
  }

  /** How the gate's answer follows from its first try. */
  lemma GateUnfolds(db: Db, hash: Hash, rounds: seq<Round>)
    requires rounds != []
    ensures var (after, answer) := Try(db, hash, rounds[0]);
      && answer != Some(Err(HasherFailed))
      && (answer.Some? ==> GateOver(db, hash, rounds) == (after, answer.value))
      && (answer.None? ==> GateOver(db, hash, rounds) == GateOver(after, hash, rounds[1..]))
      && (answer.None? && |rounds| == 1 ==> GateOver(db, hash, rounds) == (after, Err(StoreFailed(IdentityRaced))))
  {
  }

  /** How the rounds and the events of a gate follow from its first try. */
  lemma LeadsUnfold(w: World, c: nat, leads: seq<Lead>)
    requires IsGate(w, c, leads) && w.cycles[c].pc.Reading? && leads != []
    ensures var next := AfterTry(w, c, leads[0]);
      var rounds := RoundsOf(w, c, leads);
      && IsGate(next, c, leads[1..])
      && |rounds| == 1 + |RoundsOf(next, c, leads[1..])|
      && rounds[0] == RoundOf(w, c, leads[0]) && rounds[1..] == RoundsOf(next, c, leads[1..])
      && GateEvents(w, c, leads) == TryEvents(w, c, leads[0]) + GateEvents(next, c, leads[1..])
      && (leads[1..] == [] || !next.cycles[c].pc.Reading? ==> GateEvents(next, c, leads[1..]) == [])
  {
  }

  lemma {:induction false} AsManyRounds(w: World, c: nat, leads: seq<Lead>)
    requires IsGate(w, c, leads)
    ensures |RoundsOf(w, c, leads)| == |leads|
    decreases |leads|
  {
    if leads != [] && w.cycles[c].pc.Reading? {
      AsManyRounds(AfterTry(w, c, leads[0]), c, leads[1..]);
    }
  }

  /** The gate's outcome and its run, joined. */
  ghost predicate Matches(w: World, c: nat, leads: seq<Lead>)
    requires IsGate(w, c, leads)
  {
    && IsRun(w, GateEvents(w, c, leads))
    && var (db, r) := GateOver(w.db, w.cycles[c].hash, RoundsOf(w, c, leads));
       var v := Final(w, GateEvents(w, c, leads));
       v.db == db && c in v.cycles && v.cycles[c].pc == OutcomePc(r) && v.cycles[c].hash == w.cycles[c].hash
  }

  /** The events of the gate when no try follows the first. */
  lemma OneTryRuns(w: World, c: nat, leads: seq<Lead>)
    requires IsGate(w, c, leads) && w.cycles[c].pc.Reading? && leads != []
    requires leads[1..] == [] || !AfterTry(w, c, leads[0]).cycles[c].pc.Reading?
    ensures IsRun(w, GateEvents(w, c, leads)) && Final(w, GateEvents(w, c, leads)) == AfterTry(w, c, leads[0])
  {
    TryIsRun(w, c, leads[0]);
    LeadsUnfold(w, c, leads);
    assert TryEvents(w, c, leads[0]) + [] == TryEvents(w, c, leads[0]);
  }

  /** The gate's answer when its first try gives one, or was the only one left. */
  lemma OneTryAnswers(w: World, c: nat, leads: seq<Lead>)
    requires IsGate(w, c, leads) && w.cycles[c].pc.Reading? && leads != []
    requires Try(w.db, w.cycles[c].hash, RoundOf(w, c, leads[0])).1.Some?
             || (|leads| == 1 && w.cycles[c].pc.attempt + 1 == MAX_GATE_ATTEMPTS)
    ensures var (after, answer) := Try(w.db, w.cycles[c].hash, RoundOf(w, c, leads[0]));
      var (db, r) := GateOver(w.db, w.cycles[c].hash, RoundsOf(w, c, leads));
      db == after && OutcomePc(r) == PcAfter(w.cycles[c].pc.attempt, answer) && !OutcomePc(r).Reading?
  {
    LeadsUnfold(w, c, leads);
    AsManyRounds(w, c, leads);
    GateUnfolds(w.db, w.cycles[c].hash, RoundsOf(w, c, leads));
  }

  /** A try after which no other follows decides the gate. */
  lemma LastTryMatches(w: World, c: nat, leads: seq<Lead>)
    requires IsGate(w, c, leads) && w.cycles[c].pc.Reading? && leads != []
    requires Try(w.db, w.cycles[c].hash, RoundOf(w, c, leads[0])).1.Some?
             || (|leads| == 1 && w.cycles[c].pc.attempt + 1 == MAX_GATE_ATTEMPTS)
    ensures Matches(w, c, leads)
  {
    TryRefines(w, c, leads[0]);
    OneTryAnswers(w, c, leads);
    OneTryRuns(w, c, leads);
  }

  /** A lost try before the last leaves the rest of the gate to decide. */
  lemma LostTryMatches(w: World, c: nat, leads: seq<Lead>)
    requires IsGate(w, c, leads) && w.cycles[c].pc.Reading? && leads != []
    requires Try(w.db, w.cycles[c].hash, RoundOf(w, c, leads[0])).1.None?
    requires IsGate(AfterTry(w, c, leads[0]), c, leads[1..]) && Matches(AfterTry(w, c, leads[0]), c, leads[1..])
    ensures Matches(w, c, leads)
  {
    var next := AfterTry(w, c, leads[0]);
    TryRefines(w, c, leads[0]);
    TryIsRun(w, c, leads[0]);
    LeadsUnfold(w, c, leads);
    GateUnfolds(w.db, w.cycles[c].hash, RoundsOf(w, c, leads));
    RunAppend(w, TryEvents(w, c, leads[0]), GateEvents(next, c, leads[1..]));
  }

  /**
   Main result: the gate with all its tries left is a run of the protocol with the same final
   database, and its cycle ends in its sync, or stopped, exactly as the gate answers.
   */
  lemma {:induction false} GateIsProtocolRun(w: World, c: nat, leads: seq<Lead>)
    requires IsGate(w, c, leads) && w.cycles[c].pc.Reading?
    requires w.cycles[c].pc.attempt + |leads| == MAX_GATE_ATTEMPTS && leads != []
    ensures |RoundsOf(w, c, leads)| == |leads| && Matches(w, c, leads)
    decreases |leads|
  {
    AsManyRounds(w, c, leads);
    if Try(w.db, w.cycles[c].hash, RoundOf(w, c, leads[0])).1.Some? || |leads| == 1 {
      LastTryMatches(w, c, leads);
    } else {
      TryRefines(w, c, leads[0]);
      GateIsProtocolRun(AfterTry(w, c, leads[0]), c, leads[1..]);
      LostTryMatches(w, c, leads);
    }
  }

  /**
   Main result: from any state of the protocol, the database the gate's method leaves holds
   mail of the recorded account only, and none without a recorded identity.
   */
  lemma GateKeepsAccountsApart(before: seq<Event>, c: nat, leads: seq<Lead>)
    requires IsRun(INITIAL, before)
    requires var w := Final(INITIAL, before);
      IsGate(w, c, leads) && w.cycles[c].pc == Reading(0) && |leads| == 4
    ensures var w := Final(INITIAL, before);
      var db := GateOver(w.db, w.cycles[c].hash, RoundsOf(w, c, leads)).0;
      exists v: World :: v.db == db && Isolated(v) && (db.identity == NoRow ==> db.rows == map[])
  {
    var w := Final(INITIAL, before);
    GateIsProtocolRun(w, c, leads);
    RunAppend(INITIAL, before, GateEvents(w, c, leads));
    AccountsNeverMix(before + GateEvents(w, c, leads));
  }
}
