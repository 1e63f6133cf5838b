/**
 The `messages` table of adapters/store-sqlcipher/src/lib.rs: the upsert of one envelope,
 the order of the mailbox listing, the prune to the first K rows, and what a reconcile
 (upsert a batch, prune, report the survivors) does to the table.
 */
module Messages {
  import opened Wrappers
  import opened Sets

  datatype Headers = Headers(from: string, subject: string, preview: string)

  datatype Envelope = Envelope(id: string, thread: string, headers: Headers, receivedAt: int, unread: bool)

  datatype Row = Row(thread: string, headers: Headers, receivedAt: int, unread: bool, content: Option<string>)

  type Table = map<string, Row>

  // ----- One envelope -----

  /**
   `write_envelope`: insert, or update on conflict.  An update without content keeps the
   stored content, and a row already read stays read.
   */
  function WriteEnvelope(table: Table, envelope: Envelope, content: Option<string>): Table {
    var id := envelope.id;
    if id in table then
      table[id := Row(envelope.thread, envelope.headers, envelope.receivedAt,
                      table[id].unread && envelope.unread,
                      if content.Some? then content else table[id].content)]
    else
      table[id := Row(envelope.thread, envelope.headers, envelope.receivedAt, envelope.unread, content)]
  }

  function UpsertAll(table: Table, envelopes: seq<Envelope>): Table
    decreases |envelopes|
  {
    if envelopes == [] then table
    else UpsertAll(WriteEnvelope(table, envelopes[0], None), envelopes[1..])
  }

  // ----- The listing order: received_at DESC, message_id ASC -----

  predicate Less(a: string, b: string) {
    b != [] && (a == [] || a[0] < b[0] || (a[0] == b[0] && Less(a[1..], b[1..])))
  }

  lemma {:induction false} LessIsTotal(a: string, b: string)
    ensures !(Less(a, b) && Less(b, a))
    ensures a != b ==> Less(a, b) || Less(b, a)
    ensures !Less(a, a)
  {
    if a != [] {
      if b != [] {
        LessIsTotal(a[1..], b[1..]);
        assert a == [a[0]] + a[1..] && b == [b[0]] + b[1..];
      } else {
        LessIsTotal(a[1..], a[1..]);
      }
    }
  }

  lemma {:induction false} LessIsTransitive(a: string, b: string, c: string)
    requires Less(a, b) && Less(b, c)
    ensures Less(a, c)
  {
    if a != [] && a[0] == b[0] == c[0] {
      LessIsTransitive(a[1..], b[1..], c[1..]);
    }
  }

  predicate Precedes(table: Table, a: string, b: string)
    requires a in table && b in table
  {
    table[a].receivedAt > table[b].receivedAt
    || (table[a].receivedAt == table[b].receivedAt && Less(a, b))
  }

  lemma PrecedesIsTotal(table: Table, a: string, b: string)
    requires a in table && b in table
    ensures !(Precedes(table, a, b) && Precedes(table, b, a))
    ensures a != b ==> Precedes(table, a, b) || Precedes(table, b, a)
  {
    LessIsTotal(a, b);
  }

  lemma PrecedesIsTransitive(table: Table, a: string, b: string, c: string)
    requires a in table && b in table && c in table
    requires Precedes(table, a, b) && Precedes(table, b, c)
    ensures Precedes(table, a, c)
  {
    if table[a].receivedAt == table[b].receivedAt == table[c].receivedAt {
      LessIsTransitive(a, b, c);
    }
  }

  /** `ids` is what an unlimited `ORDER BY received_at DESC, message_id ASC` returns. */
  ghost predicate IsListing(table: Table, ids: seq<string>) {
    && (forall id :: id in table <==> id in ids)
    && (forall i, j :: 0 <= i < j < |ids| ==> Precedes(table, ids[i], ids[j]))
  }

  // ----- The prune -----

  function Above(table: Table, id: string): set<string>
    requires id in table
  {
    set other | other in table && Precedes(table, other, id)
  }

  /** `DELETE ... NOT IN (SELECT ... ORDER BY ... LIMIT k)`: rows outranked by k others go. */
  function Prune(table: Table, k: nat): Table {
    map id | id in table && |Above(table, id)| < k :: table[id]
  }

  // ----- Reconcile -----

  function Reconciled(table: Table, envelopes: seq<Envelope>, k: nat): Table {
    Prune(UpsertAll(table, envelopes), k)
  }

  /** The survivor loop: skip ids already seen, keep those the table still holds. */
  function Survivors(envelopes: seq<Envelope>, table: Table, seen: set<string>): seq<string> {
    if envelopes == [] then []
    else
      var id := envelopes[0].id;
      (if id !in seen && id in table then [id] else [])
      + Survivors(envelopes[1..], table, seen + {id})
  }

  ghost predicate Mentions(envelopes: seq<Envelope>, id: string) {
    exists i :: 0 <= i < |envelopes| && envelopes[i].id == id
  }

  // ----- Upserting a batch, in closed form -----

  /** The last envelope of a batch for `id`: the one whose fields remain. */
  function Last(envelopes: seq<Envelope>, id: string): (last: Envelope)
    requires Mentions(envelopes, id)
    ensures last.id == id && last in envelopes
  {
    var n := |envelopes| - 1;
    if envelopes[n].id == id then envelopes[n]
    else
      assert forall i :: 0 <= i < n ==> envelopes[..n][i] == envelopes[i];
      Last(envelopes[..n], id)
  }

  predicate AllUnread(envelopes: seq<Envelope>, id: string) {
    forall i :: 0 <= i < |envelopes| && envelopes[i].id == id ==> envelopes[i].unread
  }

  /** The row a batch leaves under `id`: last fields, sticky read, old content. */
  function RowAfter(table: Table, envelopes: seq<Envelope>, id: string): Row
    requires Mentions(envelopes, id)
  {
    var last := Last(envelopes, id);
    Row(last.thread, last.headers, last.receivedAt,
        (id in table ==> table[id].unread) && AllUnread(envelopes, id),
        if id in table then table[id].content else None)
  }

  lemma {:induction false} UpsertAllAppend(table: Table, envelopes: seq<Envelope>, more: seq<Envelope>)
    ensures UpsertAll(table, envelopes + more) == UpsertAll(UpsertAll(table, envelopes), more)
    decreases |envelopes|
  {
    if envelopes == [] {
      assert envelopes + more == more;
    } else {
      UpsertAllAppend(WriteEnvelope(table, envelopes[0], None), envelopes[1..], more);
      assert (envelopes + more)[1..] == envelopes[1..] + more;
    }
  }

  /** What one more envelope makes of a batch. */
  lemma BatchSnoc(front: seq<Envelope>, last: Envelope, id: string)
    ensures Mentions(front + [last], id) <==> Mentions(front, id) || last.id == id
    ensures AllUnread(front + [last], id) <==> AllUnread(front, id) && (last.id == id ==> last.unread)
    ensures Mentions(front + [last], id) ==>
      Last(front + [last], id) == if last.id == id then last else Last(front, id)
  {
    var all := front + [last];
    assert all[..|front|] == front && all[|front|] == last;
    if Mentions(front, id) {
      var i :| 0 <= i < |front| && front[i].id == id;
      assert all[i].id == id;
    }
    assert forall i :: 0 <= i < |front| ==> all[i] == front[i];
  }

  lemma {:induction false} UpsertAllClosedForm(table: Table, envelopes: seq<Envelope>, id: string)
    ensures id in UpsertAll(table, envelopes) <==> id in table || Mentions(envelopes, id)
    ensures Mentions(envelopes, id) ==>
      UpsertAll(table, envelopes)[id] == RowAfter(table, envelopes, id)
    ensures !Mentions(envelopes, id) && id in table ==> UpsertAll(table, envelopes)[id] == table[id]
  {
    if envelopes != [] {
      var n := |envelopes| - 1;
      var front, last := envelopes[..n], envelopes[n];
      assert envelopes == front + [last];
      UpsertAllAppend(table, front, [last]);
      UpsertAllClosedForm(table, front, id);
      var before := UpsertAll(table, front);
      assert UpsertAll(before, [last]) == WriteEnvelope(before, last, None);
      BatchSnoc(front, last, id);
      if !Mentions(front, id) {
        assert AllUnread(front, id);
      }
    }
  }

  // ----- The prune keeps the first k rows of the listing -----

  lemma {:induction false} DistinctCount(ids: seq<string>)
    requires forall i, j :: 0 <= i < j < |ids| ==> ids[i] != ids[j]
    ensures |set id | id in ids| == |ids|
  {
    if ids != [] {
      var front := ids[..|ids| - 1];
      DistinctCount(front);
      assert (set id | id in ids) == (set id | id in front) + {ids[|ids| - 1]};
    }
  }

  lemma ListingRank(table: Table, ids: seq<string>, i: nat)
    requires IsListing(table, ids) && i < |ids|
    ensures |Above(table, ids[i])| == i
    ensures Above(table, ids[i]) == set id | id in ids[..i]
  {
    ListingIsDistinct(table, ids);
    forall id | id in table
      ensures id in ids[..i] <==> Precedes(table, id, ids[i])
    {
      var j :| 0 <= j < |ids| && ids[j] == id;
      PrecedesIsTotal(table, id, ids[i]);
      if j < i {
        assert ids[..i][j] == id;
      }
    }
    assert Above(table, ids[i]) == set id | id in ids[..i];
    DistinctCount(ids[..i]);
  }

  lemma ListingIsDistinct(table: Table, ids: seq<string>)
    requires IsListing(table, ids)
    ensures forall i, j :: 0 <= i < j < |ids| ==> ids[i] != ids[j]
  {
    forall i, j | 0 <= i < j < |ids|
      ensures ids[i] != ids[j]
    {
      PrecedesIsTotal(table, ids[i], ids[i]);
    }
  }

  /** The first row of a non-empty table, found by walking towards earlier rows. */
  lemma FirstRow(table: Table, from: string) returns (first: string)
    requires from in table
    ensures first in table && Above(table, first) == {}
    decreases |Above(table, from)|
  {
    if Above(table, from) == {} {
      first := from;
    } else {
      var earlier :| earlier in Above(table, from);
      forall other | other in Above(table, earlier)
        ensures other in Above(table, from)
      {
        PrecedesIsTransitive(table, other, earlier, from);
      }
      PrecedesIsTotal(table, earlier, earlier);
      assert Above(table, earlier) <= Above(table, from) - {earlier};
      SubsetCount(Above(table, earlier), Above(table, from) - {earlier});
      first := FirstRow(table, earlier);
    }
  }

  /** Every table has a listing. */
  lemma {:induction false} ListingExists(table: Table) returns (ids: seq<string>)
    ensures IsListing(table, ids)
    decreases |table|
  {
    if table == map[] {
      ids := [];
    } else {
      var some :| some in table;
      var first := FirstRow(table, some);
      var others := table - {first};
      assert others.Keys == table.Keys - {first};
      var rest := ListingExists(others);
      ids := [first] + rest;
      assert forall i :: 1 <= i < |ids| ==> ids[i] == rest[i - 1] && ids[i] in others;
      forall i, j | 0 <= i < j < |ids|
        ensures Precedes(table, ids[i], ids[j])
      {
        if i == 0 {
          PrecedesIsTotal(table, first, ids[j]);
          assert ids[j] !in Above(table, first);
        } else {
          assert Precedes(others, rest[i - 1], rest[j - 1]);
        }
      }
    }
  }

  /** The prune keeps exactly the first k rows of the listing, unchanged. */
  lemma PruneKeepsTheFirst(table: Table, k: nat, ids: seq<string>)
    requires IsListing(table, ids)
    ensures var kept := ids[..if k < |ids| then k else |ids|];
      (forall id :: id in Prune(table, k) <==> id in kept)
      && (forall id :: id in Prune(table, k) ==> Prune(table, k)[id] == table[id])
  {
    var m := if k < |ids| then k else |ids|;
    var kept := ids[..m];
    forall id
      ensures id in Prune(table, k) <==> id in kept
    {
      if id in table {
        var i :| 0 <= i < |ids| && ids[i] == id;
        ListingRank(table, ids, i);
        if i < m {
          assert kept[i] == id;
        } else if id in kept {
          var j :| 0 <= j < m && kept[j] == id;
          ListingRank(table, ids, j);
        }
      }
    }
  }

  // ----- Reconcile against its specification -----

  /** The survivors are the distinct batch ids still present, in first-occurrence order. */
  lemma {:induction false} SurvivorsSpec(envelopes: seq<Envelope>, table: Table, seen: set<string>)
    ensures forall id :: id in Survivors(envelopes, table, seen) <==>
      Mentions(envelopes, id) && id in table && id !in seen
    ensures forall i, j :: 0 <= i < j < |Survivors(envelopes, table, seen)| ==>
      FirstOccurrence(envelopes, Survivors(envelopes, table, seen)[i])
      < FirstOccurrence(envelopes, Survivors(envelopes, table, seen)[j])
  {
    if envelopes != [] {
      var id0 := envelopes[0].id;
      var rest := envelopes[1..];
      SurvivorsSpec(rest, table, seen + {id0});
      var tail := Survivors(rest, table, seen + {id0});
      forall id
        ensures Mentions(envelopes, id) <==> id == id0 || Mentions(rest, id)
      {
        if Mentions(rest, id) {
          var i :| 0 <= i < |rest| && rest[i].id == id;
          assert envelopes[i + 1].id == id;
        }
        if Mentions(envelopes, id) && id != id0 {
          var i :| 0 <= i < |envelopes| && envelopes[i].id == id;
          assert rest[i - 1].id == id;
        }
      }
      var all := Survivors(envelopes, table, seen);
      var shift := |all| - |tail|;
      forall i, j | 0 <= i < j < |all|
        ensures FirstOccurrence(envelopes, all[i]) < FirstOccurrence(envelopes, all[j])
      {
        assert all[j] == tail[j - shift] && all[j] in tail;
        if i >= shift {
          assert all[i] == tail[i - shift] && all[i] in tail;
        }
      }
    }
  }

  /** The position of the first envelope for `id`, or the batch length. */
  function FirstOccurrence(envelopes: seq<Envelope>, id: string): nat {
    if envelopes == [] || envelopes[0].id == id then 0
    else 1 + FirstOccurrence(envelopes[1..], id)
  }

  /** Pruning a part of a table that holds the first k rows gives the same first k rows. */
  lemma PruneOfPart(big: Table, small: Table, k: nat)
    requires small.Keys <= big.Keys && Prune(big, k).Keys <= small.Keys
    requires forall id :: id in small ==> small[id].receivedAt == big[id].receivedAt
    ensures Prune(small, k).Keys == Prune(big, k).Keys
  {
    forall id | id in small
      ensures id in Prune(small, k) <==> id in Prune(big, k)
    {
      SubsetCount(Above(small, id), Above(big, id));
      if id !in Prune(big, k) {
        OutrankedInPart(big, small, k, id);
      }
    }
  }

  lemma OutrankedInPart(big: Table, small: Table, k: nat, id: string)
    requires small.Keys <= big.Keys && Prune(big, k).Keys <= small.Keys
    requires forall id :: id in small ==> small[id].receivedAt == big[id].receivedAt
    requires id in small && |Above(big, id)| >= k
    ensures |Above(small, id)| >= k
  {
    var ids := ListingExists(big);
    var i :| 0 <= i < |ids| && ids[i] == id;
    ListingRank(big, ids, i);
    PruneKeepsTheFirst(big, k, ids);
    var first := ids[..k];
    forall j | 0 <= j < k
      ensures first[j] in Above(small, id)
    {
      assert first[j] in Prune(big, k);
      assert Precedes(big, ids[j], ids[i]);
    }
    ListingIsDistinct(big, ids);
    DistinctCount(first);
    SubsetCount((set other | other in first), Above(small, id));
  }

  /** Repeating a reconcile changes nothing, although pruned rows come and go again. */
  lemma ReconcileIsIdempotent(table: Table, envelopes: seq<Envelope>, k: nat)
    ensures Reconciled(Reconciled(table, envelopes, k), envelopes, k) == Reconciled(table, envelopes, k)
  {
    var big := UpsertAll(table, envelopes);
    var once := Prune(big, k);
    var small := UpsertAll(once, envelopes);
    forall id
      ensures id in small ==> id in big && small[id].receivedAt == big[id].receivedAt
      ensures id in once ==> id in small && small[id] == once[id]
    {
      UpsertAllClosedForm(table, envelopes, id);
      UpsertAllClosedForm(once, envelopes, id);
    }
    PruneOfPart(big, small, k);
  }

  /**
   A row pruned between two batches came to no harm: the second batch brought it back, it had
   no body to lose, and its read mark is lost in neither or in both.
   */
  ghost predicate Harmless(middle: Table, second: seq<Envelope>, id: string)
    requires id in middle
  {
    Mentions(second, id) && middle[id].content == None && (middle[id].unread || !AllUnread(second, id))
  }

  /** The two ways to reconcile two batches, compared row by row before the last prune. */
  lemma BatchRows(middle: Table, second: seq<Envelope>, k: nat, id: string)
    ensures var once := Prune(middle, k);
      var small, big := UpsertAll(once, second), UpsertAll(middle, second);
      && (id in small <==> id in once || Mentions(second, id))
      && (id in big <==> id in middle || Mentions(second, id))
      && (id in small ==> small[id].receivedAt == big[id].receivedAt)
      && (id in big && (id in middle ==> id in once) ==> id in small && small[id] == big[id])
      && (id in middle && id !in once ==> (id in small && small[id] == big[id] <==> Harmless(middle, second, id)))
  {
    UpsertAllClosedForm(Prune(middle, k), second, id);
    UpsertAllClosedForm(middle, second, id);
  }

  /**
   Two reconciles equal one over both batches if and only if every row that the first prune
   dropped and that ranks among the first k in the end came to no harm.
   */
  lemma ReconcileSplitsExactly(table: Table, first: seq<Envelope>, second: seq<Envelope>, k: nat)
    ensures var middle := UpsertAll(table, first);
      var kept := Prune(UpsertAll(middle, second), k);
      Reconciled(Reconciled(table, first, k), second, k) == Reconciled(table, first + second, k)
      <==> forall id :: id in kept && id in middle && id !in Prune(middle, k) ==> Harmless(middle, second, id)
  {
    UpsertAllAppend(table, first, second);
    var middle := UpsertAll(table, first);
    var small, big := UpsertAll(Prune(middle, k), second), UpsertAll(middle, second);
    forall id
      ensures id in small ==> id in big && small[id].receivedAt == big[id].receivedAt
    {
      BatchRows(middle, second, k, id);
    }
    if Prune(small, k) == Prune(big, k) {
      forall id | id in Prune(big, k) && id in middle && id !in Prune(middle, k)
        ensures Harmless(middle, second, id)
      {
        assert id in Prune(small, k);
        BatchRows(middle, second, k, id);
      }
    }
    if forall id :: id in Prune(big, k) && id in middle && id !in Prune(middle, k) ==> Harmless(middle, second, id) {
      forall id | id in Prune(big, k)
        ensures id in small && small[id] == big[id]
      {
        BatchRows(middle, second, k, id);
      }
      PruneOfPart(big, small, k);
    }
  }

  /** A batch of new ids may be reconciled after another batch or together with it. */
  lemma ReconcileInTwoBatches(table: Table, first: seq<Envelope>, second: seq<Envelope>, k: nat)
    requires forall id :: Mentions(second, id) ==> id !in table && !Mentions(first, id)
    ensures Reconciled(Reconciled(table, first, k), second, k) == Reconciled(table, first + second, k)
  {
    var middle := UpsertAll(table, first);
    forall id | id in Prune(UpsertAll(middle, second), k) && id in middle
      ensures id in Prune(middle, k)
    {
      NewRowsOnlyPush(table, first, second, k, id);
    }
    ReconcileSplitsExactly(table, first, second, k);
  }

  /** New rows outrank but do not replace: what ranks among the first k with them did so before. */
  lemma NewRowsOnlyPush(table: Table, first: seq<Envelope>, second: seq<Envelope>, k: nat, id: string)
    requires forall other :: Mentions(second, other) ==> other !in table && !Mentions(first, other)
    requires id in UpsertAll(table, first) && id in Prune(UpsertAll(UpsertAll(table, first), second), k)
    ensures id in Prune(UpsertAll(table, first), k)
  {
    var middle := UpsertAll(table, first);
    var big := UpsertAll(middle, second);
    forall other | other in middle
      ensures other in big && big[other] == middle[other]
    {
      UpsertAllClosedForm(table, first, other);
      UpsertAllClosedForm(middle, second, other);
    }
    SubsetCount(Above(middle, id), Above(big, id));
  }

  /** An input at which the condition fails: a row pruned in between loses its read mark. */
  lemma StaleSecondBatchDiffers() returns (table: Table, first: seq<Envelope>, second: seq<Envelope>)
    ensures Reconciled(Reconciled(table, first, 1), second, 1) != Reconciled(table, first + second, 1)
  {
    var h := Headers("", "", "");
    table := map["a" := Row("t", h, 1, false, None)];
    first, second := [Envelope("b", "t", h, 2, true)], [Envelope("a", "t", h, 3, true)];
    var middle := table["b" := Row("t", h, 2, true, None)];
    assert UpsertAll(table, first) == middle;
    assert Above(middle, "a") == {"b"} && Above(middle, "b") == {};
    var once := map["b" := Row("t", h, 2, true, None)];
    assert Reconciled(table, first, 1) == once;
    var small := once["a" := Row("t", h, 3, true, None)];
    assert UpsertAll(once, second) == small && Above(small, "a") == {};
    assert Reconciled(once, second, 1)["a"].unread;
    UpsertAllAppend(table, first, second);
    var big := middle["a" := Row("t", h, 3, false, None)];
    assert UpsertAll(middle, second) == big && Above(big, "a") == {};
    assert !Reconciled(table, first + second, 1)["a"].unread;
  }
}
