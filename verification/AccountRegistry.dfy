/**
 The account registry of adapters/store-sqlcipher/src/registry.rs: a table keyed by account
 id whose display order is a position column, proved to be a list of at most five entries.
 */
module AccountRegistry {
  import opened Wrappers

  const MAX_ACCOUNTS := 5

  datatype RegistryError = Storage | Full | Duplicate

  /** The dedup tag of an OAuth subject; different subjects have different tags. */
  datatype Tag = Hmac(subject: string)

  datatype Slot = Slot(tag: Tag, position: nat)

  type Rows = map<string, Slot>

  datatype Entry = Entry(id: string, tag: Tag)

  // ----- The list a table stands for -----

  predicate IsFirst(rows: Rows, first: Entry) {
    && first.id in rows && rows[first.id].tag == first.tag
    && forall id :: id in rows && id != first.id ==> rows[first.id].position < rows[id].position
  }

  /** `entries` is the table in the order of its positions. */
  predicate Lists(rows: Rows, entries: seq<Entry>)
    decreases |entries|
  {
    if entries == [] then rows == map[]
    else IsFirst(rows, entries[0]) && Lists(rows - {entries[0].id}, entries[1..])
  }

  predicate HasId(entries: seq<Entry>, id: string) {
    entries != [] && (entries[0].id == id || HasId(entries[1..], id))
  }

  predicate HasTag(entries: seq<Entry>, tag: Tag) {
    entries != [] && (entries[0].tag == tag || HasTag(entries[1..], tag))
  }

  /** No two entries share an id or a tag. */
  predicate Distinct(entries: seq<Entry>) {
    entries != [] ==>
      !HasId(entries[1..], entries[0].id) && !HasTag(entries[1..], entries[0].tag) && Distinct(entries[1..])
  }

  /** The id registered under `tag`, if any. */
  function FindTag(entries: seq<Entry>, tag: Tag): Option<string> {
    if entries == [] then None
    else if entries[0].tag == tag then Some(entries[0].id)
    else FindTag(entries[1..], tag)
  }

  /** The list without `id`, in the same order. */
  function Without(entries: seq<Entry>, id: string): seq<Entry> {
    if entries == [] then []
    else if entries[0].id == id then Without(entries[1..], id)
    else [entries[0]] + Without(entries[1..], id)
  }

  function Unless(found: Option<string>, id: string): Option<string> {
    if found == Some(id) then None else found
  }

  /** What `register` makes of the list: the new entry goes last. */
  function Registering(entries: seq<Entry>, id: string, tag: Tag, fault: bool)
    : (seq<Entry>, Result<(), RegistryError>)
  {
    if fault then (entries, Err(Storage))
    else if |entries| >= MAX_ACCOUNTS then (entries, Err(Full))
    else if HasId(entries, id) || HasTag(entries, tag) then (entries, Err(Duplicate))
    else (entries + [Entry(id, tag)], Ok(()))
  }

  // ----- The registry -----

  /** The row with the lowest position. */
  method Lowest(rows: Rows, ghost entries: seq<Entry>) returns (id: string)
    requires Lists(rows, entries) && rows != map[]
    ensures entries != [] && id == entries[0].id && id in rows
  {
    assert entries != [] && IsFirst(rows, entries[0]);
    id :| id in rows && forall other :: other in rows ==> rows[id].position <= rows[other].position;
  }

  class Registry {
    var rows: Rows
    ghost var entries: seq<Entry>

    ghost predicate Valid()
      reads this
    {
      Lists(rows, entries) && Distinct(entries) && |entries| <= MAX_ACCOUNTS
    }

    constructor ()
      ensures Valid() && entries == []
    {
      rows, entries := map[], [];
    }

    /** `accounts`: `ORDER BY position ASC`. */
    method Accounts() returns (ids: seq<string>)
      requires Valid()
      ensures |ids| == |entries| && forall i :: 0 <= i < |ids| ==> ids[i] == entries[i].id
    {
      ids := [];
      var rest := rows;
      ghost var todo := entries;
      while rest != map[]
        invariant |ids| + |todo| == |entries| && todo == entries[|ids|..]
        invariant forall i :: 0 <= i < |ids| ==> ids[i] == entries[i].id
        invariant Lists(rest, todo)
        decreases |todo|
      {
        var id := Lowest(rest, todo);
        ids := ids + [id];
        rest := rest - {id};
        todo := todo[1..];
      }
      assert Lists(rest, todo);
    }

    /** `find_by_tag`. */
    method FindByTag(tag: Tag) returns (found: Option<string>)
      requires Valid()
      ensures found == FindTag(entries, tag)
    {
      RowsMatchEntries(rows, entries);
      if id :| id in rows && rows[id].tag == tag {
        FindsRow(rows, entries, id);
        return Some(id);
      }
      FindsNothing(rows, entries, tag);
      return None;
    }

    /** `register`: appends at the end of the display order, whatever was removed before. */
    method Register(id: string, tag: Tag, fault: bool) returns (r: Result<(), RegistryError>)
      requires Valid()
      modifies this
      ensures Valid()
      ensures (entries, r) == Registering(old(entries), id, tag, fault)
    {
      if fault {
        return Err(Storage);
      }
      RowsMatchEntries(rows, entries);
      if |rows| >= MAX_ACCOUNTS {
        return Err(Full);
      }
      if id in rows || exists other :: other in rows && rows[other].tag == tag {
        return Err(Duplicate);
      }
      var position := NextPosition();
      ListsAppend(rows, entries, id, Slot(tag, position));
      DistinctAppend(entries, Entry(id, tag));
      rows := rows[id := Slot(tag, position)];
      entries := entries + [Entry(id, tag)];
      return Ok(());
    }

    /** `coalesce(max(position) + 1, 0)`. */
    method NextPosition() returns (next: nat)
      ensures forall id :: id in rows ==> rows[id].position < next
    {
      next := 0;
      var rest := rows.Keys;
      while rest != {}
        invariant rest <= rows.Keys
        invariant forall id :: id in rows && id !in rest ==> rows[id].position < next
        decreases rest
      {
        var id :| id in rest;
        if rows[id].position >= next {
          next := rows[id].position + 1;
        }
        rest := rest - {id};
      }
    }

    /** `remove`: deletes one entry and keeps the order of the others. */
    method Remove(id: string, fault: bool) returns (r: Result<bool, RegistryError>)
      requires Valid()
      modifies this
      ensures Valid()
      ensures fault ==> r == Err(Storage) && entries == old(entries)
      ensures !fault ==> r == Ok(HasId(old(entries), id)) && entries == Without(old(entries), id)
    {
      if fault {
        return Err(Storage);
      }
      RowsMatchEntries(rows, entries);
      r := Ok(id in rows);
      ListsWithout(rows, entries, id);
      WithoutStaysDistinct(entries, id);
      rows := rows - {id};
      entries := Without(entries, id);
    }
  }

  // ----- What a registration does to the list -----

  /** A registration appends below five entries of other ids and tags, and changes nothing otherwise. */
  lemma RegistersExactly(entries: seq<Entry>, id: string, tag: Tag, fault: bool)
    ensures var (after, r) := Registering(entries, id, tag, fault);
      && (r.Ok? <==> !fault && |entries| < 5 && !HasId(entries, id) && !HasTag(entries, tag))
      && (r.Ok? ==> after == entries + [Entry(id, tag)] && FindTag(after, tag) == Some(id))
      && (r.Err? ==> after == entries)
      && (r == Err(Full) <==> !fault && |entries| >= 5)
      && (r == Err(Duplicate) <==> !fault && |entries| < 5 && (HasId(entries, id) || HasTag(entries, tag)))
  {
    if !HasTag(entries, tag) {
      LastIsFound(entries, Entry(id, tag));
    }
  }

  lemma {:induction false} LastIsFound(entries: seq<Entry>, last: Entry)
    requires !HasTag(entries, last.tag)
    ensures FindTag(entries + [last], last.tag) == Some(last.id)
  {
    if entries != [] {
      LastIsFound(entries[1..], last);
      assert (entries + [last])[1..] == entries[1..] + [last];
    }
  }

  // ----- The table and its list -----

  /** The list holds exactly the rows of the table, and as many. */
  lemma {:induction false} RowsMatchEntries(rows: Rows, entries: seq<Entry>)
    requires Lists(rows, entries)
    ensures |rows| == |entries|
    ensures forall id :: id in rows <==> HasId(entries, id)
    ensures forall tag :: HasTag(entries, tag) <==> exists id :: id in rows && rows[id].tag == tag
    decreases |entries|
  {
    if entries != [] {
      var first := entries[0];
      var rest := rows - {first.id};
      RowsMatchEntries(rest, entries[1..]);
      assert rest.Keys == rows.Keys - {first.id};
      forall tag
        ensures HasTag(entries, tag) <==> exists id :: id in rows && rows[id].tag == tag
      {
        if tag != first.tag && exists id :: id in rows && rows[id].tag == tag {
          var id :| id in rows && rows[id].tag == tag;
          assert id in rest && rest[id].tag == tag;
        }
      }
    }
  }

  /** A table has one list only: the display order is determined by the rows. */
  lemma {:induction false} ListIsUnique(rows: Rows, a: seq<Entry>, b: seq<Entry>)
    requires Lists(rows, a) && Lists(rows, b)
    ensures a == b
    decreases |a|
  {
    if a != [] {
      assert b != [] && a[0] == b[0];
      ListIsUnique(rows - {a[0].id}, a[1..], b[1..]);
      assert a == [a[0]] + a[1..] && b == [b[0]] + b[1..];
    }
  }

  lemma {:induction false} FindsRow(rows: Rows, entries: seq<Entry>, id: string)
    requires Lists(rows, entries) && Distinct(entries) && id in rows
    ensures FindTag(entries, rows[id].tag) == Some(id)
    decreases |entries|
  {
    var rest := rows - {entries[0].id};
    if id != entries[0].id {
      RowsMatchEntries(rest, entries[1..]);
      assert rest[id].tag == rows[id].tag;
      FindsRow(rest, entries[1..], id);
    }
  }

  lemma {:induction false} FindsNothing(rows: Rows, entries: seq<Entry>, tag: Tag)
    requires !HasTag(entries, tag)
    ensures FindTag(entries, tag) == None
  {
    if entries != [] {
      FindsNothing(rows, entries[1..], tag);
    }
  }

  /** A row placed after all others is listed last. */
  lemma {:induction false} ListsAppend(rows: Rows, entries: seq<Entry>, id: string, slot: Slot)
    requires Lists(rows, entries) && id !in rows
    requires forall other :: other in rows ==> rows[other].position < slot.position
    ensures Lists(rows[id := slot], entries + [Entry(id, slot.tag)])
    decreases |entries|
  {
    var more := entries + [Entry(id, slot.tag)];
    if entries == [] {
      assert rows[id := slot] - {id} == map[] && more[1..] == [];
    } else {
      var first := entries[0];
      ListsAppend(rows - {first.id}, entries[1..], id, slot);
      assert rows[id := slot] - {first.id} == (rows - {first.id})[id := slot];
      assert more[1..] == entries[1..] + [Entry(id, slot.tag)];
    }
  }

  lemma {:induction false} DistinctAppend(entries: seq<Entry>, last: Entry)
    requires Distinct(entries) && !HasId(entries, last.id) && !HasTag(entries, last.tag)
    ensures Distinct(entries + [last])
    ensures forall id :: HasId(entries + [last], id) <==> HasId(entries, id) || id == last.id
    ensures forall tag :: HasTag(entries + [last], tag) <==> HasTag(entries, tag) || tag == last.tag
  {
    if entries == [] {
      assert [last][1..] == [];
    } else {
      DistinctAppend(entries[1..], last);
      assert (entries + [last])[1..] == entries[1..] + [last];
    }
  }

  lemma {:induction false} ListsWithout(rows: Rows, entries: seq<Entry>, id: string)
    requires Lists(rows, entries)
    ensures Lists(rows - {id}, Without(entries, id))
    decreases |entries|
  {
    if entries == [] {
      assert rows - {id} == rows;
    } else {
      var first := entries[0];
      ListsWithout(rows - {first.id}, entries[1..], id);
      assert (rows - {first.id}) - {id} == (rows - {id}) - {first.id};
      if first.id == id {
        assert (rows - {id}) - {id} == rows - {id};
      } else {
        var kept := [first] + Without(entries[1..], id);
        assert kept[1..] == Without(entries[1..], id) && IsFirst(rows - {id}, first);
      }
    }
  }

  lemma {:induction false} WithoutStaysDistinct(entries: seq<Entry>, id: string)
    requires Distinct(entries)
    ensures Distinct(Without(entries, id)) && |Without(entries, id)| <= |entries|
    ensures forall other :: HasId(Without(entries, id), other) <==> HasId(entries, other) && other != id
    ensures forall tag :: HasTag(Without(entries, id), tag) ==> HasTag(entries, tag)
    ensures forall tag :: FindTag(Without(entries, id), tag) == Unless(FindTag(entries, tag), id)
  {
    if entries != [] {
      var first, rest := entries[0], entries[1..];
      WithoutStaysDistinct(rest, id);
      if first.id != id {
        assert ([first] + Without(rest, id))[1..] == Without(rest, id);
      } else {
        forall tag
          ensures FindTag(rest, tag) != Some(id)
        {
          FoundIsThere(rest, tag);
        }
        FindsNothing(map[], rest, first.tag);
      }
    }
  }

  lemma {:induction false} FoundIsThere(entries: seq<Entry>, tag: Tag)
    ensures FindTag(entries, tag).Some? ==> HasId(entries, FindTag(entries, tag).value)
    ensures FindTag(entries, tag).Some? <==> HasTag(entries, tag)
  {
    if entries != [] {
      FoundIsThere(entries[1..], tag);
    }
  }
}
