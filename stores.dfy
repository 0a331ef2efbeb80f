/**
 * The two persisted lists: the saved-for-later items (`SavedStore`) and the
 * history of completed downloads (`DownloadHistoryStore`). The JSON file
 * behind each is modelled as the sequence it holds.
 */
module Stores {
  import opened Common
  import opened Assoc
  import opened Values

  /** `(entry.get("source"), str(entry.get("id")))`, the identity of a release. */
  type EntryKey = (Value, string)

  function KeyOf(entry: Dict): EntryKey {
    (Lookup(entry, "source"), Str(Lookup(entry, "id")))
  }

  function KeySet(entries: seq<Dict>): set<EntryKey> {
    set i | 0 <= i < |entries| :: KeyOf(entries[i])
  }

  /** No two entries describe the same release. */
  predicate DistinctKeys(entries: seq<Dict>) {
    forall i, j :: 0 <= i < j < |entries| ==> KeyOf(entries[i]) != KeyOf(entries[j])
  }

  /** `[item for item in items if not pred(item)]`. */
  function Filter(items: seq<Dict>, pred: Dict -> bool): (r: seq<Dict>)
    ensures |r| <= |items|
    ensures forall x :: x in r ==> x in items && !pred(x)
    ensures forall x :: x in items && !pred(x) ==> x in r
  {
    if |items| == 0 then []
    else (if pred(items[0]) then [] else [items[0]]) + Filter(items[1..], pred)
  }

  /** Filtering a list none of whose items match leaves it as it was. */
  lemma {:induction false} FilterNoMatch(items: seq<Dict>, pred: Dict -> bool)
    requires forall i :: 0 <= i < |items| ==> !pred(items[i])
    ensures Filter(items, pred) == items
  {
    if |items| > 0 {
      FilterNoMatch(items[1..], pred);
    }
  }

  /** Filtering a list all of whose items match leaves nothing. */
  lemma {:induction false} FilterAllMatch(items: seq<Dict>, pred: Dict -> bool)
    requires forall i :: 0 <= i < |items| ==> pred(items[i])
    ensures Filter(items, pred) == []
  {
    if |items| > 0 {
      FilterAllMatch(items[1..], pred);
    }
  }

  /** Filtering twice by the same predicate is filtering once. */
  lemma {:induction false} FilterIdempotent(items: seq<Dict>, pred: Dict -> bool)
    ensures Filter(Filter(items, pred), pred) == Filter(items, pred)
  {
    var r := Filter(items, pred);
    FilterNoMatch(r, pred) by {
      forall i | 0 <= i < |r| ensures !pred(r[i]) {
        assert r[i] in r;
      }
    }
  }

  class SavedStore {
    var items: seq<Dict>

    /** A store over the list already in its file (`[]` when the file is new). */
    constructor(existing: seq<Dict>)
      ensures items == existing
    {
      items := existing;
    }

    method List() returns (r: seq<Dict>)
      ensures r == items
    {
      r := items;
    }

    /** `add`: appends every item, duplicates included. */
    method Add(newItems: seq<Dict>)
      modifies this
      ensures items == old(items) + newItems
    {
      items := items + newItems;
    }

    /** `remove`: keeps the items the predicate rejects. */
    method Remove(pred: Dict -> bool)
      modifies this
      ensures items == Filter(old(items), pred)
    {
      items := Filter(items, pred);
    }
  }

  /** The history record `add` writes for an entry: the id as a string, no url. */
  function Stored(entry: Dict): Dict {
    [("id", VStr(Str(Lookup(entry, "id")))),
     ("source", Lookup(entry, "source")),
     ("media_type", Lookup(entry, "media_type")),
     ("title", Lookup(entry, "title")),
     ("artist", Lookup(entry, "artist"))]
  }

  /** The records `add` appends, given the keys already seen. */
  function NewEntries(seen: set<EntryKey>, items: seq<Dict>): seq<Dict>
    decreases |items|
  {
    if |items| == 0 then []
    else if KeyOf(items[0]) in seen then NewEntries(seen, items[1..])
    else [Stored(items[0])] + NewEntries(seen + {KeyOf(items[0])}, items[1..])
  }

  /** The history after `add(items)`. */
  function HistoryAdded(existing: seq<Dict>, items: seq<Dict>): seq<Dict> {
    existing + NewEntries(KeySet(existing), items)
  }

  /** A stored record keeps the key of the entry it came from. */
  lemma StoredKey(entry: Dict)
    ensures KeyOf(Stored(entry)) == KeyOf(entry)
    ensures Lookup(Stored(entry), "id").VStr?
  {
    var r := Stored(entry);
    IndexOfIs(r, "id", 0);
    IndexOfIs(r, "source", 1);
  }

  lemma KeySetCons(items: seq<Dict>)
    requires |items| > 0
    ensures KeySet(items) == {KeyOf(items[0])} + KeySet(items[1..])
  {
    var rest := items[1..];
    assert forall i :: 1 <= i < |items| ==> items[i] == rest[i - 1];
    assert forall j :: 0 <= j < |rest| ==> rest[j] == items[j + 1];
  }

  lemma DistinctCons(x: Dict, tail: seq<Dict>)
    requires DistinctKeys(tail) && KeyOf(x) !in KeySet(tail)
    ensures DistinctKeys([x] + tail)
  {
    var r := [x] + tail;
    forall i, j | 0 <= i < j < |r| ensures KeyOf(r[i]) != KeyOf(r[j]) {
      assert r[j] == tail[j - 1];
      if i == 0 {
        assert KeyOf(tail[j - 1]) in KeySet(tail);
      } else {
        assert r[i] == tail[i - 1];
      }
    }
  }

  /** New records carry keys not seen before, each at most once, and only keys of the batch. */
  lemma {:induction false} NewEntriesKeys(seen: set<EntryKey>, items: seq<Dict>)
    ensures DistinctKeys(NewEntries(seen, items))
    ensures KeySet(NewEntries(seen, items)) !! seen
    ensures seen + KeySet(NewEntries(seen, items)) == seen + KeySet(items)
    decreases |items|
  {
    if |items| > 0 {
      var k := KeyOf(items[0]);
      var rest := items[1..];
      KeySetCons(items);
      if k in seen {
        NewEntriesKeys(seen, rest);
      } else {
        NewEntriesKeys(seen + {k}, rest);
        var tail := NewEntries(seen + {k}, rest);
        var r := [Stored(items[0])] + tail;
        StoredKey(items[0]);
        assert r[1..] == tail;
        KeySetCons(r);
        DistinctCons(Stored(items[0]), tail);
      }
    }
  }

  lemma KeySetConcat(a: seq<Dict>, b: seq<Dict>)
    ensures KeySet(a + b) == KeySet(a) + KeySet(b)
  {
    var c := a + b;
    assert forall i :: 0 <= i < |a| ==> c[i] == a[i];
    assert forall j :: 0 <= j < |b| ==> c[|a| + j] == b[j];
    forall x | x in KeySet(c) ensures x in KeySet(a) + KeySet(b) {
      var i :| 0 <= i < |c| && KeyOf(c[i]) == x;
      if i >= |a| {
        assert c[i] == b[i - |a|];
      }
    }
  }

  /**
   * `DownloadHistoryStore.add`: afterwards the history knows exactly the old
   * keys and the batch's keys, still with no release recorded twice.
   */
  lemma HistoryAddKeys(existing: seq<Dict>, items: seq<Dict>)
    requires DistinctKeys(existing)
    ensures KeySet(HistoryAdded(existing, items)) == KeySet(existing) + KeySet(items)
    ensures DistinctKeys(HistoryAdded(existing, items))
    ensures HistoryAdded(existing, items)[..|existing|] == existing
  {
    var added := NewEntries(KeySet(existing), items);
    NewEntriesKeys(KeySet(existing), items);
    KeySetConcat(existing, added);
    var r := existing + added;
    forall i, j | 0 <= i < j < |r| ensures KeyOf(r[i]) != KeyOf(r[j]) {
      if j >= |existing| {
        assert r[j] == added[j - |existing|];
        assert KeyOf(added[j - |existing|]) in KeySet(added);
        if i >= |existing| {
          assert r[i] == added[i - |existing|];
        } else {
          assert KeyOf(r[i]) in KeySet(existing);
        }
      }
    }
  }

  lemma {:induction false} NewEntriesNone(seen: set<EntryKey>, items: seq<Dict>)
    requires KeySet(items) <= seen
    ensures NewEntries(seen, items) == []
    decreases |items|
  {
    if |items| > 0 {
      assert KeyOf(items[0]) in KeySet(items);
      assert KeySet(items[1..]) <= KeySet(items) by {
        forall x | x in KeySet(items[1..]) ensures x in KeySet(items) {
          var i :| 0 <= i < |items[1..]| && KeyOf(items[1..][i]) == x;
          assert items[1..][i] == items[i + 1];
        }
      }
      NewEntriesNone(seen, items[1..]);
    }
  }

  /** Adding the same batch twice records it once. */
  lemma HistoryAddIdempotent(existing: seq<Dict>, items: seq<Dict>)
    requires DistinctKeys(existing)
    ensures HistoryAdded(HistoryAdded(existing, items), items) == HistoryAdded(existing, items)
  {
    HistoryAddKeys(existing, items);
    NewEntriesNone(KeySet(HistoryAdded(existing, items)), items);
  }

  /** An entry whose key is new is appended, as its stored record. */
  lemma HistoryAddOne(existing: seq<Dict>, entry: Dict)
    requires KeyOf(entry) !in KeySet(existing)
    ensures HistoryAdded(existing, [entry]) == existing + [Stored(entry)]
  {
    assert [entry][1..] == [];
    assert NewEntries(KeySet(existing), [entry]) == [Stored(entry)] + NewEntries(KeySet(existing) + {KeyOf(entry)}, []);
  }

  class DownloadHistoryStore {
    var entries: seq<Dict>

    constructor(existing: seq<Dict>)
      ensures entries == existing
    {
      entries := existing;
    }

    method List() returns (r: seq<Dict>)
      ensures r == entries
    {
      r := entries;
    }

    /** `add`: skips releases already recorded or repeated in the batch. */
    method Add(items: seq<Dict>)
      modifies this
      ensures entries == HistoryAdded(old(entries), items)
    {
      var seen := KeySet(entries);
      var newItems: seq<Dict> := [];
      var i := 0;
      while i < |items|
        invariant 0 <= i <= |items|
        invariant newItems + NewEntries(seen, items[i..]) == NewEntries(KeySet(entries), items)
      {
        assert items[i..][1..] == items[i + 1..];
        var key := KeyOf(items[i]);
        if key !in seen {
          seen := seen + {key};
          newItems := newItems + [Stored(items[i])];
        }
        i := i + 1;
      }
      if newItems != [] {
        entries := entries + newItems;
      }
    }
  }
}
