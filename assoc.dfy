/**
 * Insertion-ordered dictionaries as sequences of key/value pairs, with the
 * semantics of Python's `dict`: `d[k] = v` replaces the value in place when
 * `k` is present and appends otherwise, lookups find the (single) entry for a
 * key, and `{**a, **b}` keeps `a`'s key order and appends `b`'s new keys.
 */
module Assoc {
  import opened Common

  function Keys<K, V>(d: seq<(K, V)>): (ks: seq<K>)
    ensures |ks| == |d|
    ensures forall i :: 0 <= i < |d| ==> ks[i] == d[i].0
  {
    if |d| == 0 then [] else [d[0].0] + Keys(d[1..])
  }

  predicate HasKey<K(==), V>(d: seq<(K, V)>, k: K) {
    exists i :: 0 <= i < |d| && d[i].0 == k
  }

  /** No key occurs twice: the representation of a real Python dict. */
  predicate UniqueKeys<K(==), V>(d: seq<(K, V)>) {
    forall i, j :: 0 <= i < j < |d| ==> d[i].0 != d[j].0
  }

  /** Position of the first entry with key `k`. */
  function IndexOf<K(==), V>(d: seq<(K, V)>, k: K): (i: nat)
    requires HasKey(d, k)
    ensures i < |d| && d[i].0 == k
    ensures forall j :: 0 <= j < i ==> d[j].0 != k
  {
    if d[0].0 == k then 0
    else
      assert HasKey(d[1..], k) by {
        var m :| 0 <= m < |d| && d[m].0 == k;
        assert d[1..][m - 1].0 == k;
      }
      1 + IndexOf(d[1..], k)
  }

  /** `d.get(k)`: the value stored under `k`, if any. */
  function Get<K(==), V>(d: seq<(K, V)>, k: K): (r: Option<V>)
    ensures r.Some? <==> HasKey(d, k)
    ensures r.Some? ==> r.value == d[IndexOf(d, k)].1
  {
    if HasKey(d, k) then Some(d[IndexOf(d, k)].1) else None
  }

  /** `d.get(k, default)`. */
  function GetOr<K(==), V>(d: seq<(K, V)>, k: K, default: V): V {
    match Get(d, k)
    case Some(v) => v
    case None => default
  }

  /** `d[k] = v`. */
  function Set<K(==), V>(d: seq<(K, V)>, k: K, v: V): seq<(K, V)> {
    if HasKey(d, k) then d[IndexOf(d, k) := (k, v)] else d + [(k, v)]
  }

  /** Every entry whose key is not `k`, in order (`d.pop(k, None)`). */
  function Remove<K(==), V>(d: seq<(K, V)>, k: K): seq<(K, V)> {
    if |d| == 0 then []
    else if d[0].0 == k then Remove(d[1..], k)
    else [d[0]] + Remove(d[1..], k)
  }

  /** `list.remove(x)` when `x` is present: its first occurrence goes. */
  function RemoveFirst<T(==)>(s: seq<T>, x: T): seq<T> {
    if |s| == 0 then []
    else if s[0] == x then s[1..]
    else [s[0]] + RemoveFirst(s[1..], x)
  }

  /** `{**a, **b}`: `b`'s entries assigned over `a` one at a time. */
  function Merge<K(==), V>(a: seq<(K, V)>, b: seq<(K, V)>): seq<(K, V)>
    decreases |b|
  {
    if |b| == 0 then a
    else Set(Merge(a, b[..|b| - 1]), b[|b| - 1].0, b[|b| - 1].1)
  }

  lemma HasKeyAt<K, V>(d: seq<(K, V)>, i: int)
    requires 0 <= i < |d|
    ensures HasKey(d, d[i].0)
  {
  }

  /** The first entry with key `k` is at `i`. */
  lemma IndexOfIs<K, V>(d: seq<(K, V)>, k: K, i: int)
    requires 0 <= i < |d| && d[i].0 == k
    requires forall j :: 0 <= j < i ==> d[j].0 != k
    ensures HasKey(d, k) && IndexOf(d, k) == i
  {
    HasKeyAt(d, i);
  }

  lemma GetSetSame<K, V>(d: seq<(K, V)>, k: K, v: V)
    ensures Get(Set(d, k, v), k) == Some(v)
    ensures HasKey(Set(d, k, v), k)
  {
    var r := Set(d, k, v);
    if HasKey(d, k) {
      IndexOfIs(r, k, IndexOf(d, k));
    } else {
      assert forall j :: 0 <= j < |d| ==> d[j].0 != k by {
        forall j | 0 <= j < |d| ensures d[j].0 != k { HasKeyAt(d, j); }
      }
      IndexOfIs(r, k, |d|);
    }
  }

  lemma GetSetOther<K, V>(d: seq<(K, V)>, k: K, v: V, k': K)
    requires k' != k
    ensures Get(Set(d, k, v), k') == Get(d, k')
    ensures HasKey(Set(d, k, v), k') == HasKey(d, k')
  {
    var r := Set(d, k, v);
    assert forall j :: 0 <= j < |d| ==> (r[j].0 == k' <==> d[j].0 == k');
    if HasKey(d, k') {
      IndexOfIs(r, k', IndexOf(d, k'));
    } else {
      assert forall j :: 0 <= j < |d| ==> d[j].0 != k' by {
        forall j | 0 <= j < |d| ensures d[j].0 != k' { HasKeyAt(d, j); }
      }
      assert forall j :: 0 <= j < |r| ==> r[j].0 != k';
      assert !HasKey(r, k');
    }
  }

  lemma SetKeys<K, V>(d: seq<(K, V)>, k: K, v: V)
    ensures Keys(Set(d, k, v)) == if HasKey(d, k) then Keys(d) else Keys(d) + [k]
  {
  }

  lemma SetUnique<K, V>(d: seq<(K, V)>, k: K, v: V)
    requires UniqueKeys(d)
    ensures UniqueKeys(Set(d, k, v))
  {
    if !HasKey(d, k) {
      var r := Set(d, k, v);
      forall i, j | 0 <= i < j < |r| ensures r[i].0 != r[j].0 {
        if j == |d| {
          HasKeyAt(d, i);
        }
      }
    }
  }

  lemma {:induction false} MergeUnique<K, V>(a: seq<(K, V)>, b: seq<(K, V)>)
    requires UniqueKeys(a)
    ensures UniqueKeys(Merge(a, b))
    decreases |b|
  {
    if |b| > 0 {
      MergeUnique(a, b[..|b| - 1]);
      SetUnique(Merge(a, b[..|b| - 1]), b[|b| - 1].0, b[|b| - 1].1);
    }
  }

  lemma LastKeyIsNew<K, V>(b: seq<(K, V)>)
    requires UniqueKeys(b) && |b| > 0
    ensures !HasKey(b[..|b| - 1], b[|b| - 1].0)
    ensures IndexOf(b, b[|b| - 1].0) == |b| - 1
  {
    var init := b[..|b| - 1];
    assert forall j :: 0 <= j < |init| ==> init[j].0 != b[|b| - 1].0;
    IndexOfIs(b, b[|b| - 1].0, |b| - 1);
  }

  lemma HasKeySnoc<K, V>(b: seq<(K, V)>, k: K)
    requires |b| > 0
    ensures HasKey(b, k) <==> HasKey(b[..|b| - 1], k) || b[|b| - 1].0 == k
    ensures HasKey(b[..|b| - 1], k) ==> IndexOf(b, k) == IndexOf(b[..|b| - 1], k)
  {
    var init := b[..|b| - 1];
    assert forall i :: 0 <= i < |init| ==> init[i] == b[i];
    if HasKey(b, k) && b[|b| - 1].0 != k {
      var m :| 0 <= m < |b| && b[m].0 == k;
      assert m < |init| && init[m].0 == k;
    }
    if HasKey(init, k) {
      var m := IndexOf(init, k);
      assert b[m].0 == k;
      IndexOfIs(b, k, m);
    } else if b[|b| - 1].0 == k {
      assert HasKey(b, k) by { HasKeyAt(b, |b| - 1); }
    }
  }

  /** `{**a, **b}[k]` is `b[k]` when `b` has `k`, and `a[k]` otherwise. */
  lemma {:induction false} GetMerge<K, V>(a: seq<(K, V)>, b: seq<(K, V)>, k: K)
    requires UniqueKeys(b)
    ensures Get(Merge(a, b), k) == if HasKey(b, k) then Get(b, k) else Get(a, k)
    ensures HasKey(Merge(a, b), k) <==> HasKey(a, k) || HasKey(b, k)
    decreases |b|
  {
    if |b| > 0 {
      var init, last := b[..|b| - 1], b[|b| - 1];
      assert UniqueKeys(init);
      GetMerge(a, init, k);
      HasKeySnoc(b, k);
      if last.0 == k {
        GetSetSame(Merge(a, init), k, last.1);
        LastKeyIsNew(b);
      } else {
        GetSetOther(Merge(a, init), last.0, last.1, k);
      }
    }
  }

  lemma {:induction false} RemoveMembers<K, V>(d: seq<(K, V)>, k: K)
    ensures forall x: (K, V) :: x in Remove(d, k) <==> x in d && x.0 != k
  {
    if |d| > 0 {
      RemoveMembers(d[1..], k);
      assert forall x :: x in d <==> x == d[0] || x in d[1..];
    }
  }

  lemma RemovedFrom<K, V>(d: seq<(K, V)>, k: K, x: (K, V))
    requires x in Remove(d, k)
    ensures x in d && x.0 != k
  {
    RemoveMembers(d, k);
  }

  lemma {:induction false} RemoveAbsent<K, V>(d: seq<(K, V)>, k: K)
    requires !HasKey(d, k)
    ensures Remove(d, k) == d
  {
    if |d| > 0 {
      HasKeyAt(d, 0);
      forall m | 0 <= m < |d| - 1 ensures d[1..][m].0 != k {
        HasKeyAt(d, m + 1);
      }
      RemoveAbsent(d[1..], k);
    }
  }

  lemma UniqueTail<K, V>(d: seq<(K, V)>)
    requires UniqueKeys(d) && |d| > 0
    ensures UniqueKeys(d[1..]) && !HasKey(d[1..], d[0].0)
  {
    forall m | 0 <= m < |d| - 1 ensures d[1..][m].0 != d[0].0 {
      assert d[1..][m] == d[m + 1];
    }
  }

  lemma ConsUnique<K, V>(x: (K, V), t: seq<(K, V)>)
    requires UniqueKeys(t) && !HasKey(t, x.0)
    ensures UniqueKeys([x] + t)
  {
    var r := [x] + t;
    forall i, j | 0 <= i < j < |r| ensures r[i].0 != r[j].0 {
      assert r[j] == t[j - 1];
      if i == 0 {
        HasKeyAt(t, j - 1);
      } else {
        assert r[i] == t[i - 1];
      }
    }
  }

  lemma KeysCons<K, V>(x: (K, V), t: seq<(K, V)>)
    ensures Keys([x] + t) == [x.0] + Keys(t)
  {
    assert ([x] + t)[1..] == t;
  }

  lemma RemoveUnique<K, V>(d: seq<(K, V)>, k: K)
    requires UniqueKeys(d)
    ensures UniqueKeys(Remove(d, k))
  {
    var r := Remove(d, k);
    RemoveMembers(d, k);
    forall i, j | 0 <= i < j < |r| ensures r[i].0 != r[j].0 {
      RemoveOrder(d, k, i, j);
    }
  }

  /** Two entries of `Remove(d, k)` come from two entries of `d`, in the same order. */
  lemma {:induction false} RemoveOrder<K, V>(d: seq<(K, V)>, k: K, i: int, j: int)
    requires 0 <= i < j < |Remove(d, k)|
    ensures exists a, b :: 0 <= a < b < |d| && d[a] == Remove(d, k)[i] && d[b] == Remove(d, k)[j]
  {
    if d[0].0 == k {
      RemoveOrder(d[1..], k, i, j);
      var a, b :| 0 <= a < b < |d[1..]| && d[1..][a] == Remove(d, k)[i] && d[1..][b] == Remove(d, k)[j];
      assert d[a + 1] == d[1..][a] && d[b + 1] == d[1..][b];
    } else {
      var rest := Remove(d[1..], k);
      assert Remove(d, k) == [d[0]] + rest;
      if i == 0 {
        var tail := d[1..];
        var x := rest[j - 1];
        RemovedFrom(tail, k, x);
        var b :| 0 <= b < |d[1..]| && d[1..][b] == rest[j - 1];
        assert d[b + 1] == d[1..][b];
      } else {
        RemoveOrder(d[1..], k, i - 1, j - 1);
        var a, b :| 0 <= a < b < |d[1..]| && d[1..][a] == rest[i - 1] && d[1..][b] == rest[j - 1];
        assert d[a + 1] == d[1..][a] && d[b + 1] == d[1..][b];
      }
    }
  }

  /** In a real dict, popping a key removes its one entry: the keys lose their first `k`. */
  lemma {:induction false} RemoveKeys<K, V>(d: seq<(K, V)>, k: K)
    requires UniqueKeys(d)
    ensures Keys(Remove(d, k)) == if k in Keys(d) then RemoveFirst(Keys(d), k) else Keys(d)
  {
    if |d| > 0 {
      UniqueTail(d);
      KeysCons(d[0], d[1..]);
      assert d == [d[0]] + d[1..];
      RemoveKeys(d[1..], k);
      if d[0].0 == k {
        RemoveAbsent(d[1..], k);
      } else {
        KeysCons(d[0], Remove(d[1..], k));
      }
    }
  }

  /** A key of a real dict has its value as the one entry under that key. */
  lemma GetMember<K, V>(d: seq<(K, V)>, x: (K, V))
    requires UniqueKeys(d) && x in d
    ensures Get(d, x.0) == Some(x.1)
  {
    var i :| 0 <= i < |d| && d[i] == x;
    IndexOfIs(d, x.0, i);
  }

  /** The entries of `d[k] = v` in a real dict: the new pair and the other keys' entries. */
  lemma SetMembers<K, V>(d: seq<(K, V)>, k: K, v: V)
    requires UniqueKeys(d)
    ensures forall x :: x in Set(d, k, v) <==> x == (k, v) || (x in d && x.0 != k)
  {
    var r := Set(d, k, v);
    if HasKey(d, k) {
      var n := IndexOf(d, k);
      forall x | x in d && x.0 != k ensures x in r {
        var i :| 0 <= i < |d| && d[i] == x;
        assert r[i] == x;
      }
      assert r[n] == (k, v);
    }
  }

  /** Popping `k` from a real dict leaves every other key's value alone. */
  lemma GetRemove<K, V>(d: seq<(K, V)>, k: K, k': K)
    requires UniqueKeys(d)
    ensures Get(Remove(d, k), k') == if k' == k then None else Get(d, k')
  {
    var r := Remove(d, k);
    RemoveUnique(d, k);
    RemoveMembers(d, k);
    if HasKey(r, k') {
      var i := IndexOf(r, k');
      RemovedFrom(d, k, r[i]);
      GetMember(d, r[i]);
    }
  }

  lemma {:induction false} RemoveFirstMembers<T>(s: seq<T>, x: T, y: T)
    requires y in RemoveFirst(s, x)
    ensures y in s
  {
    if s[0] != x {
      if y != s[0] {
        RemoveFirstMembers(s[1..], x, y);
      }
    }
  }
}
