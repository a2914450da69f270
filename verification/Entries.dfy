/** A map as a list of entries, in the order in which it is printed. */
module Entries {
  import opened Wrappers
  import opened Sequences

  /** The last entry of a key wins. */
  function MapOf<K, V>(es: seq<(K, V)>): map<K, V> {
    if es == [] then map[] else MapOf(Front(es))[Last(es).0 := Last(es).1]
  }

  ghost predicate DistinctKeys<K, V>(es: seq<(K, V)>) {
    forall i, j :: 0 <= i < j < |es| ==> es[i].0 != es[j].0
  }

  lemma {:induction false} MapOfFinds<K, V>(es: seq<(K, V)>, i: nat)
    requires DistinctKeys(es) && i < |es|
    ensures es[i].0 in MapOf(es) && MapOf(es)[es[i].0] == es[i].1
  {
    if i < |es| - 1 {
      MapOfFinds(Front(es), i);
    }
  }

  lemma {:induction false} Enumerate<K, V>(m: map<K, V>) returns (es: seq<(K, V)>)
    ensures MapOf(es) == m
    ensures forall i :: 0 <= i < |es| ==> es[i].0 in m && m[es[i].0] == es[i].1
    ensures DistinctKeys(es)
    decreases |m|
  {
    if m == map[] {
      es := [];
    } else {
      var entry :| entry in m.Items;
      var k := entry.0;
      var front := Enumerate(m - {k});
      es := front + [(k, m[k])];
      Snoc(front, (k, m[k]));
      assert (m - {k})[k := m[k]] == m;
    }
  }

  lemma OneEntry<V>(before: map<string, V>, after: map<string, V>, key: string)
    requires key in before && after.Keys == before.Keys
    requires forall k :: k in before && k != key ==> after[k] == before[k]
    ensures after == before[key := after[key]]
  {
  }

  // ------------------------------------------------------------------ the last one wins

  ghost predicate LastAt<T>(xs: seq<T>, value: T -> Option<int>, i: int) {
    0 <= i < |xs| && value(xs[i]).Some? && forall j :: i < j < |xs| ==> value(xs[j]) == None
  }

  /** Afterwards a number is the value of the last element that has one, or else what it was before. */
  ghost predicate LastOr<T>(xs: seq<T>, value: T -> Option<int>, before: int, after: int) {
    || (after == before && forall i :: 0 <= i < |xs| ==> value(xs[i]) == None)
    || exists i :: LastAt(xs, value, i) && value(xs[i]) == Some(after)
  }

  function Or(value: Option<int>, before: int): int {
    if value.Some? then value.value else before
  }

  lemma LastOrSnoc<T>(xs: seq<T>, x: T, value: T -> Option<int>, before: int, after: int)
    requires LastOr(xs, value, before, after)
    ensures LastOr(xs + [x], value, before, Or(value(x), after))
  {
    var ys := xs + [x];
    assert forall i :: 0 <= i < |xs| ==> ys[i] == xs[i];
    if value(x).Some? {
      assert LastAt(ys, value, |xs|);
    } else if i :| LastAt(xs, value, i) && value(xs[i]) == Some(after) {
      assert LastAt(ys, value, i);
    }
  }

  lemma LastOrIsUnique<T>(xs: seq<T>, value: T -> Option<int>, before: int, a: int, b: int)
    requires LastOr(xs, value, before, a) && LastOr(xs, value, before, b)
    ensures a == b
  {
  }

  /** Lists whose elements have the same values, one by one, say the same. */
  lemma LastOrSame<S, T>(
    xs: seq<S>, f: S -> Option<int>, ys: seq<T>, g: T -> Option<int>, before: int, after: int)
    requires |xs| == |ys| && forall i :: 0 <= i < |xs| ==> f(xs[i]) == g(ys[i])
    requires LastOr(xs, f, before, after)
    ensures LastOr(ys, g, before, after)
  {
    if i :| LastAt(xs, f, i) && f(xs[i]) == Some(after) {
      assert LastAt(ys, g, i);
    }
  }

  type Entry = (string, int)

  /** The value of an entry with the given key. */
  function EntryOf(key: string): Entry -> Option<int> {
    (e: Entry) => if e.0 == key then Some(e.1) else None
  }
}
