/** The two collection patterns the core repeats: filling a map from a
    slice with `m[key(x)] = x` in slice order, and summing one field over a
    slice with `acc += f(x)`. */
module Collections {

  /** No later element of `xs` has the key of `xs[i]`. */
  ghost predicate LastWithKey<K, V>(xs: seq<V>, key: V -> K, i: int)
    requires 0 <= i < |xs|
  {
    forall j :: i < j < |xs| ==> key(xs[j]) != key(xs[i])
  }

  /** The map left by `for _, x := range xs { m[key(x)] = x }` on an empty
      map: one entry per distinct key, a later element overwriting an
      earlier one. */
  function IndexBy<K, V>(xs: seq<V>, key: V -> K): (m: map<K, V>)
    ensures m.Keys == Keys(xs, key)
    ensures forall k :: k in m ==> key(m[k]) == k && m[k] in xs
    ensures forall i :: 0 <= i < |xs| && LastWithKey(xs, key, i) ==> m[key(xs[i])] == xs[i]
  {
    if |xs| == 0 then map[]
    else
      var m := IndexBy(xs[..|xs| - 1], key);
      IndexByStep(xs, key, m);
      m[key(xs[|xs| - 1]) := xs[|xs| - 1]]
  }

  /** One more element is stored under its key, replacing what was there. */
  lemma IndexByAppend<K, V>(xs: seq<V>, x: V, key: V -> K)
    ensures IndexBy(xs + [x], key) == IndexBy(xs, key)[key(x) := x]
  {
    assert (xs + [x])[..|xs|] == xs;
  }

  /** The keys of the elements of `xs`. */
  ghost function Keys<K, V>(xs: seq<V>, key: V -> K): set<K> {
    set i | 0 <= i < |xs| :: key(xs[i])
  }

  lemma IndexByStep<K, V>(xs: seq<V>, key: V -> K, m: map<K, V>)
    requires |xs| > 0
    requires m.Keys == Keys(xs[..|xs| - 1], key)
    requires forall k :: k in m ==> key(m[k]) == k && m[k] in xs[..|xs| - 1]
    requires forall i :: 0 <= i < |xs| - 1 && LastWithKey(xs[..|xs| - 1], key, i) ==> m[key(xs[i])] == xs[i]
    ensures var m' := m[key(xs[|xs| - 1]) := xs[|xs| - 1]];
      && m'.Keys == Keys(xs, key)
      && (forall k :: k in m' ==> key(m'[k]) == k && m'[k] in xs)
      && (forall i :: 0 <= i < |xs| && LastWithKey(xs, key, i) ==> m'[key(xs[i])] == xs[i])
  {
    var init := xs[..|xs| - 1];
    var last := xs[|xs| - 1];
    var m' := m[key(last) := last];
    assert forall i :: 0 <= i < |init| ==> init[i] == xs[i];
    assert Keys(xs, key) == Keys(init, key) + {key(last)} by {
      forall k | k in Keys(xs, key) ensures k in Keys(init, key) + {key(last)} {
        var i :| 0 <= i < |xs| && key(xs[i]) == k;
        if i < |init| { assert key(init[i]) == k; }
      }
    }
    forall i | 0 <= i < |xs| && LastWithKey(xs, key, i) ensures m'[key(xs[i])] == xs[i] {
      if i < |init| {
        assert key(xs[i]) != key(last);
        assert LastWithKey(init, key, i);
      }
    }
  }

  /** The order in which `for k := range m` visits the keys of a map:
      each key exactly once, in an order the language leaves open. */
  method IterationOrder<K, V>(m: map<K, V>) returns (order: seq<K>)
    ensures multiset(order) == multiset(m.Keys)
    ensures forall i :: 0 <= i < |order| ==> order[i] in m
  {
    var keys := m.Keys;
    order := [];
    while keys != {}
      invariant keys <= m.Keys
      invariant multiset(order) + multiset(keys) == multiset(m.Keys)
      decreases |keys|
    {
      var k :| k in keys;
      order := order + [k];
      keys := keys - {k};
    }
    assert multiset(keys) == multiset{};
    forall i | 0 <= i < |order| ensures order[i] in m {
      assert order[i] in multiset(order);
      assert order[i] in multiset(m.Keys);
    }
  }

  /** The total of `acc += f(x)` over `xs`, accumulated left to right. */
  function SumBy<T>(xs: seq<T>, f: T -> real): (r: real)
    ensures (forall i :: 0 <= i < |xs| ==> f(xs[i]) >= 0.0) ==> r >= 0.0
  {
    if |xs| == 0 then 0.0 else SumBy(xs[..|xs| - 1], f) + f(xs[|xs| - 1])
  }

  /** One more element adds its term. */
  lemma SumByAppend<T>(xs: seq<T>, x: T, f: T -> real)
    ensures SumBy(xs + [x], f) == SumBy(xs, f) + f(x)
  {
    assert (xs + [x])[..|xs|] == xs;
  }

  /** A sum of three per-element terms is the sum of the three totals. */
  lemma {:induction false} SumBySplit<T>(xs: seq<T>, total: T -> real, f: T -> real, g: T -> real, h: T -> real)
    requires forall x :: total(x) == f(x) + g(x) + h(x)
    ensures SumBy(xs, total) == SumBy(xs, f) + SumBy(xs, g) + SumBy(xs, h)
    decreases |xs|
  {
    if |xs| > 0 {
      SumBySplit(xs[..|xs| - 1], total, f, g, h);
    }
  }
}
