/** Sums as Python's `sum(...)` over a generator computes them: over a list
    (`SumSeq`) and over the values of a dict (`Sum`). A dict sum does not
    depend on the order in which the keys are visited; `SumRemove` is the
    lemma that says so and is what every loop over a key set uses. */
module Sums {

  /** `sum(f(x) for x in s)`, accumulated left to right. */
  function SumSeq<T>(s: seq<T>, f: T -> real): real {
    if |s| == 0 then 0.0 else SumSeq(s[..|s| - 1], f) + f(s[|s| - 1])
  }

  lemma {:induction false} SumSeqAppend<T>(a: seq<T>, b: seq<T>, f: T -> real)
    ensures SumSeq(a + b, f) == SumSeq(a, f) + SumSeq(b, f)
    decreases |b|
  {
    if |b| == 0 {
      assert a + b == a;
    } else {
      var b' := b[..|b| - 1];
      assert (a + b)[..|a + b| - 1] == a + b';
      SumSeqAppend(a, b', f);
    }
  }

  /** Reordering the elements does not change the sum. */
  lemma {:induction false} SumSeqPermutation<T>(a: seq<T>, b: seq<T>, f: T -> real)
    requires multiset(a) == multiset(b)
    ensures SumSeq(a, f) == SumSeq(b, f)
    decreases |a|
  {
    if |a| != 0 {
      var x := a[|a| - 1];
      var a' := a[..|a| - 1];
      assert a == a' + [x];
      assert multiset(a') == multiset(a) - multiset{x};
      assert x in multiset(b);
      var i :| 0 <= i < |b| && b[i] == x;
      var b' := b[..i] + b[i + 1..];
      MultisetRemoveAt(b, i);
      assert multiset(a') == multiset(b');
      SumSeqPermutation(a', b', f);
      SumSeqRemoveAt(b, i, f);
      assert SumSeq(a, f) == SumSeq(a', f) + f(x);
    }
  }

  lemma MultisetRemoveAt<T>(b: seq<T>, i: nat)
    requires i < |b|
    ensures multiset(b[..i] + b[i + 1..]) == multiset(b) - multiset{b[i]}
  {
    assert b == b[..i] + [b[i]] + b[i + 1..];
  }

  /** Taking one element out of a list takes its value out of the sum. */
  lemma SumSeqRemoveAt<T>(b: seq<T>, i: nat, f: T -> real)
    requires i < |b|
    ensures SumSeq(b, f) == SumSeq(b[..i] + b[i + 1..], f) + f(b[i])
  {
    var left, right := b[..i], b[i + 1..];
    var single := [b[i]];
    assert b == left + (single + right);
    SumSeqAppend(left, single + right, f);
    SumSeqAppend(single, right, f);
    SumSeqAppend(left, right, f);
    SumSeqSingle(b[i], f);
  }

  lemma SumSeqSingle<T>(x: T, f: T -> real)
    ensures SumSeq([x], f) == f(x)
  {
    assert [x][..0] == [];
  }

  ghost function Sum<K, V>(m: map<K, V>, f: V -> real): real
    decreases |m|
  {
    if |m| == 0 then 0.0
    else
      var k :| k in m;
      f(m[k]) + Sum(m - {k}, f)
  }

  /** `sum(f(v) for v in m.values())`, visiting the keys in any order. */
  method SumValues<K, V>(m: map<K, V>, f: V -> real) returns (total: real)
    ensures total == Sum(m, f)
  {
    total := 0.0;
    var rest := m;
    while rest != map[]
      invariant total + Sum(rest, f) == Sum(m, f)
      decreases |rest|
    {
      var k :| k in rest;
      SumRemove(rest, f, k);
      total := total + f(rest[k]);
      rest := rest - {k};
    }
  }

  /** `sum(1 for v in m.values() if p(v))`, visiting the keys in any order. */
  method CountValues<K, V>(m: map<K, V>, p: V -> bool) returns (n: nat)
    ensures n == Count(m, p)
  {
    n := 0;
    var rest := m;
    while rest != map[]
      invariant n + Count(rest, p) == Count(m, p)
      decreases |rest|
    {
      var k :| k in rest;
      CountRemove(rest, p, k);
      if p(rest[k]) {
        n := n + 1;
      }
      rest := rest - {k};
    }
    CountAtMostSize(rest, p);
  }

  /** The number of keys whose value satisfies `p`. */
  function Count<K, V>(m: map<K, V>, p: V -> bool): nat {
    |set k | k in m && p(m[k])|
  }

  /** Removing any key, not only the one the definition picks, peels off its value. */
  lemma {:induction false} SumRemove<K, V>(m: map<K, V>, f: V -> real, k: K)
    requires k in m
    ensures Sum(m, f) == f(m[k]) + Sum(m - {k}, f)
    decreases |m|, 1
  {
    assert |m| != 0 by {
      assert k in m.Keys;
    }
    var j :| j in m && Sum(m, f) == f(m[j]) + Sum(m - {j}, f);
    if j != k {
      SumSwap(m, f, j, k);
    }
  }

  /** Peeling off two different keys first gives the same sum. */
  lemma {:induction false} SumSwap<K, V>(m: map<K, V>, f: V -> real, j: K, k: K)
    requires j in m && k in m && j != k
    ensures f(m[j]) + Sum(m - {j}, f) == f(m[k]) + Sum(m - {k}, f)
    decreases |m|, 0
  {
    var mj := m - {j};
    var mk := m - {k};
    assert k in mj && j in mk;
    assert mj - {k} == mk - {j};
    assert |mj| == |m| - 1 && |mk| == |m| - 1;
    SumRemove(mj, f, k);
    SumRemove(mk, f, j);
  }

  /** Inserting or overwriting one key changes the sum by the difference of its values. */
  lemma SumUpdate<K, V>(m: map<K, V>, f: V -> real, k: K, v: V)
    ensures Sum(m[k := v], f) == Sum(m - {k}, f) + f(v)
    ensures k !in m ==> Sum(m[k := v], f) == Sum(m, f) + f(v)
    ensures k in m ==> Sum(m[k := v], f) == Sum(m, f) - f(m[k]) + f(v)
  {
    var m' := m[k := v];
    assert k in m' && m'[k] == v;
    SumRemove(m', f, k);
    assert m' - {k} == m - {k};
    assert Sum(m', f) == f(v) + Sum(m - {k}, f);
    if k in m {
      SumRemove(m, f, k);
    } else {
      assert m - {k} == m;
    }
  }


  /** Removing a key peels off its contribution to the count. */
  lemma CountRemove<K, V>(m: map<K, V>, p: V -> bool, k: K)
    requires k in m
    ensures Count(m, p) == (if p(m[k]) then 1 else 0) + Count(m - {k}, p)
  {
    var all := set j | j in m && p(m[j]);
    var rest := set j | j in m - {k} && p((m - {k})[j]);
    if p(m[k]) {
      assert all == rest + {k};
    } else {
      assert all == rest;
    }
  }

  lemma CountAtMostSize<K, V>(m: map<K, V>, p: V -> bool)
    ensures Count(m, p) <= |m|
  {
    var s := set k | k in m && p(m[k]);
    assert s <= m.Keys;
    SubsetCardinality(s, m.Keys);
  }

  lemma {:induction false} SubsetCardinality<T>(a: set<T>, b: set<T>)
    requires a <= b
    ensures |a| <= |b|
    decreases b
  {
    if a != {} {
      var x :| x in a;
      SubsetCardinality(a - {x}, b - {x});
    }
  }
}
