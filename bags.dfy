/** Generic facts about counters (maps from keys to counts), unions of
    multisets indexed by a map, sums of map values, and the two projections
    of a sequence of pairs.  The estimators and the decoder iterate over
    dictionaries in an unspecified order; the functions here are defined by
    choosing an arbitrary key, and the `Remove` lemmas show that the choice
    does not matter. */
module Bags {
  import opened Fractions

  /** `m` is a counter for `ms`: it holds exactly the elements of `ms`, each
      with its multiplicity (a Python `Counter`, or a `defaultdict(int)` that
      is only ever incremented). */
  ghost predicate CountsOf<K(!new)>(m: map<K, nat>, ms: multiset<K>) {
    && (forall x :: x in m <==> x in ms)
    && (forall x :: x in m ==> m[x] == ms[x])
  }

  /** `counter[x] += 1` */
  function Bump<K>(m: map<K, nat>, x: K): map<K, nat> {
    m[x := (if x in m then m[x] else 0) + 1]
  }

  lemma BumpCounts<K(!new)>(m: map<K, nat>, ms: multiset<K>, x: K)
    requires CountsOf(m, ms)
    ensures CountsOf(Bump(m, x), ms + multiset{x})
  {
  }

  /** `sum(counter.values())`: the size of the counted multiset. */
  method SumValues<K(!new)>(m: map<K, nat>, ghost ms: multiset<K>) returns (total: nat)
    requires CountsOf(m, ms)
    ensures total == |ms|
  {
    total := 0;
    var keys := m.Keys;
    ghost var rest := ms;
    while keys != {}
      invariant keys <= m.Keys
      invariant forall x :: x in rest <==> x in keys
      invariant forall x :: x in keys ==> rest[x] == ms[x]
      invariant total + |rest| == |ms|
      decreases keys
    {
      var x :| x in keys;
      total := total + m[x];
      rest := rest[x := 0];
      keys := keys - {x};
    }
    assert forall x :: rest[x] == 0;
    assert rest == multiset{};
  }

  /** The union of all multisets stored in `m`. */
  ghost function MUnion<K, V>(m: map<K, multiset<V>>): multiset<V>
    decreases |m|
  {
    if |m| == 0 then multiset{} else var u :| u in m; m[u] + MUnion(m - {u})
  }

  /** Maps with the same keys and the same value at each key are equal. */
  lemma SameMaps<K, V>(m: map<K, V>, m': map<K, V>)
    requires m.Keys == m'.Keys && forall u :: u in m ==> m[u] == m'[u]
    ensures m == m'
  {
  }

  /** The union does not depend on which key is taken first. */
  lemma {:induction false} MUnionRemove<K, V>(m: map<K, multiset<V>>, y: K)
    requires y in m
    ensures MUnion(m) == m[y] + MUnion(m - {y})
    decreases |m|
  {
    var u :| u in m && MUnion(m) == m[u] + MUnion(m - {u});
    if u != y {
      RemoveBoth(m, u, y);
      MUnionRemove(m - {u}, y);
      MUnionRemove(m - {y}, u);
    }
  }

  /** Removing two keys one after the other, in either order. */
  lemma RemoveBoth<K, V>(m: map<K, V>, u: K, y: K)
    requires u in m && y in m && u != y
    ensures m - {u} - {y} == m - {y} - {u}
    ensures |m - {u}| == |m| - 1 && |m - {y}| == |m| - 1
    ensures y in m - {u} && u in m - {y}
  {
    assert m - {u} - {y} == m - {u, y};
    assert m - {y} - {u} == m - {u, y};
  }

  lemma MUnionAdd<K, V>(m: map<K, multiset<V>>, u: K, s: multiset<V>)
    requires u !in m
    ensures MUnion(m[u := s]) == MUnion(m) + s
  {
    MUnionRemove(m[u := s], u);
    assert m[u := s] - {u} == m;
  }

  /** Taking one more key into a union that is built key by key. */
  lemma MUnionGrow<K, V>(m: map<K, multiset<V>>, todo: set<K>, u: K)
    requires u in todo && u in m
    ensures MUnion(m - (todo - {u})) == MUnion(m - todo) + m[u]
  {
    assert m - (todo - {u}) == (m - todo)[u := m[u]];
    MUnionAdd(m - todo, u, m[u]);
  }

  /** The union built key by key starts empty and ends with every key. */
  lemma MUnionEnds<K, V>(m: map<K, multiset<V>>)
    ensures MUnion(m - m.Keys) == multiset{} && MUnion(m - {}) == MUnion(m)
  {
    assert m - m.Keys == map[];
    assert m - {} == m;
  }

  lemma {:induction false} MUnionMember<K(!new), V>(m: map<K, multiset<V>>, x: V)
    ensures x in MUnion(m) <==> exists u :: u in m && x in m[u]
    decreases |m|
  {
    if |m| > 0 {
      var u :| u in m;
      MUnionRemove(m, u);
      MUnionMember(m - {u}, x);
      if x in MUnion(m - {u}) {
        var w :| w in m - {u} && x in (m - {u})[w];
        assert w in m && x in m[w];
      }
      if exists w :: w in m && x in m[w] {
        var w :| w in m && x in m[w];
        if w != u {
          assert w in m - {u} && x in (m - {u})[w];
        }
      }
    }
  }

  /** Two indexed unions whose parts have equal sizes have equal sizes. */
  lemma {:induction false} MUnionCard<K, V, W>(a: map<K, multiset<V>>, b: map<K, multiset<W>>)
    requires a.Keys == b.Keys
    requires forall u :: u in a ==> |a[u]| == |b[u]|
    ensures |MUnion(a)| == |MUnion(b)|
    decreases |a|
  {
    if |a| > 0 {
      var u :| u in a;
      MUnionRemove(a, u);
      MUnionRemove(b, u);
      MUnionCard(a - {u}, b - {u});
    }
  }

  /** The sum of the values of `m`. */
  ghost function Sum<K>(m: map<K, real>): real
    decreases |m|
  {
    if |m| == 0 then 0.0 else var x :| x in m; m[x] + Sum(m - {x})
  }

  /** The key `Sum` takes first. */
  lemma SumFirst<K>(m: map<K, real>) returns (u: K)
    requires |m| > 0
    ensures u in m && Sum(m) == m[u] + Sum(m - {u})
  {
    u :| u in m && Sum(m) == m[u] + Sum(m - {u});
  }

  /** The sum does not depend on which key is taken first. */
  lemma {:induction false} SumRemove<K>(m: map<K, real>, y: K)
    requires y in m
    ensures Sum(m) == m[y] + Sum(m - {y})
    decreases |m|
  {
    var u := SumFirst(m);
    if u != y {
      var withoutU, withoutY := m - {u}, m - {y};
      SumRemove(withoutU, y);
      SumRemove(withoutY, u);
      assert withoutU - {y} == withoutY - {u};
    }
  }

  /** A map that sends each element of `ms` to its multiplicity divided by
      `d` sums to `|ms| / d`: relative frequencies add up. */
  lemma {:induction false} SumOfFrequencies<K(!new)>(m: map<K, real>, ms: multiset<K>, d: real)
    requires d > 0.0
    requires forall x :: x in m <==> x in ms
    requires forall x :: x in m ==> m[x] == ms[x] as real / d
    ensures Sum(m) == |ms| as real / d
    decreases |m|, 1
  {
    if |m| == 0 {
      assert forall x :: ms[x] == 0;
      assert ms == multiset{};
    } else {
      var u :| u in m;
      SumOfFrequenciesFrom(m, ms, d, u);
    }
  }

  /** The inductive step of `SumOfFrequencies`, taking `u` first. */
  lemma {:induction false} SumOfFrequenciesFrom<K(!new)>(m: map<K, real>, ms: multiset<K>, d: real, u: K)
    requires d > 0.0 && u in m
    requires forall x :: x in m <==> x in ms
    requires forall x :: x in m ==> m[x] == ms[x] as real / d
    ensures Sum(m) == |ms| as real / d
    decreases |m|, 0
  {
    SumRemove(m, u);
    var smaller, rest := m - {u}, ms[u := 0];
    FrequenciesWithout(m, ms, d, u);
    SumOfFrequencies(smaller, rest, d);
    AddFractions(ms[u], |rest|, |ms|, d, m[u], Sum(smaller), Sum(m));
  }

  /** Removing one key from both sides keeps the frequency relation. */
  lemma FrequenciesWithout<K(!new)>(m: map<K, real>, ms: multiset<K>, d: real, u: K)
    requires d > 0.0
    requires forall x :: x in m <==> x in ms
    requires forall x :: x in m ==> m[x] == ms[x] as real / d
    ensures forall x :: x in m - {u} <==> x in ms[u := 0]
    ensures forall x :: x in m - {u} ==> (m - {u})[x] == ms[u := 0][x] as real / d
    ensures |ms[u := 0]| + ms[u] == |ms|
  {
  }

  /** The first components of a sequence of pairs. */
  function Firsts<A, B>(s: seq<(A, B)>): (r: seq<A>)
    ensures |r| == |s| && forall i :: 0 <= i < |s| ==> r[i] == s[i].0
  {
    if s == [] then [] else [s[0].0] + Firsts(s[1..])
  }

  /** The second components of a sequence of pairs. */
  function Seconds<A, B>(s: seq<(A, B)>): (r: seq<B>)
    ensures |r| == |s| && forall i :: 0 <= i < |s| ==> r[i] == s[i].1
  {
    if s == [] then [] else [s[0].1] + Seconds(s[1..])
  }

  /** The second components of the pairs whose first component is `a`. */
  function RightOf<A(==), B>(s: seq<(A, B)>, a: A): seq<B> {
    if s == [] then [] else (if s[0].0 == a then [s[0].1] else []) + RightOf(s[1..], a)
  }

  /** The first components of the pairs whose second component is `b`. */
  function LeftOf<A, B(==)>(s: seq<(A, B)>, b: B): seq<A> {
    if s == [] then [] else (if s[0].1 == b then [s[0].0] else []) + LeftOf(s[1..], b)
  }

  lemma SecondsMember<A, B>(s: seq<(A, B)>, p: (A, B))
    requires p in s
    ensures p.1 in Seconds(s)
  {
    var i :| 0 <= i < |s| && s[i] == p;
    assert Seconds(s)[i] == p.1;
  }

  /** `y` occurs in `RightOf(s, a)` exactly as often as `(a, y)` occurs in
      `s`, and `RightOf(s, a)` is as long as `a` is frequent among the first
      components. */
  lemma RightOfCounts<A, B(!new)>(s: seq<(A, B)>, a: A)
    ensures forall y :: multiset(RightOf(s, a))[y] == multiset(s)[(a, y)]
    ensures |RightOf(s, a)| == multiset(Firsts(s))[a]
  {
    forall y ensures multiset(RightOf(s, a))[y] == multiset(s)[(a, y)] {
      RightOfCount(s, a, y);
    }
    RightOfLength(s, a);
  }

  lemma {:induction false} RightOfCount<A, B>(s: seq<(A, B)>, a: A, y: B)
    ensures multiset(RightOf(s, a))[y] == multiset(s)[(a, y)]
  {
    if s != [] {
      RightOfCount(s[1..], a, y);
      assert s == [s[0]] + s[1..];
    }
  }

  lemma {:induction false} RightOfLength<A, B>(s: seq<(A, B)>, a: A)
    ensures |RightOf(s, a)| == multiset(Firsts(s))[a]
  {
    if s != [] {
      RightOfLength(s[1..], a);
      assert Firsts(s) == [s[0].0] + Firsts(s[1..]);
    }
  }

  /** The mirror image of `RightOfCounts`. */
  lemma LeftOfCounts<A(!new), B>(s: seq<(A, B)>, b: B)
    ensures forall x :: multiset(LeftOf(s, b))[x] == multiset(s)[(x, b)]
    ensures |LeftOf(s, b)| == multiset(Seconds(s))[b]
  {
    forall x ensures multiset(LeftOf(s, b))[x] == multiset(s)[(x, b)] {
      LeftOfCount(s, b, x);
    }
    LeftOfLength(s, b);
  }

  lemma {:induction false} LeftOfCount<A, B>(s: seq<(A, B)>, b: B, x: A)
    ensures multiset(LeftOf(s, b))[x] == multiset(s)[(x, b)]
  {
    if s != [] {
      LeftOfCount(s[1..], b, x);
      assert s == [s[0]] + s[1..];
    }
  }

  lemma {:induction false} LeftOfLength<A, B>(s: seq<(A, B)>, b: B)
    ensures |LeftOf(s, b)| == multiset(Seconds(s))[b]
  {
    if s != [] {
      LeftOfLength(s[1..], b);
      assert Seconds(s) == [s[0].1] + Seconds(s[1..]);
    }
  }

  /** A pair is never more frequent than its first or second component. */
  lemma {:induction false} PairCountBounded<A(!new), B(!new)>(s: seq<(A, B)>, a: A, b: B)
    ensures multiset(s)[(a, b)] <= multiset(Firsts(s))[a]
    ensures multiset(s)[(a, b)] <= multiset(Seconds(s))[b]
  {
    RightOfCounts(s, a);
    LeftOfCounts(s, b);
    assert multiset(RightOf(s, a))[b] <= |multiset(RightOf(s, a))|;
    assert multiset(LeftOf(s, b))[a] <= |multiset(LeftOf(s, b))|;
  }

  /** An element of a sequence occurs at least once and at most |s| times. */
  lemma OccurrenceBounds<T>(s: seq<T>, x: T)
    requires x in s
    ensures 1 <= multiset(s)[x] <= |s|
  {
    assert |multiset(s)| == |s|;
    assert multiset{x} <= multiset(s);
  }

  /** `f` applied to every element, in order. */
  function MapAll<A, B>(f: A -> B, s: seq<A>): (r: seq<B>)
    ensures |r| == |s|
    decreases |s|
  {
    if s == [] then [] else MapAll(f, s[..|s| - 1]) + [f(s[|s| - 1])]
  }

  lemma MapAllStep<A, B>(f: A -> B, s: seq<A>, j: nat)
    requires j < |s|
    ensures MapAll(f, s[..j + 1]) == MapAll(f, s[..j]) + [f(s[j])]
    ensures multiset(MapAll(f, s[..j + 1])) == multiset(MapAll(f, s[..j])) + multiset{f(s[j])}
  {
    assert s[..j + 1][..j] == s[..j];
  }

  /** Mapping commutes with concatenation. */
  lemma {:induction false} MapAllAppend<A, B>(f: A -> B, a: seq<A>, b: seq<A>)
    ensures MapAll(f, a + b) == MapAll(f, a) + MapAll(f, b)
    decreases |b|
  {
    if b == [] {
      assert a + b == a;
    } else {
      var n := |b| - 1;
      assert (a + b)[..|a + b| - 1] == a + b[..n];
      MapAllAppend(f, a, b[..n]);
    }
  }

  /** The images of a sequence, as a multiset, depend only on its
      multiset: the order in which a bucket is walked does not matter. */
  lemma {:induction false} MapAllPermutation<A, B>(f: A -> B, s: seq<A>, s': seq<A>)
    requires multiset(s) == multiset(s')
    ensures multiset(MapAll(f, s)) == multiset(MapAll(f, s'))
    decreases |s|
  {
    if s != [] {
      var n := |s| - 1;
      var x := s[n];
      assert x in multiset(s');
      var i :| 0 <= i < |s'| && s'[i] == x;
      var left, right := s'[..i], s'[i + 1..];
      assert s' == left + ([x] + right);
      assert s == s[..n] + [x];
      assert multiset(s[..n]) == multiset(s) - multiset{x};
      assert multiset(left + right) == multiset(s') - multiset{x};
      MapAllPermutation(f, s[..n], left + right);
      MapAllAppend(f, left, [x] + right);
      MapAllAppend(f, [x], right);
      MapAllAppend(f, left, right);
      assert MapAll(f, [x]) == [f(x)];
    }
  }

  lemma {:induction false} MapAllMember<A, B>(f: A -> B, s: seq<A>, y: B) returns (j: nat)
    requires y in MapAll(f, s)
    ensures j < |s| && y == f(s[j])
    decreases |s|
  {
    var n := |s| - 1;
    if y == f(s[n]) {
      j := n;
    } else {
      assert y in MapAll(f, s[..n]);
      j := MapAllMember(f, s[..n], y);
      assert s[..n][j] == s[j];
    }
  }
}
