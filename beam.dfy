/** The decoder's buckets.  Each bucket is a `PriorityQueue` of `(key, path)`
    tuples: `put` adds a tuple and `get` removes a smallest one.  The decoder
    calls `get` whenever a `put` leaves more than k tuples, so a bucket keeps
    the k largest tuples offered to it.  The heap layout of the queue is not
    modelled: a bucket is the sequence of its tuples, and only its multiset
    matters.  The module also holds `sorted` on a list of tuples. */
module Beam {
  import opened Ordering

  lemma AtMostTransitive(x: Entry, y: Entry, z: Entry)
    requires AtMost(x, y) && AtMost(y, z)
    ensures AtMost(x, z)
  {
    if x != y && y != z {
      BelowTransitive(x, y, z);
    }
  }

  lemma AtMostTotal(x: Entry, y: Entry)
    ensures AtMost(x, y) || AtMost(y, x)
  {
    if x != y {
      BelowTotal(x, y);
    }
  }

  lemma AtMostAntisymmetric(x: Entry, y: Entry)
    requires AtMost(x, y) && AtMost(y, x)
    ensures x == y
  {
    if x != y {
      BelowAsymmetric(x, y);
    }
  }

  /** `bucket` holds the k largest tuples of `offered`, repeats counted: as
      many as there are, up to k, and nothing left out is above anything
      kept. */
  ghost predicate TopK(bucket: multiset<Entry>, offered: multiset<Entry>, k: nat) {
    && bucket <= offered
    && |bucket| == (if |offered| < k then |offered| else k)
    && forall x, y {:trigger AtMost(y, x)} :: x in bucket && y in offered - bucket ==> AtMost(y, x)
  }

  /** Where a smallest tuple of a non-empty queue sits. */
  method MinIndex(q: seq<Entry>) returns (i: nat)
    requires q != []
    ensures i < |q|
    ensures forall j :: 0 <= j < |q| ==> AtMost(q[i], q[j])
  {
    i := 0;
    var n := 1;
    while n < |q|
      invariant 1 <= n <= |q| && i < n
      invariant forall j :: 0 <= j < n ==> AtMost(q[i], q[j])
    {
      if Below(q[n], q[i]) {
        forall j | 0 <= j < n
          ensures AtMost(q[n], q[j])
        {
          AtMostTransitive(q[n], q[i], q[j]);
        }
        i := n;
      } else {
        AtMostTotal(q[n], q[i]);
      }
      n := n + 1;
    }
  }

  /** `PriorityQueue.get`: removes and returns a smallest tuple. */
  method Get(q: seq<Entry>) returns (m: Entry, rest: seq<Entry>)
    requires q != []
    ensures m in q && multiset(rest) == multiset(q) - multiset{m}
    ensures forall j :: 0 <= j < |q| ==> AtMost(m, q[j])
  {
    var i := MinIndex(q);
    m := q[i];
    rest := q[..i] + q[i + 1..];
    assert q == q[..i] + [m] + q[i + 1..];
  }

  /** One `put` into a bucket, followed by the `get` that runs when the
      bucket then holds more than k tuples: the bucket goes on holding the
      k largest tuples offered to it. */
  method Offer(q: seq<Entry>, x: Entry, k: nat, ghost offered: multiset<Entry>) returns (q': seq<Entry>)
    requires TopK(multiset(q), offered, k)
    ensures TopK(multiset(q'), offered + multiset{x}, k)
    ensures |q'| <= k
  {
    q' := q + [x];
    if |q'| > k {
      var m;
      m, q' := Get(q');
      forall y | y in multiset(q) + multiset{x}
        ensures AtMost(m, y)
      {
        assert y in q + [x];
      }
      Evicted(multiset(q), offered, x, m, k);
    } else {
      Kept(multiset(q), offered, x, k);
    }
  }

  /** A bucket with room keeps the new tuple: it then holds everything
      offered. */
  lemma Kept(b: multiset<Entry>, offered: multiset<Entry>, x: Entry, k: nat)
    requires TopK(b, offered, k) && |b| + 1 <= k
    ensures TopK(b + multiset{x}, offered + multiset{x}, k)
  {
    assert offered == b + (offered - b);
    assert offered - b == multiset{};
  }

  /** A full bucket that takes a tuple and then loses a smallest one still
      holds the k largest. */
  lemma Evicted(b: multiset<Entry>, offered: multiset<Entry>, x: Entry, m: Entry, k: nat)
    requires TopK(b, offered, k) && |b| + 1 > k
    requires m in b + multiset{x}
    requires forall y :: y in b + multiset{x} ==> AtMost(m, y)
    ensures TopK(b + multiset{x} - multiset{m}, offered + multiset{x}, k)
  {
    var kept := b + multiset{x} - multiset{m};
    var all := offered + multiset{x};
    assert |kept| == k;
    assert all - kept == (offered - b) + multiset{m};
    forall a, y | a in kept && y in all - kept
      ensures AtMost(y, a)
    {
      if y != m {
        assert y in offered - b;
        if a !in b {
          assert a == x && m != x && m in b;
          AtMostTransitive(y, m, a);
        }
      }
    }
  }

  /** The k largest tuples of a multiset are determined by it: two buckets
      that both hold the k largest of the same offers are equal, so the
      order in which the offers arrive does not matter. */
  lemma TopKUnique(a: multiset<Entry>, b: multiset<Entry>, offered: multiset<Entry>, k: nat)
    requires TopK(a, offered, k) && TopK(b, offered, k)
    ensures a == b
  {
    if a != b {
      var y := Exceeding(b, a);
      var x := Exceeding(a, b);
      assert y in offered - a && x in a;
      assert x in offered - b && y in b;
      AtMostAntisymmetric(x, y);
    }
  }

  /** Of two different multisets of the same size, each has an element it
      holds more often than the other. */
  lemma Exceeding(a: multiset<Entry>, b: multiset<Entry>) returns (x: Entry)
    requires |a| == |b| && a != b
    ensures a[x] > b[x]
  {
    Dominated(a, b);
    assert !(a <= b);
    x :| a[x] > b[x];
  }

  /** A multiset contained in another of the same size is that one. */
  lemma Dominated(a: multiset<Entry>, b: multiset<Entry>)
    requires |a| == |b|
    ensures a <= b ==> a == b
  {
    if a <= b {
      assert b == a + (b - a);
    }
  }

  /** A list of tuples in ascending order. */
  ghost predicate Sorted(s: seq<Entry>) {
    forall i, j :: 0 <= i < j < |s| ==> AtMost(s[i], s[j])
  }

  /** Places a tuple into an ascending list. */
  method Insert(r: seq<Entry>, x: Entry) returns (r': seq<Entry>)
    requires Sorted(r)
    ensures Sorted(r') && multiset(r') == multiset(r) + multiset{x}
  {
    var p := 0;
    while p < |r| && Below(r[p], x)
      invariant p <= |r|
      invariant forall j :: 0 <= j < p ==> Below(r[j], x)
    {
      p := p + 1;
    }
    r' := r[..p] + [x] + r[p..];
    assert r == r[..p] + r[p..];
    InsertSorted(r, x, p);
  }

  lemma InsertSorted(r: seq<Entry>, x: Entry, p: nat)
    requires Sorted(r) && p <= |r|
    requires forall j :: 0 <= j < p ==> Below(r[j], x)
    requires p < |r| ==> !Below(r[p], x)
    ensures Sorted(r[..p] + [x] + r[p..])
  {
    var r' := r[..p] + [x] + r[p..];
    forall i, j | 0 <= i < j < |r'|
      ensures AtMost(r'[i], r'[j])
    {
      if i < p && p < j {
        AtMostTotal(r[p], x);
        AtMostTransitive(x, r[p], r[j - 1]);
        AtMostTransitive(r[i], x, r[j - 1]);
      } else if i == p {
        AtMostTotal(r[p], x);
        AtMostTransitive(x, r[p], r[j - 1]);
      }
    }
  }

  /** `sorted(...)` on a list of tuples. */
  method Sort(s: seq<Entry>) returns (r: seq<Entry>)
    ensures Sorted(r) && multiset(r) == multiset(s)
  {
    r := [];
    for n := 0 to |s|
      invariant Sorted(r) && multiset(r) == multiset(s[..n])
    {
      r := Insert(r, s[n]);
      assert s[..n + 1] == s[..n] + [s[n]];
    }
    assert s[..|s|] == s;
  }

  /** Tuples form a total order, so a list has only one ascending
      arrangement: whatever algorithm sorts it, the result is the same. */
  lemma {:induction false} SortedUnique(s: seq<Entry>, t: seq<Entry>)
    requires Sorted(s) && Sorted(t) && multiset(s) == multiset(t)
    ensures s == t
    decreases |s|
  {
    assert |s| == |multiset(s)| == |t|;
    if s != [] {
      Least(s, t);
      Least(t, s);
      AtMostAntisymmetric(s[0], t[0]);
      SortedTail(s);
      SortedTail(t);
      SortedUnique(s[1..], t[1..]);
      assert s == [s[0]] + s[1..] && t == [t[0]] + t[1..];
    }
  }

  /** Every multiset of tuples has an ascending arrangement. */
  lemma {:induction false} SortedExists(m: multiset<Entry>) returns (s: seq<Entry>)
    ensures Sorted(s) && multiset(s) == m
    decreases |m|
  {
    if m == multiset{} {
      s := [];
    } else {
      var x := Smallest(m);
      var rest := SortedExists(m - multiset{x});
      s := [x] + rest;
      forall i, j | 0 <= i < j < |s|
        ensures AtMost(s[i], s[j])
      {
        if i == 0 {
          assert s[j] in multiset(rest);
        }
      }
    }
  }

  /** A smallest tuple of a non-empty multiset. */
  lemma {:induction false} Smallest(m: multiset<Entry>) returns (x: Entry)
    requires m != multiset{}
    ensures x in m && forall y :: y in m ==> AtMost(x, y)
    decreases |m|
  {
    var y :| y in m;
    var rest := m - multiset{y};
    if rest == multiset{} {
      x := y;
      assert m == rest + multiset{y};
    } else {
      var z := Smallest(rest);
      AtMostTotal(z, y);
      if AtMost(z, y) {
        x := z;
      } else {
        x := y;
        forall w | w in m
          ensures AtMost(x, w)
        {
          if w != y {
            AtMostTransitive(y, z, w);
          }
        }
      }
    }
  }

  /** The first tuple of an ascending list is at most any tuple of the list. */
  lemma Least(s: seq<Entry>, t: seq<Entry>)
    requires Sorted(t) && s != [] && multiset(s) == multiset(t)
    ensures AtMost(t[0], s[0])
  {
    assert s[0] in multiset(t);
    var i :| 0 <= i < |t| && t[i] == s[0];
  }

  lemma SortedTail(s: seq<Entry>)
    requires Sorted(s) && s != []
    ensures Sorted(s[1..]) && multiset(s[1..]) == multiset(s) - multiset{s[0]}
  {
    assert s == [s[0]] + s[1..];
  }
}
