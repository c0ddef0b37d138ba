/** Python's built-in ordering of the values the decoder compares: strings
    compare by code point, lexicographically, a proper prefix first; lists
    compare element by element the same way; a `(key, path)` tuple compares
    its keys first and its paths only when the keys are equal.  The
    priority queues and `sorted` rely on this being a strict total order. */
module Ordering {

  /** `a < b` on Python strings. */
  predicate StrLess(a: string, b: string)
    decreases |a|
  {
    if a == [] then b != []
    else if b == [] then false
    else if a[0] != b[0] then a[0] < b[0]
    else StrLess(a[1..], b[1..])
  }

  /** `p < q` on Python lists of strings. */
  predicate ListLess(p: seq<string>, q: seq<string>)
    decreases |p|
  {
    if p == [] then q != []
    else if q == [] then false
    else if p[0] != q[0] then StrLess(p[0], q[0])
    else ListLess(p[1..], q[1..])
  }

  lemma {:induction false} StrLessIrreflexive(a: string)
    ensures !StrLess(a, a)
    decreases |a|
  {
    if a != [] {
      StrLessIrreflexive(a[1..]);
    }
  }

  lemma {:induction false} StrLessTransitive(a: string, b: string, c: string)
    requires StrLess(a, b) && StrLess(b, c)
    ensures StrLess(a, c)
    decreases |a|
  {
    if a != [] && a[0] == b[0] && b[0] == c[0] {
      StrLessTransitive(a[1..], b[1..], c[1..]);
    }
  }

  lemma {:induction false} StrLessTotal(a: string, b: string)
    requires a != b
    ensures StrLess(a, b) || StrLess(b, a)
    decreases |a|
  {
    if a != [] && b != [] && a[0] == b[0] {
      assert a == [a[0]] + a[1..] && b == [b[0]] + b[1..];
      StrLessTotal(a[1..], b[1..]);
    }
  }

  lemma {:induction false} ListLessIrreflexive(p: seq<string>)
    ensures !ListLess(p, p)
    decreases |p|
  {
    if p != [] {
      ListLessIrreflexive(p[1..]);
    }
  }

  lemma {:induction false} ListLessTransitive(p: seq<string>, q: seq<string>, r: seq<string>)
    requires ListLess(p, q) && ListLess(q, r)
    ensures ListLess(p, r)
    decreases |p|
  {
    if p != [] && q != [] && r != [] {
      if p[0] == q[0] && q[0] == r[0] {
        ListLessTransitive(p[1..], q[1..], r[1..]);
      } else if p[0] != q[0] && q[0] != r[0] {
        StrLessTransitive(p[0], q[0], r[0]);
        if p[0] == r[0] {
          StrLessIrreflexive(p[0]);
        }
      }
    }
  }

  lemma {:induction false} ListLessTotal(p: seq<string>, q: seq<string>)
    requires p != q
    ensures ListLess(p, q) || ListLess(q, p)
    decreases |p|
  {
    if p != [] && q != [] {
      if p[0] == q[0] {
        assert p == [p[0]] + p[1..] && q == [q[0]] + q[1..];
        ListLessTotal(p[1..], q[1..]);
      } else {
        StrLessTotal(p[0], q[0]);
      }
    }
  }

  /** A `(key, path)` tuple as the decoder stores it. */
  datatype Entry = Entry(key: real, path: seq<string>)

  /** `x < y` on `(key, path)` tuples. */
  predicate Below(x: Entry, y: Entry) {
    x.key < y.key || (x.key == y.key && ListLess(x.path, y.path))
  }

  lemma BelowIrreflexive(x: Entry)
    ensures !Below(x, x)
  {
    ListLessIrreflexive(x.path);
  }

  lemma BelowTransitive(x: Entry, y: Entry, z: Entry)
    requires Below(x, y) && Below(y, z)
    ensures Below(x, z)
  {
    if x.key == y.key && y.key == z.key {
      ListLessTransitive(x.path, y.path, z.path);
    }
  }

  lemma BelowTotal(x: Entry, y: Entry)
    requires x != y
    ensures Below(x, y) || Below(y, x)
  {
    if x.key == y.key {
      ListLessTotal(x.path, y.path);
    }
  }

  /** `x <= y` on tuples. */
  predicate AtMost(x: Entry, y: Entry) {
    x == y || Below(x, y)
  }

  /** Irreflexivity and transitivity together: no two tuples are each below
      the other. */
  lemma BelowAsymmetric(x: Entry, y: Entry)
    requires Below(x, y)
    ensures !Below(y, x) && x != y
  {
    BelowIrreflexive(x);
    if Below(y, x) {
      BelowTransitive(x, y, x);
    }
  }
}
