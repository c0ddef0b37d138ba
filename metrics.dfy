/** `calculate_metrics`: precision, recall and F-score of a predicted tag
    sequence against the gold one.  Positions are paired by `zip`, so only
    the first min(|predicted|, |gold|) of them count.  A position is a true
    positive when both tags agree and are not the background tag `'O'`, a
    false positive when they differ and the prediction is not `'O'`, and a
    false negative when they differ and the gold tag is not `'O'` (one
    position can be both a false positive and a false negative).  Each ratio
    whose denominator is 0 is 0.0 instead. */
module Metrics {
  import opened Corpus
  import opened Fractions

  type Pair = (Tag, Tag)

  /** `zip(predicted_tags, actual_tags)`. */
  function Zip(pred: seq<Tag>, gold: seq<Tag>): (r: seq<Pair>)
    ensures |r| == (if |pred| < |gold| then |pred| else |gold|)
    ensures forall i :: 0 <= i < |r| ==> r[i] == (pred[i], gold[i])
  {
    if pred == [] || gold == [] then [] else [(pred[0], gold[0])] + Zip(pred[1..], gold[1..])
  }

  predicate Hit(x: Pair) { x.0 == x.1 && x.0 != OUTSIDE }
  predicate FalseAlarm(x: Pair) { x.0 != x.1 && x.0 != OUTSIDE }
  predicate Miss(x: Pair) { x.0 != x.1 && x.1 != OUTSIDE }

  /** The prediction at this position is a tag other than `'O'`. */
  predicate Predicted(x: Pair) { x.0 != OUTSIDE }

  /** The gold tag at this position is a tag other than `'O'`. */
  predicate Relevant(x: Pair) { x.1 != OUTSIDE }

  /** `sum(1 for x in s if f(x))`. */
  function Count(s: seq<Pair>, f: Pair -> bool): (n: nat)
    ensures n <= |s|
  {
    if s == [] then 0 else (if f(s[0]) then 1 else 0) + Count(s[1..], f)
  }

  function TP(pred: seq<Tag>, gold: seq<Tag>): nat { Count(Zip(pred, gold), Hit) }
  function FP(pred: seq<Tag>, gold: seq<Tag>): nat { Count(Zip(pred, gold), FalseAlarm) }
  function FN(pred: seq<Tag>, gold: seq<Tag>): nat { Count(Zip(pred, gold), Miss) }

  /** `n / d if d != 0 else 0.0` for the counts of a ratio. */
  function Ratio(n: nat, d: nat): (r: real)
    requires n <= d
    ensures 0.0 <= r <= 1.0
    ensures r == 0.0 <==> n == 0
    ensures r == 1.0 <==> 0 < n == d
  {
    if d != 0 then RatioBounds(n, d); n as real / d as real else 0.0
  }

  /** `2 * p * r / (p + r) if p + r != 0 else 0.0`. */
  function Harmonic(p: real, r: real): (f: real)
    requires 0.0 <= p <= 1.0 && 0.0 <= r <= 1.0
    ensures 0.0 <= f <= 1.0
    ensures f == 0.0 <==> p == 0.0 || r == 0.0
    ensures f == 1.0 <==> p == 1.0 && r == 1.0
  {
    if p + r != 0.0 then HarmonicBounds(p, r); 2.0 * p * r / (p + r) else 0.0
  }

  datatype Scores = Scores(precision: real, recall: real, fScore: real)

  /** `calculate_metrics(predicted_tags, actual_tags)`. */
  function CalculateMetrics(pred: seq<Tag>, gold: seq<Tag>): (r: Scores)
    ensures 0.0 <= r.precision <= 1.0 && 0.0 <= r.recall <= 1.0 && 0.0 <= r.fScore <= 1.0
    ensures r.precision == 1.0 <==> FP(pred, gold) == 0 < TP(pred, gold)
    ensures r.recall == 1.0 <==> FN(pred, gold) == 0 < TP(pred, gold)
    ensures r.fScore == 0.0 <==> TP(pred, gold) == 0
    ensures r.fScore == 1.0 <==> FP(pred, gold) == 0 && FN(pred, gold) == 0 && TP(pred, gold) > 0
  {
    var tp, fp, fn := TP(pred, gold), FP(pred, gold), FN(pred, gold);
    var precision := Ratio(tp, tp + fp);
    var recall := Ratio(tp, tp + fn);
    Scores(precision, recall, Harmonic(precision, recall))
  }

  /** Splitting by a second test: the positions passing `h` are those
      passing exactly one of `f` and `g`. */
  lemma {:induction false} CountSum(s: seq<Pair>, f: Pair -> bool, g: Pair -> bool, h: Pair -> bool)
    requires forall x :: h(x) <==> f(x) || g(x)
    requires forall x :: !(f(x) && g(x))
    ensures Count(s, h) == Count(s, f) + Count(s, g)
  {
    if s != [] {
      CountSum(s[1..], f, g, h);
    }
  }

  /** `tp + fp` counts the positions predicted as something other than
      `'O'`, and `tp + fn` the positions whose gold tag is not `'O'`. */
  lemma Denominators(pred: seq<Tag>, gold: seq<Tag>)
    ensures TP(pred, gold) + FP(pred, gold) == Count(Zip(pred, gold), Predicted)
    ensures TP(pred, gold) + FN(pred, gold) == Count(Zip(pred, gold), Relevant)
  {
    CountSum(Zip(pred, gold), Hit, FalseAlarm, Predicted);
    CountSum(Zip(pred, gold), Hit, Miss, Relevant);
  }

  /** Predicting the gold sequence itself scores 1 on every measure, as
      long as the gold sequence has a tag other than `'O'`. */
  lemma PerfectMatch(tags: seq<Tag>)
    requires exists i :: 0 <= i < |tags| && tags[i] != OUTSIDE
    ensures CalculateMetrics(tags, tags) == Scores(1.0, 1.0, 1.0)
  {
    SelfCounts(tags);
  }

  lemma {:induction false} SelfCounts(tags: seq<Tag>)
    ensures FP(tags, tags) == 0 && FN(tags, tags) == 0
    ensures TP(tags, tags) > 0 <==> exists i :: 0 <= i < |tags| && tags[i] != OUTSIDE
  {
    if tags != [] {
      SelfCounts(tags[1..]);
      var z := Zip(tags, tags);
      assert z[0] == (tags[0], tags[0]) && z[1..] == Zip(tags[1..], tags[1..]);
      if TP(tags[1..], tags[1..]) > 0 {
        var i :| 0 <= i < |tags[1..]| && tags[1..][i] != OUTSIDE;
        assert tags[i + 1] != OUTSIDE;
      }
      if tags[0] == OUTSIDE && TP(tags, tags) == 0 {
        forall i | 0 < i < |tags|
          ensures tags[i] == OUTSIDE
        {
          assert tags[1..][i - 1] == tags[i];
        }
      }
    }
  }

  /** Predicting only `'O'` scores 0 on every measure, whatever the gold
      sequence is: nothing is a true or a false positive, though the gold
      tags other than `'O'` are false negatives. */
  lemma AllOutside(pred: seq<Tag>, gold: seq<Tag>)
    requires forall i :: 0 <= i < |pred| ==> pred[i] == OUTSIDE
    ensures TP(pred, gold) == 0 && FP(pred, gold) == 0
    ensures CalculateMetrics(pred, gold) == Scores(0.0, 0.0, 0.0)
  {
    OutsideCounts(pred, gold);
  }

  lemma {:induction false} OutsideCounts(pred: seq<Tag>, gold: seq<Tag>)
    requires forall i :: 0 <= i < |pred| ==> pred[i] == OUTSIDE
    ensures TP(pred, gold) == 0 && FP(pred, gold) == 0
  {
    if pred != [] && gold != [] {
      var z := Zip(pred, gold);
      assert z[0] == (pred[0], gold[0]) && z[1..] == Zip(pred[1..], gold[1..]);
      forall i | 0 <= i < |pred[1..]|
        ensures pred[1..][i] == OUTSIDE
      {
        assert pred[1..][i] == pred[i + 1];
      }
      OutsideCounts(pred[1..], gold[1..]);
    }
  }

  /** Only the first min(|pred|, |gold|) positions are scored: whatever
      follows the end of the shorter sequence does not change the result. */
  lemma ScoresIgnoreTail(pred: seq<Tag>, gold: seq<Tag>, extra: seq<Tag>)
    ensures |gold| <= |pred| ==> CalculateMetrics(pred + extra, gold) == CalculateMetrics(pred, gold)
    ensures |pred| <= |gold| ==> CalculateMetrics(pred, gold + extra) == CalculateMetrics(pred, gold)
  {
    if |gold| <= |pred| {
      ZipIgnoresPredictedTail(pred, gold, extra);
    }
    if |pred| <= |gold| {
      ZipIgnoresGoldTail(pred, gold, extra);
    }
  }

  lemma {:induction false} ZipIgnoresPredictedTail(pred: seq<Tag>, gold: seq<Tag>, extra: seq<Tag>)
    requires |gold| <= |pred|
    ensures Zip(pred + extra, gold) == Zip(pred, gold)
  {
    if gold != [] {
      ZipIgnoresPredictedTail(pred[1..], gold[1..], extra);
      assert (pred + extra)[1..] == pred[1..] + extra;
    }
  }

  lemma {:induction false} ZipIgnoresGoldTail(pred: seq<Tag>, gold: seq<Tag>, extra: seq<Tag>)
    requires |pred| <= |gold|
    ensures Zip(pred, gold + extra) == Zip(pred, gold)
  {
    if pred != [] {
      ZipIgnoresGoldTail(pred[1..], gold[1..], extra);
      assert (gold + extra)[1..] == gold[1..] + extra;
    }
  }

  lemma RatioBounds(n: nat, d: nat)
    requires n <= d && d != 0
    ensures 0.0 <= n as real / d as real <= 1.0
    ensures n as real / d as real == 0.0 <==> n == 0
    ensures n as real / d as real == 1.0 <==> n == d
  {
    if 0 < n < d {
      ProperFraction(n as real, d as real);
    }
  }

  /** The harmonic mean of two values in [0, 1] lies in [0, 1], is 0 exactly
      when one of them is, and is 1 exactly when both are. */
  lemma HarmonicBounds(p: real, r: real)
    requires 0.0 <= p <= 1.0 && 0.0 <= r <= 1.0 && p + r != 0.0
    ensures 0.0 <= 2.0 * p * r / (p + r) <= 1.0
    ensures 2.0 * p * r / (p + r) == 0.0 <==> p == 0.0 || r == 0.0
    ensures 2.0 * p * r / (p + r) == 1.0 <==> p == 1.0 && r == 1.0
  {
    var s := p + r;
    var f := 2.0 * p * r / s;
    assert f * s == 2.0 * p * r;
    // s - 2pr is the sum of the two non-negative terms p(1 - r) and r(1 - p)
    assert s - 2.0 * p * r == p * (1.0 - r) + r * (1.0 - p);
    NonNegativeProduct(p, 1.0 - r);
    NonNegativeProduct(r, 1.0 - p);
    NonNegativeProduct(p, r);
    if p > 0.0 && r > 0.0 {
      MultiplyPositive(p, r);
      DividePositive(2.0 * p * r, s);
    }
    if f == 1.0 {
      assert p * (1.0 - r) + r * (1.0 - p) == 0.0;
      ZeroProduct(p, 1.0 - r);
      ZeroProduct(r, 1.0 - p);
    }
    SplitBelow(f, s, 2.0 * p * r);
  }

  lemma NonNegativeProduct(a: real, b: real)
    requires a >= 0.0 && b >= 0.0
    ensures a * b >= 0.0
  {
    if a > 0.0 && b > 0.0 {
      MultiplyPositive(a, b);
    }
  }

  /** A product of non-negative values is 0 only when a factor is. */
  lemma ZeroProduct(a: real, b: real)
    requires 0.0 <= a <= 1.0 && 0.0 <= b <= 1.0 && a * b == 0.0
    ensures a == 0.0 || b == 0.0
  {
    if a > 0.0 && b > 0.0 {
      MultiplyPositive(a, b);
    }
  }

  lemma SplitBelow(f: real, s: real, n: real)
    requires s > 0.0 && f * s == n && 0.0 <= n <= s
    ensures 0.0 <= f <= 1.0
  {
    if f < 0.0 {
      MultiplyPositive(-f, s);
    }
    if f > 1.0 {
      MultiplyPositive(f - 1.0, s);
    }
  }
}
