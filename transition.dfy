/** Transition estimation.  Both estimators walk the training lines with a
    `prev_tag` that starts at START: a tagged line counts the transition
    `prev_tag -> tag`, a blank line counts `prev_tag -> STOP` and resets
    `prev_tag` to START, and either way `tag_count[prev_tag]` goes up by one.
    Every counted transition then gets `count / tag_count[source]`.  The
    global variant (Task2) keeps its counts in a nested `Counter` and
    finally overwrites `START -> START` with 1.0; the pair-keyed variant
    (Task3) first sets `tag_count[STOP] = 0`, so a transition out of STOP
    (possible only when a training line is tagged `STOP`) divides by zero. */
module Transition {
  import opened Wrappers
  import opened Bags
  import opened Corpus
  import opened Tables
  import opened Fractions

  datatype BigramCounts = BigramCounts(pairCount: map<(Tag, Tag), nat>, sourceCount: map<Tag, nat>)

  /** How often `(a, b)` occurs among the transitions `bs`. */
  function BigramCount(bs: seq<(Tag, Tag)>, a: Tag, b: Tag): nat {
    multiset(bs)[(a, b)]
  }

  /** How many of the transitions `bs` leave `a`. */
  function SourceCount(bs: seq<(Tag, Tag)>, a: Tag): nat {
    multiset(Firsts(bs))[a]
  }

  /** The counting loop both estimators share: `transition_count` counts the
      transitions and `tag_count` their sources; the first line without a
      separator aborts. */
  method CountBigrams(lines: seq<string>) returns (r: Result<BigramCounts, ParseError>)
    ensures r.Failure? <==> ParseLines(lines).Failure?
    ensures r.Failure? ==> r.error == ParseLines(lines).error
    ensures r.Success? ==>
      var bs := Bigrams(ParseLines(lines).value);
      && CountsOf(r.value.pairCount, multiset(bs))
      && CountsOf(r.value.sourceCount, multiset(Firsts(bs)))
  {
    var pairCount: map<(Tag, Tag), nat> := map[];
    var sourceCount: map<Tag, nat> := map[];
    var prev := START;
    ghost var parsed: seq<Line> := [];
    var i := 0;
    while i < |lines|
      invariant 0 <= i <= |lines|
      invariant ParseLines(lines[..i]) == Success(parsed)
      invariant prev == PrevTag(parsed, |parsed|)
      invariant CountsOf(pairCount, multiset(Bigrams(parsed)))
      invariant CountsOf(sourceCount, multiset(Firsts(Bigrams(parsed))))
    {
      var line := ParseLine(lines[i]);
      if line.None? {
        ParseLinesStopsAt(lines, i);
        return Failure(MissingSeparator(i));
      }
      ParseLinesStep(lines, i, parsed, line.value);
      pairCount, sourceCount, prev := CountTransition(pairCount, sourceCount, prev, line.value, parsed);
      parsed := parsed + [line.value];
      i := i + 1;
    }
    assert lines[..i] == lines;
    return Success(BigramCounts(pairCount, sourceCount));
  }

  /** One iteration of the counting loop. */
  method CountTransition(pairCount: map<(Tag, Tag), nat>, sourceCount: map<Tag, nat>, prev: Tag,
                         l: Line, ghost parsed: seq<Line>)
    returns (pairCount': map<(Tag, Tag), nat>, sourceCount': map<Tag, nat>, prev': Tag)
    requires prev == PrevTag(parsed, |parsed|)
    requires CountsOf(pairCount, multiset(Bigrams(parsed)))
    requires CountsOf(sourceCount, multiset(Firsts(Bigrams(parsed))))
    ensures prev' == PrevTag(parsed + [l], |parsed| + 1)
    ensures CountsOf(pairCount', multiset(Bigrams(parsed + [l])))
    ensures CountsOf(sourceCount', multiset(Firsts(Bigrams(parsed + [l]))))
  {
    BigramsStep(parsed, l);
    FirstsAppend(Bigrams(parsed), (prev, NextTag(l)));
    BumpCounts(pairCount, multiset(Bigrams(parsed)), (prev, NextTag(l)));
    BumpCounts(sourceCount, multiset(Firsts(Bigrams(parsed))), prev);
    pairCount', sourceCount' := Bump(pairCount, (prev, NextTag(l))), Bump(sourceCount, prev);
    match l
    case Blank =>
      prev' := START;
    case Tagged(_, tag) =>
      prev' := tag;
  }

  lemma FirstsAppend(s: seq<(Tag, Tag)>, p: (Tag, Tag))
    ensures Firsts(s + [p]) == Firsts(s) + [p.0]
  {
  }

  /** `tag_count[a]` read through the `defaultdict(int)`: 0 when absent. */
  function Divisor(sourceCount: map<Tag, nat>, a: Tag): nat {
    if a in sourceCount then sourceCount[a] else 0
  }

  /** `table` holds exactly the pairs of `pairCount`, each with
      `count / tag_count[source]`, every divisor being positive. */
  ghost predicate Divided(table: Table, pairCount: map<(Tag, Tag), nat>, sourceCount: map<Tag, nat>) {
    && RowsNonEmpty(table)
    && DividedPairs(table, pairCount, sourceCount, pairCount.Keys)
  }

  /** Outside rows, `table` holds exactly the pairs in `done`, each with
      its quotient. */
  ghost predicate DividedPairs(table: Table, pairCount: map<(Tag, Tag), nat>, sourceCount: map<Tag, nat>,
                               done: set<(Tag, Tag)>) {
    && (forall a, b {:trigger Has(table, a, b)} :: Has(table, a, b) <==> (a, b) in done)
    && (forall a, b :: Has(table, a, b) && (a, b) in pairCount ==>
          Divisor(sourceCount, a) > 0 &&
          table[a][b] == pairCount[(a, b)] as real / Divisor(sourceCount, a) as real)
  }

  /** The fill loop both estimators share:
      `transition_params[tag1][tag2] = count / tag_count[tag1]` for every
      counted pair, in any order; `None` stands for the `ZeroDivisionError`
      of a pair whose source has no count. */
  method FillTransitions(pairCount: map<(Tag, Tag), nat>, sourceCount: map<Tag, nat>) returns (r: Option<Table>)
    ensures r.None? <==> exists p :: p in pairCount && Divisor(sourceCount, p.0) == 0
    ensures r.Some? ==> Divided(r.value, pairCount, sourceCount)
  {
    var table: Table := map[];
    var todo := pairCount.Keys;
    ghost var done: set<(Tag, Tag)> := {};
    while todo != {}
      invariant done + todo == pairCount.Keys && done !! todo
      invariant forall p :: p in done ==> Divisor(sourceCount, p.0) > 0
      invariant RowsNonEmpty(table) && DividedPairs(table, pairCount, sourceCount, done)
      decreases todo
    {
      var p :| p in todo;
      var d := Divisor(sourceCount, p.0);
      if d == 0 {
        return None;
      }
      table := WriteTransition(table, pairCount, sourceCount, p, done);
      done := done + {p};
      todo := todo - {p};
    }
    return Some(table);
  }

  /** One iteration of the fill loop. */
  method WriteTransition(table: Table, pairCount: map<(Tag, Tag), nat>, sourceCount: map<Tag, nat>,
                         p: (Tag, Tag), ghost done: set<(Tag, Tag)>) returns (table': Table)
    requires p in pairCount && Divisor(sourceCount, p.0) > 0
    requires RowsNonEmpty(table) && DividedPairs(table, pairCount, sourceCount, done)
    ensures RowsNonEmpty(table') && DividedPairs(table', pairCount, sourceCount, done + {p})
  {
    var x := pairCount[p] as real / Divisor(sourceCount, p.0) as real;
    table' := Put(table, p.0, p.1, x);
    RowsStep(table, p.0, p.1, x);
    DividedStep(table, pairCount, sourceCount, done, p, x);
  }

  lemma DividedStep(table: Table, pairCount: map<(Tag, Tag), nat>, sourceCount: map<Tag, nat>,
                    done: set<(Tag, Tag)>, p: (Tag, Tag), x: real)
    requires p in pairCount && Divisor(sourceCount, p.0) > 0
    requires x == pairCount[p] as real / Divisor(sourceCount, p.0) as real
    requires DividedPairs(table, pairCount, sourceCount, done)
    ensures DividedPairs(Put(table, p.0, p.1, x), pairCount, sourceCount, done + {p})
  {
    PutEffect(table, p.0, p.1, x);
  }

  /** Row `a` of `table` holds exactly the transitions out of `a`, each
      with its relative frequency among them. */
  ghost predicate RowDivided(table: Table, bs: seq<(Tag, Tag)>, a: Tag) {
    && (forall b :: Has(table, a, b) <==> (a, b) in bs)
    && (forall b :: Has(table, a, b) ==>
          SourceCount(bs, a) > 0 &&
          table[a][b] == BigramCount(bs, a, b) as real / SourceCount(bs, a) as real)
  }

  /** The table the pair-keyed estimator returns for the transitions `bs`. */
  ghost predicate Estimated(table: Table, bs: seq<(Tag, Tag)>) {
    && RowsNonEmpty(table)
    && (forall a :: RowDivided(table, bs, a))
  }

  /** The table the nested estimator returns: as `Estimated`, except that
      `START -> START` is present and 1.0 whatever was counted. */
  ghost predicate EstimatedWithStart(table: Table, bs: seq<(Tag, Tag)>) {
    && RowsNonEmpty(table)
    && (forall a :: a != START ==> RowDivided(table, bs, a))
    && (forall b :: Has(table, START, b) <==> b == START || (START, b) in bs)
    && (forall b :: b != START && Has(table, START, b) ==>
          SourceCount(bs, START) > 0 &&
          table[START][b] == BigramCount(bs, START, b) as real / SourceCount(bs, START) as real)
    && Has(table, START, START) && table[START][START] == 1.0
  }

  /** The counts of `CountBigrams`: every counted pair's source has a
      positive count, and that count is the number of transitions out of it. */
  lemma CountedSources(c: BigramCounts, bs: seq<(Tag, Tag)>)
    requires CountsOf(c.pairCount, multiset(bs)) && CountsOf(c.sourceCount, multiset(Firsts(bs)))
    ensures forall a :: a in Firsts(bs) ==> Divisor(c.sourceCount, a) == SourceCount(bs, a) > 0
    ensures forall p :: p in c.pairCount ==> p.0 in Firsts(bs)
  {
    forall p | p in c.pairCount ensures p.0 in Firsts(bs) {
      var i :| 0 <= i < |bs| && bs[i] == p;
      assert Firsts(bs)[i] == p.0;
    }
  }

  /** A filled table over counted transitions is the estimated table,
      provided every source's divisor is its number of transitions. */
  lemma DividedIsEstimated(table: Table, c: BigramCounts, divisors: map<Tag, nat>, bs: seq<(Tag, Tag)>)
    requires CountsOf(c.pairCount, multiset(bs))
    requires forall a :: a in Firsts(bs) ==> Divisor(divisors, a) == SourceCount(bs, a)
    requires Divided(table, c.pairCount, divisors)
    ensures Estimated(table, bs)
  {
    forall a ensures RowDivided(table, bs, a) {
      forall b ensures Has(table, a, b) <==> (a, b) in bs {
        DividedEntry(table, c, divisors, bs, a, b);
      }
      forall b | Has(table, a, b)
        ensures SourceCount(bs, a) > 0 &&
          table[a][b] == BigramCount(bs, a, b) as real / SourceCount(bs, a) as real
      {
        DividedEntry(table, c, divisors, bs, a, b);
      }
    }
  }

  lemma DividedEntry(table: Table, c: BigramCounts, divisors: map<Tag, nat>, bs: seq<(Tag, Tag)>, a: Tag, b: Tag)
    requires CountsOf(c.pairCount, multiset(bs))
    requires forall a :: a in Firsts(bs) ==> Divisor(divisors, a) == SourceCount(bs, a)
    requires Divided(table, c.pairCount, divisors)
    ensures Has(table, a, b) <==> (a, b) in bs
    ensures Has(table, a, b) ==>
      SourceCount(bs, a) > 0 &&
      table[a][b] == BigramCount(bs, a, b) as real / SourceCount(bs, a) as real
  {
    assert (a, b) in c.pairCount <==> (a, b) in multiset(bs);
    if Has(table, a, b) {
      var i :| 0 <= i < |bs| && bs[i] == (a, b);
      assert Firsts(bs)[i] == a;
      SameQuotient(c.pairCount[(a, b)] as real, BigramCount(bs, a, b) as real,
                   Divisor(divisors, a) as real, SourceCount(bs, a) as real);
    }
  }

  /** `transition_params[START][START] = 1.0` turns the estimated table into
      the nested estimator's. */
  lemma StartOverride(table: Table, bs: seq<(Tag, Tag)>)
    requires Estimated(table, bs)
    ensures EstimatedWithStart(Put(table, START, START, 1.0), bs)
  {
    RowsStep(table, START, START, 1.0);
    forall a | a != START ensures RowDivided(Put(table, START, START, 1.0), bs, a) {
      OtherRowKept(table, bs, a);
    }
    StartRowOverridden(table, bs);
  }

  lemma OtherRowKept(table: Table, bs: seq<(Tag, Tag)>, a: Tag)
    requires RowDivided(table, bs, a) && a != START
    ensures RowDivided(Put(table, START, START, 1.0), bs, a)
  {
    var t := Put(table, START, START, 1.0);
    forall b ensures Has(t, a, b) <==> Has(table, a, b) {
      PutAt(table, START, START, 1.0, a, b);
    }
    forall b | Has(t, a, b) ensures t[a][b] == table[a][b] {
      PutAt(table, START, START, 1.0, a, b);
    }
  }

  lemma StartRowOverridden(table: Table, bs: seq<(Tag, Tag)>)
    requires RowDivided(table, bs, START)
    ensures forall b :: Has(Put(table, START, START, 1.0), START, b) <==> b == START || (START, b) in bs
    ensures forall b :: b != START && Has(Put(table, START, START, 1.0), START, b) ==>
      SourceCount(bs, START) > 0 &&
      Put(table, START, START, 1.0)[START][b] == BigramCount(bs, START, b) as real / SourceCount(bs, START) as real
    ensures Has(Put(table, START, START, 1.0), START, START)
    ensures Put(table, START, START, 1.0)[START][START] == 1.0
  {
    var t := Put(table, START, START, 1.0);
    forall b ensures Has(t, START, b) <==> b == START || Has(table, START, b) {
      PutAt(table, START, START, 1.0, START, b);
    }
    forall b | b != START && Has(t, START, b) ensures t[START][b] == table[START][b] {
      PutAt(table, START, START, 1.0, START, b);
    }
  }

  /** `estimate_transition_params` of the nested variant (Task2). */
  method EstimateTransitionsNested(lines: seq<string>) returns (r: Result<Table, ParseError>)
    ensures r.Failure? <==> ParseLines(lines).Failure?
    ensures r.Failure? ==> r.error == ParseLines(lines).error
    ensures r.Success? ==> EstimatedWithStart(r.value, Bigrams(ParseLines(lines).value))
  {
    var counted := CountBigrams(lines);
    if counted.Failure? {
      return Failure(counted.error);
    }
    var c := counted.value;
    ghost var bs := Bigrams(ParseLines(lines).value);
    CountedSources(c, bs);
    var filled := FillTransitions(c.pairCount, c.sourceCount);
    assert filled.Some?;
    DividedIsEstimated(filled.value, c, c.sourceCount, bs);
    var table := Put(filled.value, START, START, 1.0);
    StartOverride(filled.value, bs);
    return Success(table);
  }

  datatype TransitionError = Unreadable(cause: ParseError) | ZeroDivision

  /** `estimate_transition_params` of the pair-keyed variant (Task3): after
      `tag_count[STOP] = 0`, a transition out of STOP raises
      `ZeroDivisionError`; otherwise the table is the estimated one and has
      no STOP row. */
  method EstimateTransitionsPaired(lines: seq<string>) returns (r: Result<Table, TransitionError>)
    ensures ParseLines(lines).Failure? ==> r == Failure(Unreadable(ParseLines(lines).error))
    ensures ParseLines(lines).Success? ==>
      var bs := Bigrams(ParseLines(lines).value);
      && (r.Failure? <==> STOP in Firsts(bs))
      && (r.Failure? ==> r.error == ZeroDivision)
      && (r.Success? ==> Estimated(r.value, bs) && STOP !in r.value)
  {
    var counted := CountBigrams(lines);
    if counted.Failure? {
      return Failure(Unreadable(counted.error));
    }
    var c := counted.value;
    ghost var bs := Bigrams(ParseLines(lines).value);
    CountedSources(c, bs);
    var divisors := c.sourceCount[STOP := 0];
    var filled := FillTransitions(c.pairCount, divisors);
    if filled.None? {
      StopIsSource(c, divisors, bs);
      return Failure(ZeroDivision);
    }
    NoStopSource(c, divisors, bs);
    DividedIsEstimated(filled.value, c, divisors, bs);
    NoStopRow(filled.value, bs);
    return Success(filled.value);
  }

  lemma StopIsSource(c: BigramCounts, divisors: map<Tag, nat>, bs: seq<(Tag, Tag)>)
    requires forall a :: a in Firsts(bs) ==> Divisor(c.sourceCount, a) == SourceCount(bs, a) > 0
    requires forall p :: p in c.pairCount ==> p.0 in Firsts(bs)
    requires divisors == c.sourceCount[STOP := 0]
    requires exists p :: p in c.pairCount && Divisor(divisors, p.0) == 0
    ensures STOP in Firsts(bs)
  {
    var p :| p in c.pairCount && Divisor(divisors, p.0) == 0;
    assert p.0 in Firsts(bs);
  }

  lemma NoStopSource(c: BigramCounts, divisors: map<Tag, nat>, bs: seq<(Tag, Tag)>)
    requires CountsOf(c.pairCount, multiset(bs))
    requires forall a :: a in Firsts(bs) ==> Divisor(c.sourceCount, a) == SourceCount(bs, a) > 0
    requires divisors == c.sourceCount[STOP := 0]
    requires !exists p :: p in c.pairCount && Divisor(divisors, p.0) == 0
    ensures STOP !in Firsts(bs)
    ensures forall a :: a in Firsts(bs) ==> Divisor(divisors, a) == SourceCount(bs, a)
  {
  }

  /** Rows exist exactly for the sources of transitions. */
  lemma EstimatedRows(table: Table, bs: seq<(Tag, Tag)>)
    requires Estimated(table, bs)
    ensures forall a :: a in table <==> a in Firsts(bs)
  {
    forall a ensures a in table <==> a in Firsts(bs) {
      SourceRow(table, bs, a);
    }
  }

  lemma SourceRow(table: Table, bs: seq<(Tag, Tag)>, a: Tag)
    requires RowsNonEmpty(table) && RowDivided(table, bs, a)
    ensures a in table <==> a in Firsts(bs)
  {
    if a in table {
      var b :| b in table[a];
      assert Has(table, a, b);
      var i :| 0 <= i < |bs| && bs[i] == (a, b);
      assert Firsts(bs)[i] == a;
    }
    if a in Firsts(bs) {
      var i :| 0 <= i < |bs| && Firsts(bs)[i] == a;
      assert bs[i] == (a, bs[i].1);
      assert Has(table, a, bs[i].1);
    }
  }

  /** So STOP has no row when it is never a source. */
  lemma NoStopRow(table: Table, bs: seq<(Tag, Tag)>)
    requires Estimated(table, bs) && STOP !in Firsts(bs)
    ensures STOP !in table
  {
    EstimatedRows(table, bs);
  }

  /** A row holding exactly the transitions out of a source `a`, each with
      its relative frequency, sums to 1. */
  lemma RowFrequencies(row: map<Tag, real>, bs: seq<(Tag, Tag)>, a: Tag)
    requires a in Firsts(bs)
    requires forall b :: b in row <==> (a, b) in bs
    requires forall b :: b in row ==>
      SourceCount(bs, a) > 0 && row[b] == BigramCount(bs, a, b) as real / SourceCount(bs, a) as real
    ensures Sum(row) == 1.0
  {
    var targets := multiset(RightOf(bs, a));
    var d := SourceCount(bs, a) as real;
    assert d > 0.0;
    forall b ensures b in row <==> b in targets {
      RightOfCount(bs, a, b);
    }
    forall b | b in row ensures row[b] == targets[b] as real / d {
      RightOfCount(bs, a, b);
    }
    SumOfFrequencies(row, targets, d);
    RightOfLength(bs, a);
    assert |targets| == SourceCount(bs, a);
    Whole(d, Sum(row));
  }

  /** Every row of the pair-keyed estimator's table sums to 1. */
  lemma EstimatedRowSum(table: Table, bs: seq<(Tag, Tag)>, a: Tag)
    requires Estimated(table, bs) && a in table
    ensures Sum(table[a]) == 1.0
  {
    SourceRow(table, bs, a);
    RowFrequencies(table[a], bs, a);
  }

  /** Every row of the nested estimator's table other than START's sums
      to 1. */
  lemma NestedRowSum(table: Table, bs: seq<(Tag, Tag)>, a: Tag)
    requires EstimatedWithStart(table, bs) && a in table && a != START
    ensures Sum(table[a]) == 1.0
  {
    SourceRow(table, bs, a);
    RowFrequencies(table[a], bs, a);
  }

  /** The START row of the nested estimator's table sums to 2 once START
      has been a source and no line is tagged START: its counted
      transitions sum to 1 and the override adds 1.0 beside them. */
  lemma NestedStartRowSum(table: Table, bs: seq<(Tag, Tag)>)
    requires EstimatedWithStart(table, bs) && START in Firsts(bs) && (START, START) !in bs
    ensures Sum(table[START]) == 2.0
  {
    var row := table[START];
    assert Has(table, START, START);
    SumRemove(row, START);
    RowFrequencies(row - {START}, bs, START);
  }

  /** Reading any line makes START a source: the first transition leaves it. */
  lemma StartIsSource(ls: seq<Line>)
    requires |ls| > 0
    ensures START in Firsts(Bigrams(ls))
  {
    assert Firsts(Bigrams(ls))[0] == START;
  }

  /** A transition into START needs a line tagged START. */
  lemma NoStartTarget(ls: seq<Line>, a: Tag)
    requires forall i :: 0 <= i < |ls| ==> NextTag(ls[i]) != START
    ensures (a, START) !in Bigrams(ls)
  {
    forall i | 0 <= i < |ls| ensures Bigrams(ls)[i] != (a, START) {
      assert NextTag(ls[i]) != START;
    }
  }
}
