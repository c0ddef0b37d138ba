/** Emission estimation with additive smoothing.  Both estimators count
    `(token, tag)` records and tag occurrences in one pass over the lines,
    then give every observed pair `count / (tag count + k)`.  They differ on
    purpose in the `#UNK#` row: the global estimator gives every observed
    tag `k / (k + number of records)`, the per-tag estimator gives tag `t`
    `k / (tag count of t + k)`.  Both write the `#UNK#` entry after the
    pair's own entry in the same iteration, so a training token spelled
    `#UNK#` has its entries overwritten by the smoothing mass. */
module Emission {
  import opened Wrappers
  import opened Bags
  import opened Corpus
  import opened Tables
  import opened Fractions

  datatype Counts = Counts(pairCount: map<(Token, Tag), nat>, tagCount: map<Tag, nat>)

  /** The counting loop both estimators share: `token_tag_count[(token, tag)]`
      and `tag_count[tag]` count the records; the first line without a
      separator aborts. */
  method CountRecords(lines: seq<string>) returns (r: Result<Counts, ParseError>)
    ensures r.Failure? <==> ParseLines(lines).Failure?
    ensures r.Failure? ==> r.error == ParseLines(lines).error
    ensures r.Success? ==>
      var recs := Records(ParseLines(lines).value);
      && CountsOf(r.value.pairCount, multiset(recs))
      && CountsOf(r.value.tagCount, multiset(Seconds(recs)))
  {
    var pairCount: map<(Token, Tag), nat> := map[];
    var tagCount: map<Tag, nat> := map[];
    ghost var parsed: seq<Line> := [];
    var i := 0;
    while i < |lines|
      invariant 0 <= i <= |lines|
      invariant ParseLines(lines[..i]) == Success(parsed)
      invariant CountsOf(pairCount, multiset(Records(parsed)))
      invariant CountsOf(tagCount, multiset(Seconds(Records(parsed))))
    {
      var line := ParseLine(lines[i]);
      if line.None? {
        ParseLinesStopsAt(lines, i);
        return Failure(MissingSeparator(i));
      }
      ParseLinesStep(lines, i, parsed, line.value);
      pairCount, tagCount := CountLine(pairCount, tagCount, line.value, parsed);
      parsed := parsed + [line.value];
      i := i + 1;
    }
    assert lines[..i] == lines;
    return Success(Counts(pairCount, tagCount));
  }

  /** One iteration of the counting loop: a tagged line bumps
      `token_tag_count[(token, tag)]` and `tag_count[tag]`; a blank line
      counts nothing. */
  method CountLine(pairCount: map<(Token, Tag), nat>, tagCount: map<Tag, nat>, l: Line,
                   ghost parsed: seq<Line>)
    returns (pairCount': map<(Token, Tag), nat>, tagCount': map<Tag, nat>)
    requires CountsOf(pairCount, multiset(Records(parsed)))
    requires CountsOf(tagCount, multiset(Seconds(Records(parsed))))
    ensures CountsOf(pairCount', multiset(Records(parsed + [l])))
    ensures CountsOf(tagCount', multiset(Seconds(Records(parsed + [l]))))
  {
    RecordsStep(parsed, l);
    match l
    case Blank =>
      pairCount', tagCount' := pairCount, tagCount;
    case Tagged(token, tag) =>
      BumpCounts(pairCount, multiset(Records(parsed)), (token, tag));
      BumpCounts(tagCount, multiset(Seconds(Records(parsed))), tag);
      pairCount', tagCount' := Bump(pairCount, (token, tag)), Bump(tagCount, tag);
  }

  /** The records and their tags after one more line. */
  lemma RecordsStep(parsed: seq<Line>, l: Line)
    ensures l.Blank? ==> Records(parsed + [l]) == Records(parsed)
    ensures l.Tagged? ==> Records(parsed + [l]) == Records(parsed) + [(l.token, l.tag)]
    ensures l.Tagged? ==> Seconds(Records(parsed + [l])) == Seconds(Records(parsed)) + [l.tag]
  {
    assert (parsed + [l])[..|parsed|] == parsed;
  }

  /** The number of records tagged `t`. */
  function TagCount(recs: seq<(Token, Tag)>, t: Tag): nat {
    multiset(Seconds(recs))[t]
  }

  /** The number of records `(w, t)`. */
  function PairCount(recs: seq<(Token, Tag)>, w: Token, t: Tag): nat {
    multiset(recs)[(w, t)]
  }

  /** Every observed pair holds `count / (tag count + k)`, every row is
      non-empty, the `#UNK#` row holds exactly the observed tags, and no
      other pair is present. */
  ghost predicate KnownPairs(e: Table, recs: seq<(Token, Tag)>, k: real) {
    && (forall w :: w in e ==> e[w] != map[])
    && (forall w, t :: w != UNK ==> (Has(e, w, t) <==> (w, t) in recs))
    && (forall w, t :: w != UNK && Has(e, w, t) ==>
          TagCount(recs, t) as real + k > 0.0 &&
          e[w][t] == PairCount(recs, w, t) as real / (TagCount(recs, t) as real + k))
    && (forall t :: Has(e, UNK, t) <==> t in Seconds(recs))
  }

  /** The table `estimate_emission_params` of the global variant returns. */
  ghost predicate GlobalSmoothed(e: Table, recs: seq<(Token, Tag)>, k: real) {
    && KnownPairs(e, recs, k)
    && (forall t :: Has(e, UNK, t) ==>
          k + |recs| as real > 0.0 && e[UNK][t] == k / (k + |recs| as real))
  }

  /** The table `estimate_emission_params` of the per-tag variant returns. */
  ghost predicate PerTagSmoothed(e: Table, recs: seq<(Token, Tag)>, k: real) {
    && KnownPairs(e, recs, k)
    && (forall t :: Has(e, UNK, t) ==>
          TagCount(recs, t) as real + k > 0.0 && e[UNK][t] == k / (TagCount(recs, t) as real + k))
  }

  /** What the fill loop needs of the counts and of the `#UNK#`
      denominators: every counted pair's tag is counted, and both of its
      denominators are positive. */
  ghost predicate Ready(c: Counts, k: real, unk: map<Tag, real>) {
    forall p :: p in c.pairCount ==>
      && p.1 in c.tagCount && c.tagCount[p.1] as real + k > 0.0
      && p.1 in unk && unk[p.1] > 0.0
  }

  /** Counts taken from records, with `k >= 0` and a positive `#UNK#`
      denominator for every counted tag, are ready to be filled in. */
  lemma CountsReady(c: Counts, recs: seq<(Token, Tag)>, k: real, unk: map<Tag, real>)
    requires k >= 0.0
    requires CountsOf(c.pairCount, multiset(recs)) && CountsOf(c.tagCount, multiset(Seconds(recs)))
    requires forall t :: t in c.tagCount ==> t in unk && unk[t] > 0.0
    ensures Ready(c, k, unk)
  {
    forall p | p in c.pairCount
      ensures p.1 in c.tagCount && c.tagCount[p.1] as real + k > 0.0
    {
      SecondsMember(recs, p);
      assert p.1 in multiset(Seconds(recs));
    }
  }

  /** The tags of a set of pairs. */
  ghost function TagSet(s: set<(Token, Tag)>): set<Tag> {
    set p | p in s :: p.1
  }

  /** Outside the `#UNK#` row, `e` holds exactly the pairs in `done`, each
      with `count / (tag count + k)`. */
  ghost predicate PairsWritten(e: Table, c: Counts, k: real, done: set<(Token, Tag)>) {
    && (forall w, t {:trigger Has(e, w, t)} :: w != UNK ==> (Has(e, w, t) <==> (w, t) in done))
    && (forall w, t :: w != UNK && Has(e, w, t) && t in c.tagCount && (w, t) in c.pairCount ==>
          c.tagCount[t] as real + k > 0.0 &&
          e[w][t] == c.pairCount[(w, t)] as real / (c.tagCount[t] as real + k))
  }

  /** The `#UNK#` row holds exactly the tags in `seen`, each with
      `k / unk[tag]`. */
  ghost predicate UnknownWritten(e: Table, k: real, unk: map<Tag, real>, seen: set<Tag>) {
    && (forall t {:trigger Has(e, UNK, t)} :: Has(e, UNK, t) <==> t in seen)
    && (forall t :: Has(e, UNK, t) && t in unk ==> unk[t] > 0.0 && e[UNK][t] == k / unk[t])
  }

  /** The state of the fill loop once the pairs in `done` are written. */
  ghost predicate Filled(e: Table, c: Counts, k: real, unk: map<Tag, real>, done: set<(Token, Tag)>) {
    && RowsNonEmpty(e)
    && PairsWritten(e, c, k, done)
    && UnknownWritten(e, k, unk, TagSet(done))
  }

  /** One iteration of the fill loop:
      `emission[token][tag] = count / (tag_count[tag] + k)`, then
      `emission['#UNK#'][tag] = k / unk[tag]`. */
  method WritePair(e: Table, c: Counts, k: real, unk: map<Tag, real>, p: (Token, Tag),
                   ghost done: set<(Token, Tag)>) returns (e': Table)
    requires Ready(c, k, unk) && p in c.pairCount
    requires Filled(e, c, k, unk, done)
    ensures Filled(e', c, k, unk, done + {p})
  {
    var token, tag := p.0, p.1;
    var x := c.pairCount[p] as real / (c.tagCount[tag] as real + k);
    e' := Put(Put(e, token, tag, x), UNK, tag, k / unk[tag]);
    FillStep(e, c, k, unk, done, p, x);
  }

  lemma FillStep(e: Table, c: Counts, k: real, unk: map<Tag, real>, done: set<(Token, Tag)>,
                 p: (Token, Tag), x: real)
    requires Ready(c, k, unk) && p in c.pairCount
    requires Filled(e, c, k, unk, done)
    requires x == c.pairCount[p] as real / (c.tagCount[p.1] as real + k)
    ensures Filled(Put(Put(e, p.0, p.1, x), UNK, p.1, k / unk[p.1]), c, k, unk, done + {p})
  {
    RowsStep(e, p.0, p.1, x);
    RowsStep(Put(e, p.0, p.1, x), UNK, p.1, k / unk[p.1]);
    PairsStep(e, c, k, unk, done, p);
    TagSetAdd(done, p);
    UnknownStep(e, k, unk, TagSet(done), p.0, p.1, x);
  }

  lemma TagSetAdd(done: set<(Token, Tag)>, p: (Token, Tag))
    ensures TagSet(done + {p}) == TagSet(done) + {p.1}
  {
  }

  lemma PairsStep(e: Table, c: Counts, k: real, unk: map<Tag, real>,
                  done: set<(Token, Tag)>, p: (Token, Tag))
    requires PairsWritten(e, c, k, done)
    requires p in c.pairCount && p.1 in c.tagCount && c.tagCount[p.1] as real + k > 0.0
    requires p.1 in unk && unk[p.1] > 0.0
    ensures PairsWritten(Put(Put(e, p.0, p.1, c.pairCount[p] as real / (c.tagCount[p.1] as real + k)),
                             UNK, p.1, k / unk[p.1]),
                         c, k, done + {p})
  {
    var x := c.pairCount[p] as real / (c.tagCount[p.1] as real + k);
    var e1 := Put(e, p.0, p.1, x);
    PutEffect(e, p.0, p.1, x);
    PutEffect(e1, UNK, p.1, k / unk[p.1]);
  }

  /** The `#UNK#` entry written second wins, also when the token is `#UNK#`. */
  lemma UnknownStep(e: Table, k: real, unk: map<Tag, real>, seen: set<Tag>, w: Token, t: Tag, x: real)
    requires UnknownWritten(e, k, unk, seen)
    requires t in unk && unk[t] > 0.0
    ensures UnknownWritten(Put(Put(e, w, t, x), UNK, t, k / unk[t]), k, unk, seen + {t})
  {
    var e2 := Put(Put(e, w, t, x), UNK, t, k / unk[t]);
    forall s ensures Has(e2, UNK, s) <==> s in seen + {t} {
      UnknownEntry(e, k, unk, seen, w, t, x, s);
    }
    forall s | Has(e2, UNK, s) && s in unk
      ensures unk[s] > 0.0 && e2[UNK][s] == k / unk[s]
    {
      UnknownEntry(e, k, unk, seen, w, t, x, s);
    }
  }

  lemma UnknownEntry(e: Table, k: real, unk: map<Tag, real>, seen: set<Tag>, w: Token, t: Tag, x: real, s: Tag)
    requires UnknownWritten(e, k, unk, seen)
    requires t in unk && unk[t] > 0.0
    ensures Has(Put(Put(e, w, t, x), UNK, t, k / unk[t]), UNK, s) <==> s in seen + {t}
    ensures Has(Put(Put(e, w, t, x), UNK, t, k / unk[t]), UNK, s) && s in unk ==>
      unk[s] > 0.0 && Put(Put(e, w, t, x), UNK, t, k / unk[t])[UNK][s] == k / unk[s]
  {
    var e1 := Put(e, w, t, x);
    PutAt(e, w, t, x, UNK, s);
    PutAt(e1, UNK, t, k / unk[t], UNK, s);
  }

  /** The fill loop both estimators share, given the `#UNK#` denominator
      of each tag: every counted pair is written once, in any order. */
  method FillEmissions(c: Counts, k: real, unk: map<Tag, real>) returns (e: Table)
    requires Ready(c, k, unk)
    ensures Filled(e, c, k, unk, c.pairCount.Keys)
  {
    e := map[];
    var todo := c.pairCount.Keys;
    ghost var done: set<(Token, Tag)> := {};
    while todo != {}
      invariant done + todo == c.pairCount.Keys && done !! todo
      invariant Filled(e, c, k, unk, done)
      decreases todo
    {
      var p :| p in todo;
      e := WritePair(e, c, k, unk, p, done);
      done := done + {p};
      todo := todo - {p};
    }
  }

  /** The fill loop's final state is the table `KnownPairs` describes. */
  lemma FilledIsKnownPairs(e: Table, c: Counts, recs: seq<(Token, Tag)>, k: real, unk: map<Tag, real>)
    requires CountsOf(c.pairCount, multiset(recs)) && CountsOf(c.tagCount, multiset(Seconds(recs)))
    requires Ready(c, k, unk)
    requires Filled(e, c, k, unk, c.pairCount.Keys)
    ensures KnownPairs(e, recs, k)
    ensures forall t :: Has(e, UNK, t) ==> t in c.tagCount && t in unk && unk[t] > 0.0 && e[UNK][t] == k / unk[t]
  {
    FilledPairValues(e, c, recs, k, unk);
    FilledUnknownTags(e, c, recs, k, unk);
  }

  lemma FilledPairValues(e: Table, c: Counts, recs: seq<(Token, Tag)>, k: real, unk: map<Tag, real>)
    requires CountsOf(c.pairCount, multiset(recs)) && CountsOf(c.tagCount, multiset(Seconds(recs)))
    requires Ready(c, k, unk)
    requires PairsWritten(e, c, k, c.pairCount.Keys)
    ensures forall w, t :: w != UNK && Has(e, w, t) ==>
      TagCount(recs, t) as real + k > 0.0 &&
      e[w][t] == PairCount(recs, w, t) as real / (TagCount(recs, t) as real + k)
  {
    forall w, t | w != UNK && Has(e, w, t)
      ensures TagCount(recs, t) as real + k > 0.0 &&
              e[w][t] == PairCount(recs, w, t) as real / (TagCount(recs, t) as real + k)
    {
      FilledPairValue(e, c, recs, k, unk, w, t);
    }
  }

  lemma FilledPairValue(e: Table, c: Counts, recs: seq<(Token, Tag)>, k: real, unk: map<Tag, real>,
                        w: Token, t: Tag)
    requires CountsOf(c.pairCount, multiset(recs)) && CountsOf(c.tagCount, multiset(Seconds(recs)))
    requires Ready(c, k, unk)
    requires PairsWritten(e, c, k, c.pairCount.Keys)
    requires w != UNK && Has(e, w, t)
    ensures TagCount(recs, t) as real + k > 0.0
    ensures e[w][t] == PairCount(recs, w, t) as real / (TagCount(recs, t) as real + k)
  {
    assert (w, t) in c.pairCount;
    assert t in c.tagCount;
    assert c.pairCount[(w, t)] == PairCount(recs, w, t);
    assert c.tagCount[t] == TagCount(recs, t);
  }

  lemma FilledUnknownTags(e: Table, c: Counts, recs: seq<(Token, Tag)>, k: real, unk: map<Tag, real>)
    requires CountsOf(c.pairCount, multiset(recs)) && CountsOf(c.tagCount, multiset(Seconds(recs)))
    requires Ready(c, k, unk)
    requires UnknownWritten(e, k, unk, TagSet(c.pairCount.Keys))
    ensures forall t :: Has(e, UNK, t) <==> t in Seconds(recs)
    ensures forall t :: Has(e, UNK, t) ==> t in c.tagCount && t in unk && unk[t] > 0.0 && e[UNK][t] == k / unk[t]
  {
    CountedTags(c, recs);
    forall t | Has(e, UNK, t)
      ensures t in c.tagCount && t in unk && unk[t] > 0.0 && e[UNK][t] == k / unk[t]
    {
      var p :| p in c.pairCount && p.1 == t;
    }
  }

  /** The tags of the counted pairs are the tags of the records. */
  lemma CountedTags(c: Counts, recs: seq<(Token, Tag)>)
    requires CountsOf(c.pairCount, multiset(recs))
    ensures forall t :: t in TagSet(c.pairCount.Keys) <==> t in Seconds(recs)
  {
    forall t ensures t in TagSet(c.pairCount.Keys) <==> t in Seconds(recs) {
      if t in Seconds(recs) {
        var i :| 0 <= i < |recs| && Seconds(recs)[i] == t;
        assert recs[i] in multiset(recs);
      }
      if t in TagSet(c.pairCount.Keys) {
        var p :| p in c.pairCount && p.1 == t;
        SecondsMember(recs, p);
      }
    }
  }

  lemma GlobalFromFill(e: Table, c: Counts, recs: seq<(Token, Tag)>, k: real, unk: map<Tag, real>)
    requires CountsOf(c.pairCount, multiset(recs)) && CountsOf(c.tagCount, multiset(Seconds(recs)))
    requires forall t :: t in c.tagCount ==> t in unk && unk[t] == k + |recs| as real
    requires Ready(c, k, unk) && Filled(e, c, k, unk, c.pairCount.Keys)
    ensures GlobalSmoothed(e, recs, k)
  {
    FilledIsKnownPairs(e, c, recs, k, unk);
    UniformUnknown(e, c, recs, k, unk);
  }

  lemma PerTagFromFill(e: Table, c: Counts, recs: seq<(Token, Tag)>, k: real, unk: map<Tag, real>)
    requires CountsOf(c.pairCount, multiset(recs)) && CountsOf(c.tagCount, multiset(Seconds(recs)))
    requires forall t :: t in c.tagCount ==> t in unk && unk[t] == c.tagCount[t] as real + k
    requires Ready(c, k, unk) && Filled(e, c, k, unk, c.pairCount.Keys)
    ensures PerTagSmoothed(e, recs, k)
  {
    FilledIsKnownPairs(e, c, recs, k, unk);
    PerTagUnknown(e, c, recs, k, unk);
  }

  /** `#UNK#` entries over one shared denominator. */
  lemma UniformUnknown(e: Table, c: Counts, recs: seq<(Token, Tag)>, k: real, unk: map<Tag, real>)
    requires forall t :: Has(e, UNK, t) ==> t in c.tagCount && t in unk && unk[t] > 0.0 && e[UNK][t] == k / unk[t]
    requires forall t :: t in c.tagCount ==> t in unk && unk[t] == k + |recs| as real
    ensures forall t :: Has(e, UNK, t) ==>
      k + |recs| as real > 0.0 && e[UNK][t] == k / (k + |recs| as real)
  {
  }

  /** `#UNK#` entries over each tag's own denominator. */
  lemma PerTagUnknown(e: Table, c: Counts, recs: seq<(Token, Tag)>, k: real, unk: map<Tag, real>)
    requires CountsOf(c.tagCount, multiset(Seconds(recs)))
    requires forall t :: Has(e, UNK, t) ==> t in c.tagCount && t in unk && unk[t] > 0.0 && e[UNK][t] == k / unk[t]
    requires forall t :: t in c.tagCount ==> t in unk && unk[t] == c.tagCount[t] as real + k
    ensures forall t :: Has(e, UNK, t) ==>
      TagCount(recs, t) as real + k > 0.0 && e[UNK][t] == k / (TagCount(recs, t) as real + k)
  {
  }

  /** `estimate_emission_params` of the global variant. */
  method EstimateEmissionGlobal(lines: seq<string>, k: real) returns (r: Result<Table, ParseError>)
    requires k >= 0.0
    ensures r.Failure? <==> ParseLines(lines).Failure?
    ensures r.Failure? ==> r.error == ParseLines(lines).error
    ensures r.Success? ==> GlobalSmoothed(r.value, Records(ParseLines(lines).value), k)
  {
    var counted := CountRecords(lines);
    if counted.Failure? {
      return Failure(counted.error);
    }
    var c := counted.value;
    ghost var recs := Records(ParseLines(lines).value);
    var total := SumValues(c.tagCount, multiset(Seconds(recs)));
    var unkDenominator := k + total as real;
    forall t | t in c.tagCount
      ensures total > 0
    {
      assert t in multiset(Seconds(recs));
    }
    var unk := map t | t in c.tagCount :: unkDenominator;
    CountsReady(c, recs, k, unk);
    var e := FillEmissions(c, k, unk);
    GlobalFromFill(e, c, recs, k, unk);
    return Success(e);
  }

  /** `estimate_emission_params` of the per-tag variant. */
  method EstimateEmissionPerTag(lines: seq<string>, k: real) returns (r: Result<Table, ParseError>)
    requires k >= 0.0
    ensures r.Failure? <==> ParseLines(lines).Failure?
    ensures r.Failure? ==> r.error == ParseLines(lines).error
    ensures r.Success? ==> PerTagSmoothed(r.value, Records(ParseLines(lines).value), k)
  {
    var counted := CountRecords(lines);
    if counted.Failure? {
      return Failure(counted.error);
    }
    var c := counted.value;
    ghost var recs := Records(ParseLines(lines).value);
    var unk := map t | t in c.tagCount :: c.tagCount[t] as real + k;
    forall t | t in c.tagCount ensures unk[t] > 0.0 {
      assert t in multiset(Seconds(recs));
    }
    CountsReady(c, recs, k, unk);
    var e := FillEmissions(c, k, unk);
    PerTagFromFill(e, c, recs, k, unk);
    return Success(e);
  }

  /** With `k > 0` every observed pair's emission lies strictly between 0
      and 1: the pair occurs at least once and at most as often as its tag. */
  lemma PairEmissionBounds(e: Table, recs: seq<(Token, Tag)>, k: real, w: Token, t: Tag)
    requires KnownPairs(e, recs, k) && k > 0.0
    requires w != UNK && Has(e, w, t)
    ensures 0.0 < e[w][t] < 1.0
  {
    var n, m := PairEntry(e, recs, k, w, t);
    PairCountBounded(recs, w, t);
    SmoothedFraction(n, m, k, e[w][t]);
  }

  /** The counts behind one observed pair's entry. */
  lemma PairEntry(e: Table, recs: seq<(Token, Tag)>, k: real, w: Token, t: Tag) returns (n: nat, m: nat)
    requires KnownPairs(e, recs, k)
    requires w != UNK && Has(e, w, t)
    ensures n == PairCount(recs, w, t) && m == TagCount(recs, t)
    ensures 1 <= n && m as real + k > 0.0 && e[w][t] == n as real / (m as real + k)
  {
    n, m := PairCount(recs, w, t), TagCount(recs, t);
    assert (w, t) in multiset(recs);
  }

  /** `n / (m + k)` with `1 <= n <= m` and `k > 0` is a proper fraction. */
  lemma SmoothedFraction(n: nat, m: nat, k: real, x: real)
    requires 1 <= n <= m && k > 0.0 && x == n as real / (m as real + k)
    ensures 0.0 < x < 1.0
  {
    ProperFraction(n as real, m as real + k);
  }

  /** With `k > 0` the global `#UNK#` mass of every observed tag lies
      strictly between 0 and 1. */
  lemma GlobalUnknownBounds(e: Table, recs: seq<(Token, Tag)>, k: real, t: Tag)
    requires GlobalSmoothed(e, recs, k) && k > 0.0
    requires Has(e, UNK, t)
    ensures 0.0 < e[UNK][t] < 1.0
  {
    assert t in Seconds(recs);
    ProperFraction(k, k + |recs| as real);
  }

  /** With `k > 0` the per-tag `#UNK#` mass of every observed tag is
      positive and below 1. */
  lemma PerTagUnknownBounds(e: Table, recs: seq<(Token, Tag)>, k: real, t: Tag)
    requires PerTagSmoothed(e, recs, k) && k > 0.0
    requires Has(e, UNK, t)
    ensures 0.0 < e[UNK][t] < 1.0
  {
    var u := PerTagUnknownShare(e, recs, k, t);
    TagCountBounds(recs, t);
    UnknownFraction(k, TagCount(recs, t), u);
  }

  /** The `#UNK#` entry of a tag the per-tag table lists. */
  lemma PerTagUnknownShare(e: Table, recs: seq<(Token, Tag)>, k: real, t: Tag) returns (u: real)
    requires PerTagSmoothed(e, recs, k) && Has(e, UNK, t)
    ensures t in Seconds(recs) && u == e[UNK][t] && u == k / (TagCount(recs, t) as real + k)
  {
    u := e[UNK][t];
  }

  /** `k / (m + k)` with `m >= 1` and `k > 0` is a proper fraction. */
  lemma UnknownFraction(k: real, m: nat, x: real)
    requires m >= 1 && k > 0.0 && x == k / (m as real + k)
    ensures 0.0 < x < 1.0
  {
    ProperFraction(k, m as real + k);
  }

  /** The emissions of tag `t` from the training tokens add up to the
      share of its records whose token is not `#UNK#`: a record
      `(#UNK#, t)` has its entry overwritten by the smoothing mass. */
  lemma KnownColumnSum(e: Table, recs: seq<(Token, Tag)>, k: real, t: Tag)
    requires KnownPairs(e, recs, k) && TagCount(recs, t) as real + k > 0.0
    ensures PairCount(recs, UNK, t) <= TagCount(recs, t)
    ensures Sum(Column(e, t) - {UNK}) == KnownShare(TagCount(recs, t), PairCount(recs, UNK, t), k)
  {
    var column, tokens := Column(e, t) - {UNK}, multiset(LeftOf(recs, t))[UNK := 0];
    var d := TagCount(recs, t) as real + k;
    forall w ensures w in column <==> w in tokens {
      ColumnEntry(e, recs, k, t, w);
    }
    forall w | w in column ensures column[w] == tokens[w] as real / d {
      ColumnEntry(e, recs, k, t, w);
    }
    SumOfFrequencies(column, tokens, d);
    KnownTokens(recs, t);
  }

  /** The training tokens of tag `t` other than `#UNK#`. */
  lemma KnownTokens(recs: seq<(Token, Tag)>, t: Tag)
    ensures PairCount(recs, UNK, t) <= TagCount(recs, t)
    ensures |multiset(LeftOf(recs, t))[UNK := 0]| == TagCount(recs, t) - PairCount(recs, UNK, t)
  {
    var tokens := multiset(LeftOf(recs, t));
    LeftOfCount(recs, t, UNK);
    LeftOfLength(recs, t);
    assert |tokens[UNK := 0]| + tokens[UNK] == |tokens|;
  }

  /** One token's entry in the column of tag `t`. */
  lemma ColumnEntry(e: Table, recs: seq<(Token, Tag)>, k: real, t: Tag, w: Token)
    requires KnownPairs(e, recs, k)
    ensures w in Column(e, t) - {UNK} <==> w in multiset(LeftOf(recs, t))[UNK := 0]
    ensures w in Column(e, t) - {UNK} ==>
      TagCount(recs, t) as real + k > 0.0 &&
      (Column(e, t) - {UNK})[w] == multiset(LeftOf(recs, t))[UNK := 0][w] as real / (TagCount(recs, t) as real + k)
  {
    LeftOfCount(recs, t, w);
    assert w in Column(e, t) - {UNK} <==> w != UNK && Has(e, w, t);
  }

  /** Per-tag smoothing normalises every column up to the records spelled
      `#UNK#`: the emissions of an observed tag `t`, `#UNK#` included, add
      up to 1 less the share of the records `(#UNK#, t)`, and to exactly 1
      when there are none. */
  lemma PerTagColumnSum(e: Table, recs: seq<(Token, Tag)>, k: real, t: Tag)
    requires PerTagSmoothed(e, recs, k) && t in Seconds(recs)
    ensures TagCount(recs, t) as real + k > 0.0
    ensures Sum(Column(e, t)) == 1.0 - PairCount(recs, UNK, t) as real / (TagCount(recs, t) as real + k)
    ensures Sum(Column(e, t)) == 1.0 <==> (UNK, t) !in recs
  {
    var m, p := TagCount(recs, t), PairCount(recs, UNK, t);
    var u := PerTagUnknownEntry(e, recs, k, t);
    KnownColumnSum(e, recs, k, t);
    SumRemove(Column(e, t), UNK);
    ShareLeft(m, p, k, Sum(Column(e, t) - {UNK}), u);
  }

  /** `(m - p) / (m + k) + k / (m + k) == 1 - p / (m + k)`, which is 1
      exactly when `p` is 0. */
  lemma ShareLeft(m: nat, p: nat, k: real, known: real, u: real)
    requires p <= m && m as real + k > 0.0
    requires known == KnownShare(m, p, k) && u == k / (m as real + k)
    ensures known + u == 1.0 - p as real / (m as real + k)
    ensures known + u == 1.0 <==> p == 0
  {
    var d := m as real + k;
    var q := p as real / d;
    AddFractions(m - p, p, m, d, known, q, known + q);
    WholeSplit(m as real, k, m as real / d, u);
    if p > 0 {
      DividePositive(p as real, d);
    }
  }

  /** Under global smoothing the column of an observed tag `t` sums to its
      known share `(tag count - records (#UNK#, t)) / (tag count + k)` plus
      `k / (k + records)`. */
  lemma GlobalColumnSum(e: Table, recs: seq<(Token, Tag)>, k: real, t: Tag)
    requires GlobalSmoothed(e, recs, k) && t in Seconds(recs) && k >= 0.0
    ensures PairCount(recs, UNK, t) <= TagCount(recs, t)
    ensures k + |recs| as real > 0.0 && TagCount(recs, t) as real + k > 0.0
    ensures Sum(Column(e, t)) ==
      KnownShare(TagCount(recs, t), PairCount(recs, UNK, t), k) + GlobalShare(|recs|, k)
  {
    var u := GlobalUnknownEntry(e, recs, k, t);
    TagCountBounds(recs, t);
    KnownColumnSum(e, recs, k, t);
    SumRemove(Column(e, t), UNK);
  }

  /** So global smoothing does not normalise: for `k > 0` that column sum
      is at most 1, and is 1 exactly when every record is tagged `t` and
      none is `(#UNK#, t)`. */
  lemma GlobalColumnDeficit(e: Table, recs: seq<(Token, Tag)>, k: real, t: Tag)
    requires GlobalSmoothed(e, recs, k) && t in Seconds(recs)
    requires k > 0.0
    ensures Sum(Column(e, t)) <= 1.0
    ensures Sum(Column(e, t)) == 1.0 <==> TagCount(recs, t) == |recs| && (UNK, t) !in recs
  {
    TagCountBounds(recs, t);
    assert (UNK, t) in recs <==> (UNK, t) in multiset(recs);
    GlobalColumnSum(e, recs, k, t);
    GlobalDeficit(TagCount(recs, t), PairCount(recs, UNK, t), |recs|, k, Sum(Column(e, t)));
  }

  /** The share `(m - p) / (m + k)` that `m` records less `p` of them hold
      when `k` is added to the denominator. */
  function KnownShare(m: nat, p: nat, k: real): real
    requires m as real + k > 0.0
  {
    (m - p) as real / (m as real + k)
  }

  /** The global `#UNK#` mass `k / (k + n)` over `n` records. */
  function GlobalShare(n: nat, k: real): real
    requires k + n as real > 0.0
  {
    k / (k + n as real)
  }

  /** `(m - p) / (m + k) + k / (k + n)` with `p <= m <= n`, `m >= 1` and
      `k > 0` is at most 1, and is 1 exactly when `m == n` and `p == 0`. */
  lemma GlobalDeficit(m: nat, p: nat, n: nat, k: real, s: real)
    requires p <= m && 1 <= m <= n && k > 0.0
    requires s == KnownShare(m, p, k) + GlobalShare(n, k)
    ensures s <= 1.0 && (s == 1.0 <==> m == n && p == 0)
  {
    var mr, nr, d := m as real, n as real, m as real + k;
    var known, q := KnownShare(m, p, k), p as real / d;
    AddFractions(m - p, p, m, d, known, q, known + q);
    WholeSplit(mr, k, mr / d, k / d);
    LargerDenominator(k, d, k + nr);
    if p > 0 {
      DividePositive(p as real, d);
    }
  }

  /** An observed tag occurs at least once and at most once per record. */
  lemma TagCountBounds(recs: seq<(Token, Tag)>, t: Tag)
    requires t in Seconds(recs)
    ensures 1 <= TagCount(recs, t) <= |recs|
  {
    OccurrenceBounds(Seconds(recs), t);
  }

  /** The `#UNK#` entry of an observed tag under per-tag smoothing. */
  lemma PerTagUnknownEntry(e: Table, recs: seq<(Token, Tag)>, k: real, t: Tag) returns (u: real)
    requires PerTagSmoothed(e, recs, k) && t in Seconds(recs)
    ensures UNK in Column(e, t) && u == Column(e, t)[UNK]
    ensures TagCount(recs, t) as real + k > 0.0 && u == k / (TagCount(recs, t) as real + k)
  {
    assert Has(e, UNK, t);
    u := e[UNK][t];
  }

  /** The `#UNK#` entry of an observed tag under global smoothing. */
  lemma GlobalUnknownEntry(e: Table, recs: seq<(Token, Tag)>, k: real, t: Tag) returns (u: real)
    requires GlobalSmoothed(e, recs, k) && t in Seconds(recs)
    ensures UNK in Column(e, t) && u == Column(e, t)[UNK]
    ensures k + |recs| as real > 0.0 && u == GlobalShare(|recs|, k)
  {
    assert Has(e, UNK, t);
    u := e[UNK][t];
  }
}
