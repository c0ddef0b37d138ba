/** The bounded k-best Viterbi search (`viterbi` in Task2.py and `k_viterbi`
    in Task3.py, which are the same code).  Column t of `viterbi_matrix`
    holds one bucket per tag; the bucket of tag v at step t receives every
    tuple of every bucket of column t-1, its path extended by v and its key
    replaced by `-(key * P(v|u) * P(word|v))`.  After each `put` the bucket
    drops its smallest tuple when it holds more than k.  The answer is the
    k-th smallest `(-key, path[1:])` over the last column, or all `'O'` when
    there are fewer than k of them.

    The stored key starts at -1.0 and is negated at every step, so its sign
    alternates with t: at odd steps it is the path's weight and the bucket
    keeps the heaviest paths, at even steps it is minus the weight and the
    bucket keeps the lightest ones (`Retained`). */
module Decoder {
  import opened Tables
  import opened Corpus
  import opened Ordering
  import opened Beam
  import opened Bags

  /** The tuples of one `PriorityQueue`, in no particular order. */
  type Bucket = seq<Entry>

  /** One column `viterbi_matrix[t]`: the bucket of every tag that has one. */
  type Layer = map<Tag, Bucket>

  /** `add_start_stop_tags`: a sentence wrapped in START and STOP. */
  function AddStartStop(s: seq<string>): (r: seq<string>)
    ensures |r| == |s| + 2
    ensures r[0] == START && r[|r| - 1] == STOP && r[1..|r| - 1] == s
  {
    [START] + s + [STOP]
  }

  /** `viterbi_matrix[0]`: the single path `['START']` under the key -1.0. */
  const Seed: Layer := map[START := [Entry(-1.0, [START])]]

  /** The word whose emission row is read: a word the table has no row for
      reads as `#UNK#`. */
  function Lex(e: Table, w: Token): Token {
    if w in e then w else UNK
  }

  /** A sentence's words after that substitution. */
  function LexAll(e: Table, words: seq<Token>): (ws: seq<Token>)
    ensures |ws| == |words|
  {
    seq(|words|, i requires 0 <= i < |words| => Lex(e, words[i]))
  }

  /** The tuple pushed when the path of `x`, stored in bucket `u`, is
      extended by tag `v` at word `w`; a missing entry reads as 0.0. */
  function Extend(x: Entry, u: Tag, v: Tag, w: Token, e: Table, tr: Table): Entry {
    Entry(-(x.key * Lookup(tr, u, v) * Lookup(e, w, v)), x.path + [v])
  }

  /** The extension step for the tuples of bucket `u`. */
  function Extender(u: Tag, v: Tag, w: Token, e: Table, tr: Table): Entry -> Entry {
    x => Extend(x, u, v, w, e, tr)
  }

  /** Everything pushed into bucket `v` of the next column: every tuple of
      every bucket of `prev`, extended by `v`. */
  ghost function Offers(prev: Layer, v: Tag, w: Token, e: Table, tr: Table): multiset<Entry> {
    MUnion(OfferMap(prev, v, w, e, tr))
  }

  /** What each bucket `u` of `prev` contributes to bucket `v`. */
  ghost function OfferMap(prev: Layer, v: Tag, w: Token, e: Table, tr: Table): map<Tag, multiset<Entry>> {
    map u | u in prev :: multiset(MapAll(Extender(u, v, w, e, tr), prev[u]))
  }

  /** All tuples of a column. */
  ghost function Entries(layer: Layer): multiset<Entry> {
    MUnion(EntryMap(layer))
  }

  ghost function EntryMap(layer: Layer): map<Tag, multiset<Entry>> {
    map u | u in layer :: multiset(layer[u])
  }

  /** Column `cur` is what one step at word `w` makes of column `prev`: a
      tag has a bucket when it is in the word's emission row and something
      was pushed into it, and each bucket holds the k largest tuples pushed
      into it. */
  ghost predicate Step(prev: Layer, cur: Layer, w: Token, e: Table, tr: Table, k: nat) {
    && (forall v :: v in cur <==> v in Row(e, w) && Offers(prev, v, w, e, tr) != multiset{})
    && (forall v :: v in cur ==> TopK(multiset(cur[v]), Offers(prev, v, w, e, tr), k))
  }

  /** The columns 0..n of a search over `words`. */
  ghost predicate Run(layers: seq<Layer>, words: seq<Token>, e: Table, tr: Table, k: nat) {
    && |layers| == |words| + 1
    && layers[0] == Seed
    && forall t :: 1 <= t <= |words| ==> Step(layers[t - 1], layers[t], Lex(e, words[t - 1]), e, tr, k)
  }

  /** `(-score, path[1:])`: what `sorted` ranks for a stored tuple. */
  function Scored(x: Entry): Entry {
    Entry(-x.key, if x.path == [] then [] else x.path[1..])
  }

  /** `opt_paths` as a multiset. */
  ghost function Finals(layer: Layer): multiset<Entry> {
    MUnion(FinalMap(layer))
  }

  ghost function FinalMap(layer: Layer): map<Tag, multiset<Entry>> {
    map v | v in layer :: multiset(MapAll(Scored, layer[v]))
  }

  /** The answer for the final candidates: the path of the k-th tuple of
      their ascending order (which is unique, see `SortedUnique`), or n
      background tags when there are fewer than k. */
  ghost predicate Chosen(best: seq<Tag>, finals: multiset<Entry>, k: nat, n: nat)
    requires k >= 1
  {
    if k <= |finals| then
      forall s: seq<Entry> :: Sorted(s) && multiset(s) == finals ==> best == s[k - 1].path
    else
      best == seq(n, _ => OUTSIDE)
  }

  /** The pushes into bucket `v` of the next column: the two inner loops
      of the search for one tag `v`. */
  method FillBucket(prev: Layer, v: Tag, w: Token, e: Table, tr: Table, k: nat) returns (b: Bucket)
    ensures TopK(multiset(b), Offers(prev, v, w, e, tr), k)
  {
    b := [];
    ghost var m := OfferMap(prev, v, w, e, tr);
    ghost var acc: multiset<Entry> := multiset{};
    var todo := prev.Keys;
    MUnionEnds(m);
    while todo != {}
      invariant todo <= prev.Keys
      invariant TopK(multiset(b), acc, k)
      invariant acc == MUnion(m - todo)
      decreases todo
    {
      var u :| u in todo;
      b := OfferAll(b, prev[u], Extender(u, v, w, e, tr), k, acc);
      MUnionGrow(m, todo, u);
      acc := acc + m[u];
      todo := todo - {u};
    }
  }

  /** The innermost loop: every tuple of one bucket, extended by `extend`,
      pushed in turn into the bucket being filled. */
  method OfferAll(b: Bucket, queue: Bucket, extend: Entry -> Entry, k: nat, ghost offered: multiset<Entry>)
    returns (b': Bucket)
    requires TopK(multiset(b), offered, k)
    ensures TopK(multiset(b'), offered + multiset(MapAll(extend, queue)), k)
  {
    b' := b;
    ghost var acc := offered;
    for j := 0 to |queue|
      invariant TopK(multiset(b'), acc, k)
      invariant acc == offered + multiset(MapAll(extend, queue[..j]))
    {
      var x := extend(queue[j]);
      b' := Offer(b', x, k, acc);
      acc := acc + multiset{x};
      MapAllStep(extend, queue, j);
    }
    assert queue[..|queue|] == queue;
  }

  /** One step t of the search: a bucket for each tag of the word's
      emission row. */
  method FillLayer(prev: Layer, w: Token, e: Table, tr: Table, k: nat) returns (cur: Layer)
    requires k >= 1
    ensures Step(prev, cur, w, e, tr, k)
  {
    cur := map[];
    var todo := Row(e, w).Keys;
    while todo != {}
      invariant todo <= Row(e, w).Keys
      invariant forall v :: v in cur <==> v in Row(e, w) && v !in todo && Offers(prev, v, w, e, tr) != multiset{}
      invariant forall v :: v in cur ==> TopK(multiset(cur[v]), Offers(prev, v, w, e, tr), k)
      decreases |todo|
    {
      var v :| v in todo;
      var b := FillBucket(prev, v, w, e, tr, k);
      // the bucket comes into being with its first `put`, which leaves it
      // non-empty since k >= 1
      if b != [] {
        cur := cur[v := b];
      }
      todo := todo - {v};
    }
  }

  /** The loop that builds `opt_paths` from the last column. */
  method Collect(layer: Layer) returns (opt: seq<Entry>)
    ensures multiset(opt) == Finals(layer)
  {
    opt := [];
    ghost var m := FinalMap(layer);
    var todo := layer.Keys;
    MUnionEnds(m);
    while todo != {}
      invariant todo <= layer.Keys
      invariant multiset(opt) == MUnion(m - todo)
      decreases todo
    {
      var v :| v in todo;
      opt := AppendScored(opt, layer[v], Scored);
      MUnionGrow(m, todo, v);
      todo := todo - {v};
    }
  }

  /** The inner loop: one `(-score, path[1:])` appended per tuple of a
      bucket. */
  method AppendScored(opt: seq<Entry>, queue: Bucket, scored: Entry -> Entry) returns (opt': seq<Entry>)
    ensures multiset(opt') == multiset(opt) + multiset(MapAll(scored, queue))
  {
    opt' := opt;
    for j := 0 to |queue|
      invariant multiset(opt') == multiset(opt) + multiset(MapAll(scored, queue[..j]))
    {
      opt' := opt' + [scored(queue[j])];
      MapAllStep(scored, queue, j);
    }
    assert queue[..|queue|] == queue;
  }

  /** `viterbi(emission, transition, sentence, k)` on the sentence's words. */
  method Viterbi(e: Table, tr: Table, words: seq<Token>, k: nat) returns (best: seq<Tag>, ghost layers: seq<Layer>)
    requires k >= 1
    ensures Run(layers, words, e, tr, k)
    ensures Chosen(best, Finals(layers[|words|]), k, |words|)
    ensures |best| == |words|
    ensures k <= |Finals(layers[|words|])| ==>
      forall i :: 0 <= i < |best| ==> best[i] in Row(e, Lex(e, words[i]))
  {
    var n := |words|;
    var prev;
    prev, layers := Search(e, tr, words, k);
    var opt := Collect(prev);
    var ranked := Sort(opt);
    if k <= |ranked| {
      best := ranked[k - 1].path;
      BestShape(layers, words, e, tr, k, ranked);
    } else {
      best := seq(n, _ => OUTSIDE);
    }
    ChosenBySort(ranked, Finals(prev), k, n, best);
  }

  /** The loop over the words: one column per word, each made from the
      previous one. */
  method Search(e: Table, tr: Table, words: seq<Token>, k: nat) returns (last: Layer, ghost layers: seq<Layer>)
    requires k >= 1
    ensures Run(layers, words, e, tr, k) && last == layers[|words|]
  {
    var n := |words|;
    last := Seed;
    layers := [Seed];
    for t := 1 to n + 1
      invariant Run(layers, words[..t - 1], e, tr, k) && layers[t - 1] == last
    {
      var cur := FillLayer(last, Lex(e, words[t - 1]), e, tr, k);
      RunGrow(layers, words, e, tr, k, t, cur);
      layers := layers + [cur];
      last := cur;
    }
    assert words[..n] == words;
  }

  /** A run over the first t-1 words and one more step make a run over
      the first t words. */
  lemma RunGrow(layers: seq<Layer>, words: seq<Token>, e: Table, tr: Table, k: nat, t: nat, cur: Layer)
    requires 1 <= t <= |words| && Run(layers, words[..t - 1], e, tr, k)
    requires Step(layers[t - 1], cur, Lex(e, words[t - 1]), e, tr, k)
    ensures Run(layers + [cur], words[..t], e, tr, k)
  {
    var ls := layers + [cur];
    forall s | 1 <= s <= t
      ensures Step(ls[s - 1], ls[s], Lex(e, words[..t][s - 1]), e, tr, k)
    {
      if s < t {
        assert words[..t][s - 1] == words[..t - 1][s - 1];
      }
    }
  }

  /** Taking the k-th tuple of one ascending arrangement picks what every
      ascending arrangement would. */
  lemma ChosenBySort(ranked: seq<Entry>, finals: multiset<Entry>, k: nat, n: nat, best: seq<Tag>)
    requires k >= 1 && Sorted(ranked) && multiset(ranked) == finals
    requires best == if k <= |ranked| then ranked[k - 1].path else seq(n, _ => OUTSIDE)
    ensures Chosen(best, finals, k, n)
  {
    assert |ranked| == |finals|;
    if k <= |ranked| {
      forall s: seq<Entry> | Sorted(s) && multiset(s) == finals
        ensures best == s[k - 1].path
      {
        SortedUnique(s, ranked);
      }
    }
  }

  /** The k-th final candidate has one tag per word, each from its word's
      emission row. */
  lemma BestShape(layers: seq<Layer>, words: seq<Token>, e: Table, tr: Table, k: nat, ranked: seq<Entry>)
    requires Run(layers, words, e, tr, k) && 1 <= k <= |ranked|
    requires multiset(ranked) == Finals(layers[|words|])
    ensures |ranked[k - 1].path| == |words|
    ensures forall i :: 0 <= i < |words| ==> ranked[k - 1].path[i] in Row(e, Lex(e, words[i]))
  {
    var ws := LexAll(e, words);
    assert ranked[k - 1] in multiset(ranked);
    LayerShapes(layers, words, e, tr, k, |words|);
    FinalShape(layers[|words|], |words|, ws, e, tr, ranked[k - 1]);
  }

  /** Two columns with the same buckets, each up to the order of its
      tuples. */
  ghost predicate SameColumns(a: Layer, b: Layer) {
    && a.Keys == b.Keys
    && forall v :: v in a ==> multiset(a[v]) == multiset(b[v])
  }

  /** Columns that agree up to order offer the same tuples to every bucket
      of the next column. */
  lemma OffersAgree(prev: Layer, prev': Layer, v: Tag, w: Token, e: Table, tr: Table)
    requires SameColumns(prev, prev')
    ensures Offers(prev, v, w, e, tr) == Offers(prev', v, w, e, tr)
  {
    var m, m' := OfferMap(prev, v, w, e, tr), OfferMap(prev', v, w, e, tr);
    forall u | u in m
      ensures m[u] == m'[u]
    {
      MapAllPermutation(Extender(u, v, w, e, tr), prev[u], prev'[u]);
    }
    SameMaps(m, m');
  }

  /** One step is determined up to order by the column it starts from,
      whatever order the buckets and their tuples are visited in. */
  lemma StepUnique(prev: Layer, prev': Layer, cur: Layer, cur': Layer, w: Token, e: Table, tr: Table, k: nat)
    requires SameColumns(prev, prev')
    requires Step(prev, cur, w, e, tr, k) && Step(prev', cur', w, e, tr, k)
    ensures SameColumns(cur, cur')
  {
    KeysUnique(prev, prev', cur, cur', w, e, tr, k);
    forall v | v in cur
      ensures multiset(cur[v]) == multiset(cur'[v])
    {
      BucketUnique(prev, prev', cur, cur', w, e, tr, k, v);
    }
  }

  /** The tags that have a bucket in `StepUnique`. */
  lemma KeysUnique(prev: Layer, prev': Layer, cur: Layer, cur': Layer, w: Token, e: Table, tr: Table, k: nat)
    requires SameColumns(prev, prev')
    requires Step(prev, cur, w, e, tr, k) && Step(prev', cur', w, e, tr, k)
    ensures cur.Keys == cur'.Keys
  {
    forall v
      ensures v in cur <==> v in cur'
    {
      BucketUnique(prev, prev', cur, cur', w, e, tr, k, v);
    }
  }

  /** The bucket of tag `v` in `StepUnique`. */
  lemma BucketUnique(prev: Layer, prev': Layer, cur: Layer, cur': Layer, w: Token, e: Table, tr: Table, k: nat, v: Tag)
    requires SameColumns(prev, prev')
    requires Step(prev, cur, w, e, tr, k) && Step(prev', cur', w, e, tr, k)
    ensures v in cur <==> v in cur'
    ensures v in cur ==> multiset(cur[v]) == multiset(cur'[v])
  {
    OffersAgree(prev, prev', v, w, e, tr);
    if v in cur {
      TopKUnique(multiset(cur[v]), multiset(cur'[v]), Offers(prev, v, w, e, tr), k);
    }
  }

  /** Two searches over the same words build the same columns, up to the
      order of the tuples in each bucket. */
  lemma {:induction false} RunUnique(layers: seq<Layer>, layers': seq<Layer>, words: seq<Token>, e: Table, tr: Table, k: nat, t: nat)
    requires Run(layers, words, e, tr, k) && Run(layers', words, e, tr, k)
    requires t <= |words|
    ensures SameColumns(layers[t], layers'[t])
  {
    if t > 0 {
      RunUnique(layers, layers', words, e, tr, k, t - 1);
      StepUnique(layers[t - 1], layers'[t - 1], layers[t], layers'[t], Lex(e, words[t - 1]), e, tr, k);
    }
  }

  /** Columns that agree up to order have the same final candidates. */
  lemma FinalsAgree(a: Layer, b: Layer)
    requires SameColumns(a, b)
    ensures Finals(a) == Finals(b)
  {
    var m, m' := FinalMap(a), FinalMap(b);
    forall v | v in m
      ensures m[v] == m'[v]
    {
      MapAllPermutation(Scored, a[v], b[v]);
    }
    SameMaps(m, m');
  }

  /** The candidates determine the answer: there is an ascending
      arrangement, and every one has the same k-th tuple. */
  lemma ChosenUnique(best: seq<Tag>, best': seq<Tag>, finals: multiset<Entry>, k: nat, n: nat)
    requires k >= 1 && Chosen(best, finals, k, n) && Chosen(best', finals, k, n)
    ensures best == best'
  {
    if k <= |finals| {
      var s := SortedExists(finals);
    }
  }

  /** `viterbi` returns the same path however its dictionaries are
      iterated: any two runs of the search over the same words, tables and
      k, and any answers chosen from them, agree. */
  lemma ViterbiDeterministic(e: Table, tr: Table, words: seq<Token>, k: nat, layers: seq<Layer>, layers': seq<Layer>, best: seq<Tag>, best': seq<Tag>)
    requires k >= 1
    requires Run(layers, words, e, tr, k) && Chosen(best, Finals(layers[|words|]), k, |words|)
    requires Run(layers', words, e, tr, k) && Chosen(best', Finals(layers'[|words|]), k, |words|)
    ensures best == best'
  {
    RunUnique(layers, layers', words, e, tr, k, |words|);
    FinalsAgree(layers[|words|], layers'[|words|]);
    ChosenUnique(best, best', Finals(layers[|words|]), k, |words|);
  }

  /** `(-1)^(t+1) * w`. */
  function Signed(t: nat, w: real): real {
    if t % 2 == 0 then -w else w
  }

  /** The product of the `P(path[i]|path[i-1]) * P(ws[i-1]|path[i])`
      factors for i = 1..t, missing entries reading as 0.0. */
  ghost function Weight(path: seq<Tag>, ws: seq<Token>, e: Table, tr: Table, t: nat): real
    requires t < |path| && t <= |ws|
  {
    if t == 0 then 1.0
    else Weight(path, ws, e, tr, t - 1) * (Lookup(tr, path[t - 1], path[t]) * Lookup(e, ws[t - 1], path[t]))
  }

  /** The shape of a tuple stored in bucket `v` at step t: its path has
      t+1 tags, starts at START, ends at `v`, takes its i-th tag from the
      emission row of word i, and its key is `(-1)^(t+1)` times its
      weight. */
  ghost predicate Shaped(x: Entry, t: nat, v: Tag, ws: seq<Token>, e: Table, tr: Table) {
    && t <= |ws|
    && |x.path| == t + 1
    && x.path[0] == START
    && x.path[t] == v
    && (forall i :: 1 <= i <= t ==> x.path[i] in Row(e, ws[i - 1]))
    && x.key == Signed(t, Weight(x.path, ws, e, tr, t))
  }

  ghost predicate AllShaped(layer: Layer, t: nat, ws: seq<Token>, e: Table, tr: Table) {
    forall v, x :: v in layer && x in layer[v] ==> Shaped(x, t, v, ws, e, tr)
  }

  lemma {:induction false} WeightPrefix(p: seq<Tag>, v: Tag, ws: seq<Token>, e: Table, tr: Table, t: nat)
    requires t < |p| && t <= |ws|
    ensures Weight(p + [v], ws, e, tr, t) == Weight(p, ws, e, tr, t)
  {
    if t > 0 {
      WeightPrefix(p, v, ws, e, tr, t - 1);
    }
  }

  /** Negating the product at every step flips the sign once per step. */
  lemma KeyStep(t: nat, weight: real, a: real, b: real)
    requires t >= 1
    ensures -(Signed(t - 1, weight) * a * b) == Signed(t, weight * (a * b))
  {
    if t % 2 == 0 {
      assert Signed(t - 1, weight) == weight;
    } else {
      assert Signed(t - 1, weight) == -weight;
      assert -(-weight * a * b) == weight * (a * b);
    }
  }

  /** Extending a well-shaped tuple of step t-1 by a tag of word t's row
      gives a well-shaped tuple of step t. */
  lemma ExtendShaped(y: Entry, u: Tag, v: Tag, t: nat, ws: seq<Token>, e: Table, tr: Table)
    requires 1 <= t <= |ws| && Shaped(y, t - 1, u, ws, e, tr) && v in Row(e, ws[t - 1])
    ensures Shaped(Extend(y, u, v, ws[t - 1], e, tr), t, v, ws, e, tr)
  {
    var x := Extend(y, u, v, ws[t - 1], e, tr);
    WeightPrefix(y.path, v, ws, e, tr, t - 1);
    KeyStep(t, Weight(y.path, ws, e, tr, t - 1), Lookup(tr, u, v), Lookup(e, ws[t - 1], v));
    assert x.path[t - 1] == u;
  }

  /** Everything pushed at step t is well shaped. */
  lemma OfferShaped(prev: Layer, v: Tag, t: nat, ws: seq<Token>, e: Table, tr: Table, x: Entry)
    requires 1 <= t <= |ws| && AllShaped(prev, t - 1, ws, e, tr) && v in Row(e, ws[t - 1])
    requires x in Offers(prev, v, ws[t - 1], e, tr)
    ensures Shaped(x, t, v, ws, e, tr)
  {
    var u, j := OfferSource(prev, v, ws[t - 1], e, tr, x);
    assert prev[u][j] in prev[u];
    ExtendShaped(prev[u][j], u, v, t, ws, e, tr);
  }

  /** Every tuple pushed into bucket `v` extends some stored tuple. */
  lemma OfferSource(prev: Layer, v: Tag, w: Token, e: Table, tr: Table, x: Entry) returns (u: Tag, j: nat)
    requires x in Offers(prev, v, w, e, tr)
    ensures u in prev && j < |prev[u]| && x == Extend(prev[u][j], u, v, w, e, tr)
  {
    var m := OfferMap(prev, v, w, e, tr);
    MUnionMember(m, x);
    u :| u in m && x in m[u];
    j := MapAllMember(Extender(u, v, w, e, tr), prev[u], x);
  }

  lemma StepShapes(prev: Layer, cur: Layer, t: nat, ws: seq<Token>, e: Table, tr: Table, k: nat)
    requires 1 <= t <= |ws| && AllShaped(prev, t - 1, ws, e, tr)
    requires Step(prev, cur, ws[t - 1], e, tr, k)
    ensures AllShaped(cur, t, ws, e, tr)
  {
    forall v, x | v in cur && x in cur[v]
      ensures Shaped(x, t, v, ws, e, tr)
    {
      assert x in multiset(cur[v]);
      OfferShaped(prev, v, t, ws, e, tr, x);
    }
  }

  /** Every path stored at step t has t+1 tags, starts at START, ends at
      its bucket's tag and draws each tag from its word's emission row, and
      its key is `(-1)^(t+1)` times the product of its factors. */
  lemma {:induction false} LayerShapes(layers: seq<Layer>, words: seq<Token>, e: Table, tr: Table, k: nat, t: nat)
    requires Run(layers, words, e, tr, k) && t <= |words|
    ensures AllShaped(layers[t], t, LexAll(e, words), e, tr)
  {
    var ws := LexAll(e, words);
    if t == 0 {
      forall v, x | v in Seed && x in Seed[v]
        ensures Shaped(x, 0, v, ws, e, tr)
      {
      }
    } else {
      LayerShapes(layers, words, e, tr, k, t - 1);
      assert ws[t - 1] == Lex(e, words[t - 1]);
      StepShapes(layers[t - 1], layers[t], t, ws, e, tr, k);
    }
  }

  /** A final candidate ranks a path of n tags taken from the words'
      emission rows. */
  lemma FinalShape(layer: Layer, n: nat, ws: seq<Token>, e: Table, tr: Table, x: Entry)
    requires n <= |ws| && AllShaped(layer, n, ws, e, tr) && x in Finals(layer)
    ensures |x.path| == n && forall i :: 0 <= i < n ==> x.path[i] in Row(e, ws[i])
  {
    var v, j := FinalSource(layer, x);
    assert layer[v][j] in layer[v];
    var y := layer[v][j];
    assert Shaped(y, n, v, ws, e, tr);
    forall i | 0 <= i < n
      ensures x.path[i] in Row(e, ws[i])
    {
      assert x.path[i] == y.path[i + 1];
    }
  }

  /** Every final candidate ranks some stored tuple. */
  lemma FinalSource(layer: Layer, x: Entry) returns (v: Tag, j: nat)
    requires x in Finals(layer)
    ensures v in layer && j < |layer[v]| && x == Scored(layer[v][j])
  {
    var m := FinalMap(layer);
    MUnionMember(m, x);
    v :| v in m && x in m[v];
    j := MapAllMember(Scored, layer[v], x);
  }

  /** How many tuples step t pushes into each bucket: one per tuple of the
      previous column, whatever the transition and emission entries. */
  lemma OffersCount(prev: Layer, v: Tag, w: Token, e: Table, tr: Table)
    ensures |Offers(prev, v, w, e, tr)| == |Entries(prev)|
  {
    MUnionCard(OfferMap(prev, v, w, e, tr), EntryMap(prev));
  }

  /** One step of a run, with the shapes of the column it starts from. */
  lemma RunStep(layers: seq<Layer>, words: seq<Token>, e: Table, tr: Table, k: nat, t: nat)
    requires Run(layers, words, e, tr, k) && 1 <= t <= |words|
    ensures LexAll(e, words)[t - 1] == Lex(e, words[t - 1])
    ensures Step(layers[t - 1], layers[t], Lex(e, words[t - 1]), e, tr, k)
    ensures AllShaped(layers[t - 1], t - 1, LexAll(e, words), e, tr)
  {
    LayerShapes(layers, words, e, tr, k, t - 1);
  }

  /** A tag of word w's emission row gets a bucket exactly when the
      previous column holds anything, and every bucket holds
      min(k, size of the previous column) tuples. */
  lemma BucketSize(prev: Layer, cur: Layer, w: Token, e: Table, tr: Table, k: nat, v: Tag)
    requires Step(prev, cur, w, e, tr, k)
    ensures v in cur <==> v in Row(e, w) && |Entries(prev)| > 0
    ensures v in cur ==> |cur[v]| == (if |Entries(prev)| < k then |Entries(prev)| else k)
  {
    OffersCount(prev, v, w, e, tr);
    assert v in cur ==> |cur[v]| == |multiset(cur[v])|;
  }

  /** What `get` evicts depends on the parity of t.  At odd steps the key
      is the path's weight, so no evicted path outweighs a kept one; at even
      steps the key is minus the weight, so no evicted path is lighter than
      a kept one. */
  lemma Retained(prev: Layer, cur: Layer, t: nat, ws: seq<Token>, e: Table, tr: Table, k: nat, v: Tag, x: Entry, y: Entry)
    requires 1 <= t <= |ws| && AllShaped(prev, t - 1, ws, e, tr)
    requires Step(prev, cur, ws[t - 1], e, tr, k)
    requires v in cur && x in cur[v]
    requires y in Offers(prev, v, ws[t - 1], e, tr) - multiset(cur[v])
    ensures Shaped(x, t, v, ws, e, tr) && Shaped(y, t, v, ws, e, tr)
    ensures t % 2 == 1 ==> Weight(y.path, ws, e, tr, t) <= Weight(x.path, ws, e, tr, t)
    ensures t % 2 == 0 ==> Weight(x.path, ws, e, tr, t) <= Weight(y.path, ws, e, tr, t)
  {
    assert x in multiset(cur[v]);
    OfferShaped(prev, v, t, ws, e, tr, x);
    OfferShaped(prev, v, t, ws, e, tr, y);
    assert AtMost(y, x);
    ShapedOrder(x, y, t, v, ws, e, tr);
  }

  /** Two tuples of the same step ordered by key are ordered by weight,
      the same way at odd t and the other way at even t. */
  lemma ShapedOrder(x: Entry, y: Entry, t: nat, v: Tag, ws: seq<Token>, e: Table, tr: Table)
    requires Shaped(x, t, v, ws, e, tr) && Shaped(y, t, v, ws, e, tr) && AtMost(y, x)
    ensures t % 2 == 1 ==> Weight(y.path, ws, e, tr, t) <= Weight(x.path, ws, e, tr, t)
    ensures t % 2 == 0 ==> Weight(x.path, ws, e, tr, t) <= Weight(y.path, ws, e, tr, t)
  {
    SignedOrder(t, Weight(y.path, ws, e, tr, t), Weight(x.path, ws, e, tr, t));
  }

  /** Comparing signed weights compares the weights, reversed at even t. */
  lemma SignedOrder(t: nat, a: real, b: real)
    requires Signed(t, a) <= Signed(t, b)
    ensures t % 2 == 1 ==> a <= b
    ensures t % 2 == 0 ==> b <= a
  {
  }
}
