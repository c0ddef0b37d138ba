# Hidden Markov model tagger, modelled in Dafny

This project models the core of a part-of-speech / named-entity tagger that
learns a first-order hidden Markov model from a tagged corpus and decodes new
sentences with a bounded k-best Viterbi search. The repository has two copies
of that core, `Task2.py` and `Task3.py`, and the model covers both:

- **Reading the corpus** (module `Corpus`). Each line is stripped. A blank
  line ends a sentence. Any other line is split at its last space into a
  token and a tag, so a token may itself contain spaces. A line with no
  space cannot be unpacked, and that aborts the estimation. This is modelled
  as a `Result` carrying the index of the first such line.
- **Emission estimation** (module `Emission`). Every observed `(token, tag)`
  pair gets `count / (tag count + k)`. The two copies differ in the `#UNK#`
  row, and both variants are modelled:
  - Task2 gives every observed tag `k / (k + number of records)`.
  - Task3 gives tag `t` the value `k / (tag count of t + k)`.
- **Transition estimation** (module `Transition`). A `prev_tag` starts at
  `START`. Each tagged line counts `prev_tag -> tag`, and each blank line
  counts `prev_tag -> STOP`. Every counted transition then gets
  `count / transitions out of its source`.
  - Task2 then overwrites `START -> START` with 1.0.
  - Task3 sets the divisor of `STOP` to 0. A transition out of `STOP`
    therefore raises `ZeroDivisionError`, and otherwise no `STOP` row
    exists.
- **The k-best Viterbi search** (modules `Ordering`, `Beam`, `Decoder`).
  - Column t holds one bounded priority queue ("bucket") per tag of word
    t's emission row.
  - Every tuple of column t-1 is extended by every such tag. Its key
    becomes `-(key * P(v given u) * P(word given v))`, and missing entries read as 0.0.
  - After each `put`, `get` drops the smallest `(key, path)` tuple while the
    bucket holds more than k.
  - At the end, the candidates `(-key, path[1:])` are sorted ascending. The
    path of the k-th one is returned, or all `'O'` when there are fewer
    than k.
  - The seed key is -1.0 and the key is negated at every step. The stored
    key therefore equals `(-1)^(t+1)` times the path's weight. At odd steps
    a bucket keeps its heaviest paths, and at even steps its lightest ones
    (`Decoder.Retained`).
- **`add_start_stop_tags` and `calculate_metrics`** (modules `Decoder` and
  `Metrics`). Metrics counts true positives, false positives and false
  negatives over `zip`, with `'O'` as the background tag. Each ratio whose
  denominator is 0 is 0.0.

The estimators and the decoder are imperative in the source: they fill
counters and tables in loops, and fill priority queues with `put`/`get`.
They are modelled as methods with loops. Each method is proved against a
ghost predicate: `CountsOf` (a counter holds a multiset),
`GlobalSmoothed` / `PerTagSmoothed`, `Estimated` / `EstimatedWithStart`,
`TopK` (a bucket holds the k largest tuples offered to it), `Run`/`Step`
(the columns of a search) and `Chosen` (the answer). Lemmas then prove what
the source promises about those predicates. `add_start_stop_tags` and
`calculate_metrics` are pure and are modelled as functions.

Three behaviours of the code are easy to misread, and the model follows the
code in each:

- The search is seeded with key -1.0 (Task2.py:66), so the stored key's
  sign alternates with t.
- When every prediction is `'O'`, each gold tag other than `'O'` counts as a
  false negative, and all three scores are 0.0 (`Metrics.AllOutside`).
- Task2.py:18-22 and Task3.py:18 smooth the `#UNK#` row differently, and
  both are modelled.

Modules: `Wrappers` (Option, Result), `Fractions` (facts about quotients),
`Bags` (counters, multiset unions, map sums, pair projections), `Tables`
(nested dictionaries with default 0.0), `Corpus`, `Emission`, `Transition`,
`Ordering`, `Beam`, `Decoder`, `Metrics`.

## Model

| member | source | states |
|---|---|---|
| Bags.BumpCounts | Task2.py:14-15 | `counter[x] += 1` on a counter for a multiset gives a counter for the multiset with one more `x` |
| Bags.SumValues | Task2.py:18 | `sum(tag_count.values())` is the number of counted items, whatever order the keys are visited in |
| Bags.SumRemove | Task3.py:16-18 | the sum of a row does not depend on the order of its keys: it is any entry plus the sum of the rest |
| Bags.MapAllAppend | Task2.py:74-75 | extending every tuple of two lists one after the other is extending the concatenated list |
| Bags.MapAllPermutation | Task2.py:74-75 | extending the tuples of a bucket in any order gives the same multiset of extended tuples |
| Bags.PairCountBounded | Task2.py:14-15 | a `(token, tag)` pair is never counted more often than its tag (or its token) |
| Corpus.Strip | Task2.py:11 | `line.strip()` is the line with its leading and trailing whitespace removed: a slice of the line preceded and followed only by whitespace, empty exactly for an all-whitespace line, otherwise beginning and ending with a non-space; a stripped line is left unchanged |
| Corpus.LastSpace | Task2.py:13 | finds the last space of a line, and reports none exactly when the line has no space |
| Corpus.ParseLineCases | Task2.py:11-13 | a line reads as blank exactly when it is all whitespace, fails exactly when its stripped text has no space, and otherwise yields non-empty token and tag with `stripped == token + " " + tag` and no space in the tag |
| Corpus.ParseFormattedLine | Task2.py:11-13 | reading back a line written as `token + " " + tag` gives `(token, tag)` (round trip) when the tag has no space and the pair has no outer whitespace |
| Corpus.ParseLinesMeaning | Task2.py:9-13 | reading a file succeeds exactly when every line can be unpacked, and then gives one read line per line; otherwise it reports the first line that cannot be |
| Corpus.ParseLinesStopsAt | Task2.py:36-37 | the first line without a separator is the one that aborts the reading |
| Corpus.Records | Task2.py:12-13 | the records are exactly the tagged lines |
| Corpus.BigramsStep | Task2.py:33-44 | reading one more line appends exactly one transition, from the previous tag (START after a blank line) to the line's tag or STOP |
| Corpus.SentenceBigrams | Task2.py:33-44 | a sentence followed by a blank line contributes `START -> first tag`, the consecutive tag bigrams, and `last tag -> STOP` |
| Corpus.BigramSources | Task3.py:28-39 | every transition leaves START or a tag some line carries, so STOP is a source only when a line is tagged STOP |
| Emission.CountRecords | Task3.py:6-14 | the counting loop fails exactly when reading fails, with the same line; otherwise it holds a counter for the records and one for their tags |
| Emission.CountLine | Task2.py:11-15 | one iteration keeps both counters exact for the lines read so far |
| Emission.FillEmissions | Task2.py:20-22 | after the fill loop, the non-`#UNK#` rows hold exactly the counted pairs with `count / (tag count + k)`, and the `#UNK#` row holds exactly their tags with `k / denominator` |
| Emission.UnknownStep | Task2.py:22 | re-writing the `#UNK#` entry of a tag in every iteration keeps the same value; it is written after the pair's own entry and wins over it |
| Emission.EstimateEmissionGlobal | Task2.py:5-24 | Task2's estimator fails exactly on unreadable input, and otherwise returns the table with global `#UNK#` mass `k / (k + records)` |
| Emission.EstimateEmissionPerTag | Task3.py:5-19 | Task3's estimator fails exactly on unreadable input, and otherwise returns the table with per-tag `#UNK#` mass `k / (tag count + k)` |
| Emission.PairEmissionBounds | Task2.py:20-21 | for `k > 0` every observed pair's emission lies strictly between 0 and 1 |
| Emission.GlobalUnknownBounds | Task2.py:18-22 | for `k > 0` the global `#UNK#` entry of every observed tag lies strictly between 0 and 1 |
| Emission.PerTagUnknownBounds | Task3.py:18 | for `k > 0` the per-tag `#UNK#` entry of every observed tag is positive and below 1 |
| Emission.KnownColumnSum | Task3.py:16-17 | the emissions of a tag `t` from the training tokens other than `#UNK#` add up to `(tag count - records (#UNK#, t)) / (tag count + k)` |
| Emission.PerTagColumnSum | Task3.py:16-18 | under per-tag smoothing an observed tag's emissions, `#UNK#` included, sum to `1 - records (#UNK#, t) / (tag count + k)`, which is 1 exactly when no record is `(#UNK#, t)` |
| Emission.GlobalColumnSum | Task2.py:18-22 | under global smoothing a tag's column sums to `(tag count - records (#UNK#, t)) / (tag count + k) + k / (k + records)` |
| Emission.GlobalColumnDeficit | Task2.py:18-22 | so for `k > 0` that sum is at most 1, and is 1 exactly when every record carries the tag and none is `(#UNK#, t)` |
| Emission.TagCountBounds | Task2.py:15 | an observed tag is counted at least once and at most once per record |
| Transition.CountBigrams | Task3.py:27-39 | the counting loop fails exactly when reading fails; otherwise `transition_count` counts the transitions and `tag_count[prev]` is the number of transitions counted out of `prev` |
| Transition.CountTransition | Task2.py:36-44 | one iteration counts one transition, bumps its source's count, and moves `prev_tag` to the tag or back to START |
| Transition.FillTransitions | Task3.py:42-43 | the division loop raises exactly when some counted pair's source has divisor 0, and otherwise writes exactly the counted pairs with `count / divisor` |
| Transition.WriteTransition | Task2.py:51 | one division writes exactly one entry and keeps every earlier one |
| Transition.StartOverride | Task2.py:53 | overwriting `START -> START` with 1.0 leaves every other entry as estimated |
| Transition.EstimateTransitionsNested | Task2.py:26-55 | Task2's estimator fails exactly on unreadable input, and otherwise every counted transition holds its relative frequency and `START -> START` is 1.0 |
| Transition.EstimateTransitionsPaired | Task3.py:22-44 | Task3's estimator raises `ZeroDivisionError` exactly when STOP is a source; otherwise it returns the estimated table, which has no STOP row |
| Transition.EstimatedRows | Task3.py:42-43 | rows exist exactly for the sources of counted transitions |
| Transition.NoStopRow | Task3.py:40-43 | STOP has no row when it is never a source |
| Transition.EstimatedRowSum | Task3.py:42-43 | every row of Task3's table sums to 1 |
| Transition.NestedRowSum | Task2.py:49-51 | every row of Task2's table other than START sums to 1 |
| Transition.NestedStartRowSum | Task2.py:49-53 | Task2's START row sums to 2 when no line is tagged START, because the override adds 1.0 beside the counted transitions |
| Transition.StartIsSource | Task2.py:33-39 | once any line is read, START is a source |
| Transition.NoStartTarget | Task2.py:38-42 | a transition into START needs a line tagged START |
| Ordering.BelowTransitive | Task2.py:88 | Python's `<` on `(key, path)` tuples is transitive |
| Ordering.BelowTotal | Task2.py:88 | of two different tuples, one is below the other |
| Ordering.BelowAsymmetric | Task2.py:88 | no two tuples are each below the other |
| Beam.MinIndex | Task2.py:81 | finds a smallest tuple of a non-empty queue |
| Beam.Get | Task2.py:81 | `get` removes exactly one smallest tuple and keeps the rest |
| Beam.Offer | Task2.py:79-81 | a `put`, followed by a `get` when the bucket exceeds k, keeps at most k tuples, and they are the k largest offered so far |
| Beam.Kept | Task2.py:79-80 | a bucket with room keeps the new tuple and still holds the top k |
| Beam.Evicted | Task2.py:79-81 | a full bucket that takes a tuple and loses a smallest one still holds the top k |
| Beam.TopKUnique | Task2.py:79-81 | two buckets that each hold the k largest of the same offered tuples are equal, whatever order the tuples were put in |
| Beam.SortedExists | Task2.py:88 | every multiset of tuples has an ascending arrangement |
| Beam.Smallest | Task2.py:81 | a non-empty multiset of tuples has a smallest element |
| Beam.Insert | Task2.py:88 | places a tuple into an ascending list, keeping it ascending and adding exactly that tuple |
| Beam.Sort | Task2.py:88 | `sorted` returns an ascending permutation of its input |
| Beam.SortedUnique | Task2.py:88-90 | two ascending permutations of the same tuples are equal, so the k-th candidate does not depend on the order `opt_paths` was built in |
| Decoder.AddStartStop | Task2.py:57-58 | the wrapped sentence has length `n + 2`, starts with START, ends with STOP, and has the sentence in between |
| Decoder.FillBucket | Task2.py:73-81 | the bucket of tag v holds the k largest of all tuples pushed into it, whatever order the previous buckets are visited in |
| Decoder.OfferAll | Task2.py:74-81 | pushing every tuple of one previous bucket, extended, keeps the bucket the top k of what was offered |
| Decoder.FillLayer | Task2.py:68-81 | one step gives a bucket to exactly the tags of the word's emission row that received a push, each holding its top k |
| Decoder.Collect | Task2.py:83-86 | `opt_paths` holds exactly `(-key, path[1:])` for every tuple of the last column |
| Decoder.AppendScored | Task2.py:85-86 | one bucket's candidates are appended, one per tuple |
| Decoder.Search | Task2.py:66-81 | the loop over the words produces the columns of a search run from the seed `(-1.0, ['START'])` |
| Decoder.Viterbi | Task2.py:60-93 | the result is the path of the k-th of the ascending-ordered candidates, or n `'O'` tags when there are fewer than k. It always has n tags, and when a path is returned, each of its tags is in its word's emission row (`#UNK#` for unknown words) |
| Decoder.ChosenBySort | Task2.py:88-93 | taking the k-th tuple of the sorted list picks what every ascending arrangement would |
| Decoder.BestShape | Task2.py:88-90 | the k-th candidate's path has one tag per word, each from that word's emission row |
| Decoder.OffersAgree | Task2.py:73-76 | columns whose buckets agree up to order push the same tuples into every bucket of the next column |
| Decoder.StepUnique | Task2.py:72-81 | one step is determined, up to the order inside each bucket, by the column it starts from, whatever order `for v` and `for u` visit the dictionaries in |
| Decoder.BucketUnique | Task2.py:72-81 | the bucket of one tag is the same in two such steps, and exists in one exactly when it exists in the other |
| Decoder.KeysUnique | Task2.py:72-80 | two such steps give buckets to the same tags |
| Decoder.RunUnique | Task2.py:68-81 | two searches over the same words, tables and k build the same columns up to the order inside each bucket |
| Decoder.FinalsAgree | Task2.py:83-86 | columns that agree up to order yield the same multiset of final candidates |
| Decoder.ChosenUnique | Task2.py:88-93 | the final candidates determine the answer |
| Decoder.ViterbiDeterministic | Task2.py:60-93 | `viterbi` returns the same path for the same input however its dictionaries and queues are iterated |
| Decoder.KeyStep | Task2.py:77-79 | negating `key * P(v given u) * P(word given v)` flips the sign of `(-1)^(t+1)` once per step |
| Decoder.ExtendShaped | Task2.py:75-79 | extending a well-shaped tuple of step t-1 by a tag of word t's row gives a well-shaped tuple of step t |
| Decoder.LayerShapes | Task2.py:66-79 | every path stored at step t has t+1 tags, starts with START, ends with its bucket's tag and takes each tag from its word's row. Its key is `(-1)^(t+1)` times the product of its factors, with missing entries 0.0 |
| Decoder.FinalShape | Task2.py:83-86 | every final candidate ranks a path of n tags drawn from the words' emission rows |
| Decoder.OffersCount | Task3.py:59-66 | step t pushes into each bucket one tuple per tuple of the previous column, even when the transition or emission reads as 0.0 |
| Decoder.BucketSize | Task3.py:59-68 | for k ≥ 1 a tag of the word's row gets a bucket exactly when the previous column is non-empty, and it holds min(k, size of the previous column) tuples |
| Decoder.Retained | Task2.py:77-81 | at odd t no evicted path outweighs a kept one; at even t no evicted path is lighter than a kept one |
| Decoder.ShapedOrder | Task2.py:79-81 | ordering two tuples of the same step by key orders them by weight, reversed at even t |
| Metrics.Zip | Task2.py:96 | `zip` pairs position i of the predictions with position i of the gold tags, up to the length of the shorter sequence |
| Metrics.Ratio | Task2.py:103-104 | a guarded ratio lies in [0, 1], is 0 exactly when the numerator is 0, and is 1 exactly when numerator and denominator are equal and positive |
| Metrics.Harmonic | Task2.py:105-106 | the guarded F lies in [0, 1], is 0 exactly when precision or recall is 0, and is 1 exactly when both are 1 |
| Metrics.CalculateMetrics | Task3.py:83-96 | all three scores lie in [0, 1]. Precision is 1 iff no false positive and some true positive; recall is 1 iff no false negative and some true positive; F is 0 iff no true positive, and 1 iff no false positive, no false negative and some true positive |
| Metrics.Denominators | Task3.py:84-92 | `tp + fp` counts the positions predicted non-`'O'`, and `tp + fn` those whose gold tag is non-`'O'` |
| Metrics.PerfectMatch | Task3.py:84-94 | predicting the gold sequence, with at least one non-`'O'` tag, scores 1, 1, 1 |
| Metrics.AllOutside | Task3.py:84-94 | predicting only `'O'` scores 0, 0, 0 against any gold sequence |
| Metrics.ScoresIgnoreTail | Task3.py:84-89 | anything past the end of the shorter sequence does not change the scores |
| Metrics.HarmonicBounds | Task3.py:93-94 | the harmonic mean of two values in [0, 1] is in [0, 1], 0 iff one is 0, and 1 iff both are 1 |

## Left out

- File reading: the estimators take the file's lines as a sequence of strings instead of a path, and `open()` is not modelled.
- `sentence.split()`: the decoder takes the sentence's words as a sequence instead of a string.
- Floating point: probabilities and keys are exact reals. Rounding and underflow are not modelled.
- The heap layout of `PriorityQueue` and the order of `.queue`: a bucket is a sequence of tuples, and only its multiset is specified.
- Dictionary iteration order: every loop over a dictionary picks its keys in an arbitrary order. The results are proved not to depend on it. The estimators' contracts describe their tables without reference to any order, `Bags.SumValues` and `Bags.SumRemove` show that sums do not depend on it, and `Decoder.ViterbiDeterministic` shows that the decoder's result does not.
- The driver code (reading the test files, writing predictions, printing) and the comparisons it makes on whole lines.
- `total_tags` in Task2's transition estimator is computed and never used.
- Task2 keeps transition counts in a nested `Counter`. The model keys them by `(source, target)` pairs, which gives the same counts.
- Reading a missing entry of a nested `defaultdict` also inserts it (`transition_parameters[u][v]`, `emission_parameters['#UNK#']`). The model reads 0.0 and inserts nothing. The inserted entries are 0.0 or empty rows, and later reads do not change.
- Decoder.Viterbi: requires k ≥ 1. For k ≤ 0 the source indexes the sorted list from its end or raises.
- Decoder.Viterbi: the executable loop keeps only the previous column. The earlier columns, which the source keeps in `viterbi_matrix`, are ghost.
- Emission.EstimateEmissionGlobal: requires k ≥ 0. A negative k can make a denominator 0 and raise, which is not modelled.
- Emission.EstimateEmissionPerTag: requires k ≥ 0, for the same reason.
- Emission.GlobalColumnSum: stated for `k >= 0`. With a negative `k` a tag whose every record is `(#UNK#, t)` may have `tag count + k <= 0`, and its known share is then undefined.
- Transition.NestedStartRowSum: covers the usual case, where no line is tagged START. With a line tagged START, the override replaces a counted entry.
