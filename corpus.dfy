/** Reading a training corpus.  Each line is stripped (`str.strip()`); a
    blank line ends a sentence, any other line is split at its LAST space
    (`line.rsplit(' ', 1)`) into a token and a tag, and a line without a
    space cannot be unpacked, which aborts the whole estimation.  The
    transition counter walks the same lines with a `prev_tag` that starts at
    START, and counts one transition per line. */
module Corpus {
  import opened Wrappers
  import opened Bags

  type Token = string
  type Tag = string

  const START: Tag := "START"
  const STOP: Tag := "STOP"
  const UNK: Token := "#UNK#"
  /** The background tag: the decoder's fallback answer and the tag the
      metrics do not count. */
  const OUTSIDE: Tag := "O"

  /** The characters Python's `str.isspace` accepts, which `str.strip()`
      with no argument removes. */
  predicate IsSpace(c: char) {
    || ('\t' <= c <= '\r')
    || ('\U{1c}' <= c <= '\U{1f}')
    || c == ' ' || c == '\U{85}' || c == '\U{a0}' || c == '\U{1680}'
    || ('\U{2000}' <= c <= '\U{200a}')
    || c == '\U{2028}' || c == '\U{2029}' || c == '\U{202f}' || c == '\U{205f}' || c == '\U{3000}'
  }

  function TrimLeft(s: string): (r: string)
    ensures |r| <= |s| && r == s[|s| - |r|..]
    ensures forall i :: 0 <= i < |s| - |r| ==> IsSpace(s[i])
    ensures r != [] ==> !IsSpace(r[0])
  {
    if s != [] && IsSpace(s[0]) then TrimLeft(s[1..]) else s
  }

  function TrimRight(s: string): (r: string)
    ensures |r| <= |s| && r == s[..|r|]
    ensures forall i :: |r| <= i < |s| ==> IsSpace(s[i])
    ensures r != [] ==> !IsSpace(r[|r| - 1])
  {
    if s != [] && IsSpace(s[|s| - 1]) then TrimRight(s[..|s| - 1]) else s
  }

  /** `line.strip()`: empty exactly for an all-whitespace line, otherwise
      an infix of the line that begins and ends with a non-space. */
  function Strip(s: string): (r: string)
    ensures r == [] <==> forall i :: 0 <= i < |s| ==> IsSpace(s[i])
    ensures r != [] ==> !IsSpace(r[0]) && !IsSpace(r[|r| - 1])
    ensures s == [] || (!IsSpace(s[0]) && !IsSpace(s[|s| - 1])) ==> r == s
    ensures exists i :: Stripped(s, r, i)
  {
    var left := TrimLeft(s);
    var r := TrimRight(left);
    assert Stripped(s, r, |s| - |left|);
    r
  }

  /** `r` is `s` with whitespace removed before position `i` and after
      position `i + |r|`. */
  predicate Stripped(s: string, r: string, i: nat) {
    && i + |r| <= |s| && r == s[i..i + |r|]
    && (forall j :: 0 <= j < i ==> IsSpace(s[j]))
    && (forall j :: i + |r| <= j < |s| ==> IsSpace(s[j]))
  }

  /** The index of the last space in `s`, if any. */
  function LastSpace(s: string): (r: Option<nat>)
    ensures r.Some? ==> r.value < |s| && s[r.value] == ' '
    ensures r.Some? ==> forall j :: r.value < j < |s| ==> s[j] != ' '
    ensures r.None? <==> ' ' !in s
  {
    if s == [] then None
    else if s[|s| - 1] == ' ' then Some(|s| - 1)
    else
      var r := LastSpace(s[..|s| - 1]);
      assert s == s[..|s| - 1] + [s[|s| - 1]];
      r
  }

  /** One line of the training corpus after reading. */
  datatype Line = Blank | Tagged(token: Token, tag: Tag)

  /** The source's reading of one line (`strip`, then `rsplit(' ', 1)` and
      unpacking into two names); `None` when unpacking fails.  What the
      result means is `ParseLineCases`. */
  function ParseLine(raw: string): Option<Line> {
    var line := Strip(raw);
    if line == [] then Some(Blank)
    else match LastSpace(line)
      case None => None
      case Some(i) => Some(Tagged(line[..i], line[i + 1..]))
  }

  /** A line reads as blank exactly when it is all whitespace, fails exactly
      when its stripped text has no space, and otherwise splits its stripped
      text at the last space into two non-empty parts. */
  lemma ParseLineCases(raw: string)
    ensures ParseLine(raw) == Some(Blank) <==> Strip(raw) == []
    ensures ParseLine(raw).None? <==> Strip(raw) != [] && ' ' !in Strip(raw)
    ensures ParseLine(raw).Some? && ParseLine(raw).value.Tagged? ==>
      var l := ParseLine(raw).value;
      && Strip(raw) == l.token + " " + l.tag
      && ' ' !in l.tag
      && l.token != [] && l.tag != []
  {
    var line := Strip(raw);
    if line != [] && LastSpace(line).Some? {
      var i := LastSpace(line).value;
      assert i != 0 && i != |line| - 1 by {
        assert IsSpace(' ');
      }
      SplitAtSpace(line, i);
    }
  }

  lemma SplitAtSpace(s: string, i: nat)
    requires i < |s| && s[i] == ' '
    ensures s == s[..i] + " " + s[i + 1..]
  {
    assert s == s[..i] + [s[i]] + s[i + 1..];
  }

  /** Writing a record as `f"{token} {tag}"` and reading it back gives the
      record, provided the token does not start and the tag does not end
      with whitespace and the tag has no space. */
  lemma ParseFormattedLine(token: Token, tag: Tag)
    requires token != [] && !IsSpace(token[0])
    requires tag != [] && !IsSpace(tag[|tag| - 1]) && ' ' !in tag
    ensures ParseLine(token + " " + tag) == Some(Tagged(token, tag))
  {
    var line := token + " " + tag;
    FormattedParts(token, tag);
    assert Strip(line) == line;
    LastSpaceAt(line, |token|);
  }

  /** Where the parts of `token + " " + tag` sit. */
  lemma FormattedParts(token: Token, tag: Tag)
    requires token != [] && tag != [] && ' ' !in tag
    ensures var line := token + " " + tag;
      && line[0] == token[0] && line[|line| - 1] == tag[|tag| - 1]
      && line[|token|] == ' '
      && line[..|token|] == token && line[|token| + 1..] == tag
      && forall j :: |token| < j < |line| ==> line[j] != ' '
  {
    var line := token + " " + tag;
    forall j | |token| < j < |line|
      ensures line[j] != ' '
    {
      assert line[j] == tag[j - |token| - 1];
    }
  }

  /** A space with no space after it is the last space. */
  lemma LastSpaceAt(s: string, i: nat)
    requires i < |s| && s[i] == ' '
    requires forall j :: i < j < |s| ==> s[j] != ' '
    ensures LastSpace(s) == Some(i)
  {
  }

  datatype ParseError = MissingSeparator(lineIndex: nat)

  /** Reading a whole file: the first line that cannot be unpacked aborts
      the reading; otherwise every line is read.  What the result means is
      `ParseLinesMeaning`. */
  function ParseLines(lines: seq<string>): Result<seq<Line>, ParseError> {
    if lines == [] then Success([])
    else
      match ParseLines(lines[..|lines| - 1])
      case Failure(e) => Failure(e)
      case Success(ls) =>
        match ParseLine(lines[|lines| - 1])
        case None => Failure(MissingSeparator(|lines| - 1))
        case Some(l) => Success(ls + [l])
  }

  /** The reading succeeds exactly when every line can be unpacked, and then
      holds one read line per line; otherwise it reports the first line that
      cannot be. */
  lemma {:induction false} ParseLinesMeaning(lines: seq<string>)
    ensures var r := ParseLines(lines);
      && (r.Success? <==> forall i :: 0 <= i < |lines| ==> ParseLine(lines[i]).Some?)
      && (r.Success? ==>
        |r.value| == |lines| && forall i :: 0 <= i < |lines| ==> ParseLine(lines[i]) == Some(r.value[i]))
      && (r.Failure? ==>
        && r.error.lineIndex < |lines|
        && ParseLine(lines[r.error.lineIndex]).None?
        && forall j :: 0 <= j < r.error.lineIndex ==> ParseLine(lines[j]).Some?)
  {
    if lines != [] {
      var init := lines[..|lines| - 1];
      ParseLinesMeaning(init);
      assert forall i :: 0 <= i < |init| ==> init[i] == lines[i];
      match ParseLines(init)
      case Failure(e) =>
      case Success(ls) =>
        match ParseLine(lines[|lines| - 1])
        case None =>
        case Some(l) =>
          ReadingExtends(ParseLine, lines, ls, l);
    }
  }

  /** Appending one read line to a reading of a prefix; stated for any
      reading function so that the proof does not unfold `ParseLine`. */
  lemma ReadingExtends<X, Y>(read: X -> Option<Y>, xs: seq<X>, ys: seq<Y>, y: Y)
    requires |xs| == |ys| + 1
    requires forall i :: 0 <= i < |ys| ==> read(xs[..|ys|][i]) == Some(ys[i])
    requires read(xs[|ys|]) == Some(y)
    ensures forall i :: 0 <= i < |xs| ==> read(xs[i]) == Some((ys + [y])[i])
  {
    forall i | 0 <= i < |xs|
      ensures read(xs[i]) == Some((ys + [y])[i])
    {
      if i < |ys| {
        assert xs[..|ys|][i] == xs[i];
      }
    }
  }

  /** Reading one more line extends a successful reading by that line. */
  lemma ParseLinesStep(lines: seq<string>, i: nat, parsed: seq<Line>, l: Line)
    requires i < |lines| && ParseLines(lines[..i]) == Success(parsed)
    requires ParseLine(lines[i]) == Some(l)
    ensures ParseLines(lines[..i + 1]) == Success(parsed + [l])
  {
    assert lines[..i + 1][..i] == lines[..i];
  }

  /** The first line that cannot be unpacked is the one reported. */
  lemma ParseLinesStopsAt(lines: seq<string>, i: nat)
    requires i < |lines| && ParseLines(lines[..i]).Success?
    requires ParseLine(lines[i]).None?
    ensures ParseLines(lines) == Failure(MissingSeparator(i))
  {
    var prefix := lines[..i];
    ParseLinesMeaning(prefix);
    ParseLinesMeaning(lines);
    assert forall j :: 0 <= j < i ==> ParseLine(lines[j]).Some? by {
      forall j | 0 <= j < i ensures ParseLine(lines[j]).Some? {
        assert prefix[j] == lines[j];
      }
    }
    var r := ParseLines(lines);
    assert r.Failure?;
    var j := r.error.lineIndex;
    assert ParseLine(lines[j]).None?;
    assert j == i;
  }

  /** The `(token, tag)` records of the tagged lines, in order. */
  function Records(ls: seq<Line>): (r: seq<(Token, Tag)>)
    ensures forall p :: p in r <==> Tagged(p.0, p.1) in ls
  {
    if ls == [] then []
    else
      var init := ls[..|ls| - 1];
      assert ls == init + [ls[|ls| - 1]];
      Records(init) + match ls[|ls| - 1] {
        case Blank => []
        case Tagged(token, tag) => [(token, tag)]
      }
  }

  /** `prev_tag` once the first `i` lines of `ls` have been read: START at
      the beginning and after a blank line, the last tag otherwise. */
  function PrevTag(ls: seq<Line>, i: nat): Tag
    requires i <= |ls|
  {
    if i == 0 then START
    else match ls[i - 1] {
      case Blank => START
      case Tagged(_, tag) => tag
    }
  }

  /** The destination of the transition a line contributes. */
  function NextTag(l: Line): Tag {
    match l
    case Blank => STOP
    case Tagged(_, tag) => tag
  }

  /** The transitions counted while reading `ls`: each line contributes
      exactly one, from the tag before it to its own tag (STOP for a blank
      line). */
  function Bigrams(ls: seq<Line>): (r: seq<(Tag, Tag)>)
    ensures |r| == |ls|
  {
    seq(|ls|, i requires 0 <= i < |ls| => (PrevTag(ls, i), NextTag(ls[i])))
  }

  /** Reading one more line appends its transition. */
  lemma BigramsStep(ls: seq<Line>, l: Line)
    ensures Bigrams(ls + [l]) == Bigrams(ls) + [(PrevTag(ls, |ls|), NextTag(l))]
  {
    var all := ls + [l];
    forall i | 0 <= i < |ls|
      ensures Bigrams(all)[i] == Bigrams(ls)[i]
    {
      assert all[i] == ls[i];
      if i > 0 {
        assert all[i - 1] == ls[i - 1];
      }
    }
  }

  /** A sentence: a non-empty run of tagged lines. */
  predicate IsSentence(s: seq<Line>) {
    |s| > 0 && forall i :: 0 <= i < |s| ==> s[i].Tagged?
  }

  /** The transitions one sentence should contribute: START to its first
      tag, each tag to the next, its last tag to STOP. */
  function Chain(tags: seq<Tag>): (r: seq<(Tag, Tag)>)
    requires |tags| > 0
    ensures |r| == |tags| + 1
    ensures forall j :: 0 <= j < |r| ==>
      r[j] == (if j == 0 then START else tags[j - 1], if j == |tags| then STOP else tags[j])
  {
    [(START, tags[0])] + seq(|tags| - 1, i requires 0 <= i < |tags| - 1 => (tags[i], tags[i + 1]))
      + [(tags[|tags| - 1], STOP)]
  }

  function TagsOf(s: seq<Line>): (r: seq<Tag>)
    requires IsSentence(s)
  {
    seq(|s|, i requires 0 <= i < |s| => s[i].tag)
  }

  /** A sentence followed by its blank line, read at a sentence boundary,
      contributes exactly its chain of transitions. */
  lemma SentenceBigrams(before: seq<Line>, s: seq<Line>)
    requires before == [] || before[|before| - 1] == Blank
    requires IsSentence(s)
    ensures Bigrams(before + s + [Blank]) == Bigrams(before) + Chain(TagsOf(s))
  {
    var lhs, rhs := Bigrams(before + s + [Blank]), Bigrams(before) + Chain(TagsOf(s));
    forall i | 0 <= i < |lhs|
      ensures lhs[i] == rhs[i]
    {
      SentenceBigramAt(before, s, i);
    }
  }

  /** One position of `SentenceBigrams`. */
  lemma SentenceBigramAt(before: seq<Line>, s: seq<Line>, i: nat)
    requires before == [] || before[|before| - 1] == Blank
    requires IsSentence(s)
    requires i < |before| + |s| + 1
    ensures |Bigrams(before) + Chain(TagsOf(s))| == |before| + |s| + 1
    ensures Bigrams(before + s + [Blank])[i] == (Bigrams(before) + Chain(TagsOf(s)))[i]
  {
    if i < |before| {
      BigramBefore(before, s + [Blank], i);
    } else {
      BigramInSentence(before, s, i - |before|);
    }
  }

  /** Appending lines does not change the transitions already counted. */
  lemma BigramBefore(before: seq<Line>, after: seq<Line>, i: nat)
    requires i < |before|
    ensures Bigrams(before + after)[i] == Bigrams(before)[i]
  {
    var all := before + after;
    assert all[i] == before[i];
    if i > 0 {
      assert all[i - 1] == before[i - 1];
    }
  }

  /** The transition at position `j` of a sentence read after a boundary. */
  lemma BigramInSentence(before: seq<Line>, s: seq<Line>, j: nat)
    requires before == [] || before[|before| - 1] == Blank
    requires IsSentence(s)
    requires j <= |s|
    ensures Bigrams(before + s + [Blank])[|before| + j] == Chain(TagsOf(s))[j]
  {
    var all := before + s + [Blank];
    var i := |before| + j;
    assert NextTag(all[i]) == if j == |s| then STOP else s[j].tag;
    if j > 0 {
      assert all[i - 1] == s[j - 1];
    }
  }

  /** A transition leaves START or a tag that some line carries: STOP is a
      source only when a training line is tagged STOP. */
  lemma BigramSources(ls: seq<Line>, a: Tag)
    requires a in Firsts(Bigrams(ls))
    ensures a == START || exists token :: Tagged(token, a) in ls
  {
    var bs := Bigrams(ls);
    var i :| 0 <= i < |bs| && Firsts(bs)[i] == a;
    if a != START {
      assert Tagged(ls[i - 1].token, a) == ls[i - 1];
    }
  }
}
