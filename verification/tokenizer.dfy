/**
 * The tokenizer `tokenize`: a cursor over the characters of a Markdown
 * document that turns `#`, `##` and `###` lines into headings, skips line
 * breaks, and turns every other line into a paragraph holding that line as
 * a single text span.
 *
 * The functions below say, for a cursor position, what the scanner reads
 * from there; the class `Lexer` and the method `Tokenize` do it step by step.
 */
module Tokenizer {
  import opened Tags

  /** `char::is_ascii_whitespace`: space, tab, line feed, form feed, carriage return (not vertical tab). */
  predicate IsAsciiWhitespace(c: char)
  {
    c == ' ' || c == '\t' || c == '\n' || c == '\U{000C}' || c == '\r'
  }

  /** Where a whitespace skip from `p` stops: the end of `s`, or the first non-whitespace character. */
  function SkipWs(s: string, p: nat): (q: nat)
    ensures p <= q
    ensures p <= |s| ==> q <= |s|
    ensures p >= |s| ==> q == p
    ensures q < |s| ==> !IsAsciiWhitespace(s[q])
    decreases |s| - p
  {
    if p < |s| && IsAsciiWhitespace(s[p]) then SkipWs(s, p + 1) else p
  }

  /** Everything a whitespace skip passes over is whitespace. */
  lemma {:induction false} SkippedIsWhitespace(s: string, p: nat, i: nat)
    requires p <= i < SkipWs(s, p)
    ensures i < |s| && IsAsciiWhitespace(s[i])
    decreases |s| - p
  {
    if i > p {
      SkippedIsWhitespace(s, p + 1, i);
    }
  }

  /** Where the line that starts at `p` ends: the end of `s`, or the next line feed. */
  function LineEnd(s: string, p: nat): (q: nat)
    ensures p <= q
    ensures p <= |s| ==> q <= |s|
    ensures p >= |s| ==> q == p
    ensures q < |s| ==> s[q] == '\n'
    decreases |s| - p
  {
    if p < |s| && s[p] != '\n' then LineEnd(s, p + 1) else p
  }

  /** A line holds no line feed before its end. */
  lemma {:induction false} WithinLine(s: string, p: nat, i: nat)
    requires p <= i < LineEnd(s, p)
    ensures i < |s| && s[i] != '\n'
    decreases |s| - p
  {
    if i > p {
      WithinLine(s, p + 1, i);
    }
  }

  /**
   * The heading level at a `#`: one more for each of the next two
   * characters that is also `#`, so never above 3. The cursor ends up
   * just after that many characters.
   */
  function HashLevel(s: string, p: nat): (k: nat)
    requires p < |s|
    ensures 1 <= k <= 3 && p + k <= |s|
    ensures k >= 2 ==> s[p + 1] == '#'
    ensures k == 3 ==> s[p + 2] == '#'
    ensures k < 3 ==> p + k == |s| || s[p + k] != '#'
  {
    if p + 1 < |s| && s[p + 1] == '#' then
      if p + 2 < |s| && s[p + 2] == '#' then 3 else 2
    else 1
  }

  /** The heading node of level `k`; any level past 2 is `H3`. */
  function Heading(k: nat, text: string): (r: RootTag)
    ensures (r.H1? || r.H2? || r.H3?) && r.text == text
    ensures r.H1? <==> k == 1
    ensures r.H2? <==> k == 2
  {
    if k == 1 then H1(text) else if k == 2 then H2(text) else H3(text)
  }

  /** What the tokenizer can produce: a heading or a one-span paragraph, never spanning a line feed. */
  predicate Lexed(b: RootTag)
  {
    match b
    case H1(t) => '\n' !in t
    case H2(t) => '\n' !in t
    case H3(t) => '\n' !in t
    case P(cs) => |cs| == 1 && cs[0].Text? && '\n' !in cs[0].text
    case _ => false
  }

  /**
   * The blocks scanned from cursor `p` to the end of `s`. A `#` starts a
   * heading whose text is the rest of the line after the hashes and any
   * whitespace; a line feed is skipped; anything else starts a paragraph
   * of the rest of the line. At most one block per remaining character.
   */
  function LexFrom(s: string, p: nat): (r: seq<RootTag>)
    ensures p >= |s| ==> r == []
    decreases |s| - p
  {
    if p >= |s| then []
    else if s[p] == '#' then
      var k := HashLevel(s, p);
      var a := SkipWs(s, p + k);
      var e := LineEnd(s, a);
      [Heading(k, s[a..e])] + LexFrom(s, e)
    else if s[p] == '\n' then LexFrom(s, p + 1)
    else
      var e := LineEnd(s, p);
      [P([Text(s[p..e])])] + LexFrom(s, e)
  }

  /** What `tokenize` returns. */
  function Lex(s: string): seq<RootTag>
  {
    LexFrom(s, 0)
  }

  /** No heading or paragraph text the tokenizer produces contains a line feed. */
  lemma {:induction false} LexedBlocks(s: string, p: nat)
    ensures forall i :: 0 <= i < |LexFrom(s, p)| ==> Lexed(LexFrom(s, p)[i])
    decreases |s| - p
  {
    if p < |s| {
      if s[p] == '#' {
        var k := HashLevel(s, p);
        var a := SkipWs(s, p + k);
        LexedBlocks(s, LineEnd(s, a));
        LineFree(s, a, LineEnd(s, a));
      } else if s[p] == '\n' {
        LexedBlocks(s, p + 1);
      } else {
        LexedBlocks(s, LineEnd(s, p));
        LineFree(s, p, LineEnd(s, p));
      }
    }
  }

  /** At most one block per character from the cursor on. */
  lemma {:induction false} LexBound(s: string, p: nat)
    requires p <= |s|
    ensures |LexFrom(s, p)| <= |s| - p
    decreases |s| - p
  {
    if p < |s| {
      if s[p] == '#' {
        LexBound(s, LineEnd(s, SkipWs(s, p + HashLevel(s, p))));
      } else if s[p] == '\n' {
        LexBound(s, p + 1);
      } else {
        LexBound(s, LineEnd(s, p));
      }
    }
  }

  lemma LineFree(s: string, a: nat, e: nat)
    requires a <= e <= |s| && e == LineEnd(s, a)
    ensures '\n' !in s[a..e]
  {
    forall i | 0 <= i < e - a
      ensures s[a..e][i] != '\n'
    {
      WithinLine(s, a, a + i);
    }
  }

  /** One heading: the blocks from a `#` at `p` in terms of where its line's text starts and ends. */
  lemma HeadingStep(s: string, p: nat)
    requires p < |s| && s[p] == '#'
    ensures var k := HashLevel(s, p);
            var a := SkipWs(s, p + k);
            var e := LineEnd(s, a);
            p < e <= |s| && LexFrom(s, p) == [Heading(k, s[a..e])] + LexFrom(s, e)
  {
  }

  lemma HeadingPushed(s: string, p: nat, k: nat, a: nat, q: nat, done: seq<RootTag>, output: seq<RootTag>)
    requires p < |s| && s[p] == '#'
    requires k == HashLevel(s, p) && a == SkipWs(s, p + k) && q == LineEnd(s, a)
    requires output == done + [Heading(k, s[a..q])]
    ensures p < q <= |s|
    ensures output + LexFrom(s, q) == done + LexFrom(s, p)
  {
    HeadingStep(s, p);
    StepAppend(done, Heading(k, s[a..q]), LexFrom(s, q), LexFrom(s, p));
  }

  lemma StepAppend(done: seq<RootTag>, b: RootTag, rest: seq<RootTag>, whole: seq<RootTag>)
    requires whole == [b] + rest
    ensures (done + [b]) + rest == done + whole
  {
  }

  lemma ParagraphPushed(s: string, p: nat, done: seq<RootTag>, output: seq<RootTag>, q: nat)
    requires p < |s| && s[p] != '#' && s[p] != '\n'
    requires q == LineEnd(s, p) && output == done + [P([Text(s[p..q])])]
    ensures p < q <= |s|
    ensures output + LexFrom(s, q) == done + LexFrom(s, p)
  {
    assert LexFrom(s, p) == [P([Text(s[p..q])])] + LexFrom(s, q);
    StepAppend(done, P([Text(s[p..q])]), LexFrom(s, q), LexFrom(s, p));
  }

  lemma BlankStep(s: string, p: nat)
    requires p < |s| && s[p] == '\n'
    ensures LexFrom(s, p + 1) == LexFrom(s, p)
  {
  }

  // ---------------------------------------------------------------------
  // What a line turns into

  /** A line end is the first line feed at or after the cursor, or the end of the input. */
  lemma {:induction false} LineEndAt(s: string, a: nat, e: nat)
    requires a <= e <= |s|
    requires forall i :: a <= i < e ==> s[i] != '\n'
    requires e == |s| || s[e] == '\n'
    ensures LineEnd(s, a) == e
    decreases e - a
  {
    if a < e {
      LineEndAt(s, a + 1, e);
    }
  }

  /** The number of `#` in a row from `p`. */
  function HashRun(s: string, p: nat): (n: nat)
    ensures p + n <= |s| || n == 0
    decreases |s| - p
  {
    if p < |s| && s[p] == '#' then 1 + HashRun(s, p + 1) else 0
  }

  /** The heading level is the number of leading `#`, capped at 3. */
  lemma HashLevelIsRun(s: string, p: nat)
    requires p < |s| && s[p] == '#'
    ensures HashLevel(s, p) == if HashRun(s, p) < 3 then HashRun(s, p) else 3
  {
    assert HashRun(s, p) == 1 + HashRun(s, p + 1);
    if p + 1 < |s| && s[p + 1] == '#' {
      assert HashRun(s, p + 1) == 1 + HashRun(s, p + 2);
      if p + 2 < |s| && s[p + 2] == '#' {
        assert HashRun(s, p + 2) == 1 + HashRun(s, p + 3);
      }
    }
  }

  /**
   * `#`, `##` or `###`, a space, then a text that starts with a non-space
   * and runs to the line feed or the end: one heading of that level with
   * exactly that text, and scanning goes on at the line feed.
   */
  lemma HeadingLine(s: string, p: nat, k: nat, e: nat)
    requires 1 <= k <= 3 && p + k + 1 < e <= |s|
    requires forall i :: p <= i < p + k ==> s[i] == '#'
    requires s[p + k] == ' ' && !IsAsciiWhitespace(s[p + k + 1])
    requires forall i :: p + k + 1 <= i < e ==> s[i] != '\n'
    requires e == |s| || s[e] == '\n'
    ensures LexFrom(s, p) == [Heading(k, s[p + k + 1..e])] + LexFrom(s, e)
  {
    assert s[p] == '#';
    assert HashLevel(s, p) == k by {
      if k >= 2 { assert s[p + 1] == '#'; }
      if k == 3 { assert s[p + 2] == '#'; }
    }
    assert SkipWs(s, p + k) == p + k + 1 by {
      assert SkipWs(s, p + k + 1) == p + k + 1;
    }
    LineEndAt(s, p + k + 1, e);
  }

  /**
   * There is no fourth level: after `###` any further `#` stay in the
   * heading's text.
   */
  lemma NoLevelAboveThree(s: string, p: nat)
    requires p + 3 < |s| && s[p] == '#' && s[p + 1] == '#' && s[p + 2] == '#' && s[p + 3] == '#'
    ensures var e := LineEnd(s, p + 3);
            p + 3 < e && LexFrom(s, p) == [H3(s[p + 3..e])] + LexFrom(s, e) && s[p + 3..e][0] == '#'
  {
    assert HashLevel(s, p) == 3;
    assert SkipWs(s, p + 3) == p + 3;
  }

  /** Line feeds at the cursor produce nothing. */
  lemma {:induction false} BlankLines(s: string, p: nat, q: nat)
    requires p <= q <= |s|
    requires forall i :: p <= i < q ==> s[i] == '\n'
    ensures LexFrom(s, p) == LexFrom(s, q)
    decreases q - p
  {
    if p < q {
      BlankLines(s, p + 1, q);
    }
  }

  /**
   * A line that starts with neither `#` nor a line feed: exactly one
   * paragraph holding the whole line as one text span.
   */
  lemma ParagraphLine(s: string, p: nat, e: nat)
    requires p < e <= |s| && s[p] != '#'
    requires forall i :: p <= i < e ==> s[i] != '\n'
    requires e == |s| || s[e] == '\n'
    ensures LexFrom(s, p) == [P([Text(s[p..e])])] + LexFrom(s, e)
  {
    LineEndAt(s, p, e);
  }

  /**
   * `skip_whitespace` also skips line feeds: a `#` with nothing after it on
   * its line takes the next non-blank line as its text.
   */
  lemma EmptyHeadingTakesNextLine()
    ensures Lex("#\n\nfoo") == [H1("foo")]
  {
    var s := "#\n\nfoo";
    assert HashLevel(s, 0) == 1;
    assert SkipWs(s, 1) == 3 by {
      assert SkipWs(s, 3) == 3;
      assert SkipWs(s, 2) == 3;
    }
    LineEndAt(s, 3, 6);
    assert s[3..6] == "foo";
  }

  // ---------------------------------------------------------------------
  // Scanning only looks ahead

  lemma {:induction false} SkipWsShift(s: string, d: nat, p: nat)
    requires d <= p && d <= |s|
    ensures SkipWs(s, p) == d + SkipWs(s[d..], p - d)
    decreases |s| - p
  {
    if p < |s| && IsAsciiWhitespace(s[p]) {
      assert s[d..][p - d] == s[p];
      SkipWsShift(s, d, p + 1);
    }
  }

  lemma {:induction false} LineEndShift(s: string, d: nat, p: nat)
    requires d <= p && d <= |s|
    ensures LineEnd(s, p) == d + LineEnd(s[d..], p - d)
    decreases |s| - p
  {
    if p < |s| && s[p] != '\n' {
      assert s[d..][p - d] == s[p];
      LineEndShift(s, d, p + 1);
    }
  }

  /** What the scanner produces from a cursor depends only on the input from the cursor on. */
  lemma {:induction false} LexShift(s: string, d: nat, p: nat)
    requires d <= p && d <= |s|
    ensures LexFrom(s, p) == LexFrom(s[d..], p - d)
    decreases |s| - p
  {
    if p < |s| {
      if s[p] == '#' {
        var k := HashLevel(s, p);
        var a := SkipWs(s, p + k);
        var e := LineEnd(s, a);
        LexShift(s, d, e);
        HeadingStepAt(s, p, k, a, e);
        HeadingShift(s, d, p, k, a, e);
        SameStep(LexFrom(s, p), LexFrom(s[d..], p - d), Heading(k, s[a..e]), LexFrom(s, e), LexFrom(s[d..], e - d));
      } else if s[p] == '\n' {
        LexShift(s, d, p + 1);
        assert s[d..][p - d] == s[p];
      } else {
        var e := LineEnd(s, p);
        LexShift(s, d, e);
        ParagraphShift(s, d, p, e);
      }
    }
  }

  /** A heading read from `p` in `s` is read the same from `p - d` in `s[d..]`. */
  lemma HeadingShift(s: string, d: nat, p: nat, k: nat, a: nat, e: nat)
    requires d <= p < |s| && s[p] == '#'
    requires k == HashLevel(s, p) && a == SkipWs(s, p + k) && e == LineEnd(s, a)
    ensures d <= a <= e <= |s|
    ensures LexFrom(s[d..], p - d) == [Heading(k, s[a..e])] + LexFrom(s[d..], e - d)
  {
    var t, q := s[d..], p - d;
    HeadingShiftParts(s, d, p, k, a, e);
    HeadingStepAt(t, q, k, a - d, e - d);
  }

  lemma HeadingShiftParts(s: string, d: nat, p: nat, k: nat, a: nat, e: nat)
    requires d <= p < |s| && s[p] == '#'
    requires k == HashLevel(s, p) && a == SkipWs(s, p + k) && e == LineEnd(s, a)
    ensures d <= a <= e <= |s|
    ensures s[d..][p - d] == '#' && HashLevel(s[d..], p - d) == k
    ensures SkipWs(s[d..], p - d + k) == a - d && LineEnd(s[d..], a - d) == e - d
    ensures s[d..][a - d..e - d] == s[a..e]
  {
    assert s[d..][p - d] == s[p];
    HashLevelShift(s, d, p);
    SkipWsShift(s, d, p + k);
    LineEndShift(s, d, a);
    SliceShift(s, d, a, e);
  }

  /** `HeadingStep` with the level and the line's text bounds named. */
  lemma HeadingStepAt(s: string, p: nat, k: nat, a: nat, e: nat)
    requires p < |s| && s[p] == '#'
    requires k == HashLevel(s, p) && a == SkipWs(s, p + k) && e == LineEnd(s, a)
    ensures a <= e <= |s| && LexFrom(s, p) == [Heading(k, s[a..e])] + LexFrom(s, e)
  {
    HeadingStep(s, p);
  }

  lemma SameStep(x: seq<RootTag>, y: seq<RootTag>, b: RootTag, rx: seq<RootTag>, ry: seq<RootTag>)
    requires x == [b] + rx && y == [b] + ry && rx == ry
    ensures x == y
  {
  }

  lemma HashLevelShift(s: string, d: nat, p: nat)
    requires d <= p < |s|
    ensures HashLevel(s[d..], p - d) == HashLevel(s, p)
  {
    if p + 1 < |s| {
      assert s[d..][p + 1 - d] == s[p + 1];
    }
    if p + 2 < |s| {
      assert s[d..][p + 2 - d] == s[p + 2];
    }
  }

  lemma SliceShift(s: string, d: nat, a: nat, e: nat)
    requires d <= a <= e <= |s|
    ensures s[d..][a - d..e - d] == s[a..e]
  {
  }

  lemma ParagraphShift(s: string, d: nat, p: nat, e: nat)
    requires d <= p < |s| && s[p] != '#' && s[p] != '\n'
    requires e == LineEnd(s, p)
    requires LexFrom(s, e) == LexFrom(s[d..], e - d)
    ensures LexFrom(s, p) == LexFrom(s[d..], p - d)
  {
    assert s[d..][p - d] == s[p];
    LineEndShift(s, d, p);
    SliceShift(s, d, p, e);
  }

  /** Hence a document scans as its first line's block followed by the scan of the rest. */
  lemma LexLines(line: string, rest: string, b: seq<RootTag>)
    requires LexFrom(line + rest, 0) == b + LexFrom(line + rest, |line|)
    ensures Lex(line + rest) == b + Lex(rest)
  {
    LexShift(line + rest, |line|, |line|);
    assert (line + rest)[|line|..] == rest;
  }

  /** A text that fits on one line and can open a heading's text. */
  predicate LineText(text: string)
  {
    0 < |text| && !IsAsciiWhitespace(text[0]) && forall i :: 0 <= i < |text| ==> text[i] != '\n'
  }

  /** The marker that opens a heading of level `k`: `k` times `#` and a space. */
  function HeadingMark(k: nat): (m: string)
    requires 1 <= k <= 3
    ensures |m| == k + 1 && m[k] == ' '
    ensures forall i :: 0 <= i < k ==> m[i] == '#'
  {
    if k == 1 then "# " else if k == 2 then "## " else "### "
  }

  /** A heading marker and a one-line text, then a line feed or the end: one heading. */
  lemma HeadingThenRest(k: nat, text: string, rest: string)
    requires 1 <= k <= 3 && LineText(text)
    requires rest == [] || rest[0] == '\n'
    ensures Lex(HeadingMark(k) + text + rest) == [Heading(k, text)] + Lex(rest)
  {
    var line := HeadingMark(k) + text;
    var s := line + rest;
    assert s[k + 1..|line|] == text;
    HeadingLine(s, 0, k, |line|);
    LexLines(line, rest, [Heading(k, text)]);
  }

  /** A one-line text that starts with neither `#` nor a line feed, then a line feed or the end: one paragraph. */
  lemma ParagraphThenRest(text: string, rest: string)
    requires 0 < |text| && text[0] != '#' && text[0] != '\n'
    requires forall i :: 0 <= i < |text| ==> text[i] != '\n'
    requires rest == [] || rest[0] == '\n'
    ensures Lex(text + rest) == [P([Text(text)])] + Lex(rest)
  {
    var s := text + rest;
    assert s[0..|text|] == text;
    ParagraphLine(s, 0, |text|);
    LexLines(text, rest, [P([Text(text)])]);
  }

  /** A blank line adds nothing. */
  lemma BlankThenRest(rest: string)
    ensures Lex("\n" + rest) == Lex(rest)
  {
    LexLines("\n", rest, []);
  }

  /** A heading line followed by a blank line: the heading, then whatever the rest scans to. */
  lemma HeadingThenBlank(k: nat, text: string, rest: string)
    requires 1 <= k <= 3 && LineText(text)
    ensures Lex(HeadingMark(k) + text + "\n\n" + rest) == [Heading(k, text)] + Lex(rest)
  {
    var r := "\n\n" + rest;
    HeadingThenRest(k, text, r);
    BlankThenRest("\n" + rest);
    BlankThenRest(rest);
    assert "\n" + ("\n" + rest) == r;
    assert HeadingMark(k) + text + "\n\n" + rest == HeadingMark(k) + text + r;
  }

  /** A level-one and a level-two heading, each followed by a blank line, then whatever `rest` scans to. */
  lemma TwoHeadings(t1: string, t2: string, rest: string)
    requires LineText(t1) && LineText(t2)
    ensures Lex("# " + t1 + "\n\n" + ("## " + t2 + "\n\n" + rest)) == [H1(t1), H2(t2)] + Lex(rest)
  {
    var s2 := "## " + t2 + "\n\n" + rest;
    assert Lex(s2) == [H2(t2)] + Lex(rest) by {
      HeadingThenBlank(2, t2, rest);
    }
    HeadingThenBlank(1, t1, s2);
    assert [H1(t1)] + ([H2(t2)] + Lex(rest)) == [H1(t1), H2(t2)] + Lex(rest);
  }

  /** Headings of levels one to three, each followed by a blank line, scan to those headings in order. */
  lemma ThreeHeadings(t1: string, t2: string, t3: string, rest: string)
    requires LineText(t1) && LineText(t2) && LineText(t3)
    ensures Lex("# " + t1 + "\n\n" + ("## " + t2 + "\n\n" + ("### " + t3 + "\n\n" + rest)))
            == [H1(t1), H2(t2), H3(t3)] + Lex(rest)
  {
    var s3 := "### " + t3 + "\n\n" + rest;
    assert Lex(s3) == [H3(t3)] + Lex(rest) by {
      HeadingThenBlank(3, t3, rest);
    }
    TwoHeadings(t1, t2, s3);
    assert [H1(t1), H2(t2)] + ([H3(t3)] + Lex(rest)) == [H1(t1), H2(t2), H3(t3)] + Lex(rest);
  }

  /** Headings of levels one to three separated by blank lines, the last one ending the input. */
  lemma HeadingsOnly(t1: string, t2: string, t3: string)
    requires LineText(t1) && LineText(t2) && LineText(t3)
    ensures Lex("# " + t1 + "\n\n" + ("## " + t2 + "\n\n" + ("### " + t3)))
            == [H1(t1), H2(t2), H3(t3)]
  {
    assert Lex("### " + t3) == [H3(t3)] by {
      HeadingThenRest(3, t3, []);
      assert HeadingMark(3) + t3 + [] == "### " + t3;
      assert Lex([]) == [];
    }
    TwoHeadings(t1, t2, "### " + t3);
  }

  /**
   * Three headings of levels one to three and a paragraph, separated by
   * blank lines, scan to exactly those four blocks in order.
   */
  lemma HeadingsAndParagraph(t1: string, t2: string, t3: string, t4: string)
    requires LineText(t1) && LineText(t2) && LineText(t3) && LineText(t4) && t4[0] != '#'
    ensures Lex("# " + t1 + "\n\n" + ("## " + t2 + "\n\n" + ("### " + t3 + "\n\n" + t4)))
            == [H1(t1), H2(t2), H3(t3), P([Text(t4)])]
  {
    ParagraphThenRest(t4, []);
    assert t4 + [] == t4;
    ThreeHeadings(t1, t2, t3, t4);
  }

  /** The heading and paragraph documents the scanner is written against. */
  lemma SampleDocuments()
    ensures Lex("# " + "見出し1") == [H1("見出し1")]
    ensures Lex("## " + "見出し2") == [H2("見出し2")]
    ensures Lex("### " + "見出し3") == [H3("見出し3")]
    ensures Lex("# " + "見出し1" + "\n\n" + ("## " + "見出し2" + "\n\n" + ("### " + "見出し3")))
            == [H1("見出し1"), H2("見出し2"), H3("見出し3")]
    ensures Lex("段落" + "\n") == [P([Text("段落")])]
    ensures Lex("# " + "見出し1" + "\n\n" + ("## " + "見出し2" + "\n\n" + ("### " + "見出し3" + "\n\n" + "段落")))
            == [H1("見出し1"), H2("見出し2"), H3("見出し3"), P([Text("段落")])]
  {
    assert LineText("見出し1") && LineText("見出し2") && LineText("見出し3") && LineText("段落");
    HeadingThenRest(1, "見出し1", []);
    assert "# " + "見出し1" + [] == "# " + "見出し1";
    HeadingThenRest(2, "見出し2", []);
    assert "## " + "見出し2" + [] == "## " + "見出し2";
    HeadingThenRest(3, "見出し3", []);
    assert "### " + "見出し3" + [] == "### " + "見出し3";
    HeadingsOnly("見出し1", "見出し2", "見出し3");
    ParagraphThenRest("段落", "\n");
    BlankThenRest([]);
    assert "\n" + [] == "\n";
    HeadingsAndParagraph("見出し1", "見出し2", "見出し3", "段落");
  }

  // ---------------------------------------------------------------------
  // The cursor

  /** The cursor: the input never changes, the position moves forward, blocks are appended. */
  class Lexer {
    const input: string
    var position: nat
    var output: seq<RootTag>

    constructor (text: string)
      ensures input == text && position == 0 && output == []
    {
      input := text;
      position := 0;
      output := [];
    }

    /** The character under the cursor; indexing past the end panics. */
    function CurrentChar(): (c: char)
      reads this
      requires position < |input|
      ensures c == input[position]
    {
      input[position]
    }

    /** The character after the cursor, None when the cursor is on the last character or beyond. */
    function PeekChar(): (r: Option<char>)
      reads this
      ensures r.Some? <==> position + 1 < |input|
      ensures r.Some? ==> r.value == input[position + 1]
    {
      if position + 1 >= |input| then None else Some(input[position + 1])
    }

    /** Advances the cursor by one, even past the end, and returns the character now under it. */
    method NextChar() returns (r: Option<char>)
      modifies this`position
      ensures position == old(position) + 1
      ensures r.Some? <==> position < |input|
      ensures r.Some? ==> r.value == input[position]
    {
      position := position + 1;
      if position >= |input| {
        return None;
      }
      r := Some(CurrentChar());
    }

    /** Moves the cursor over ASCII whitespace, line feeds included. */
    method SkipWhitespace()
      modifies this`position
      ensures position == SkipWs(input, old(position))
    {
      while position < |input|
        invariant old(position) <= position
        invariant SkipWs(input, position) == SkipWs(input, old(position))
        decreases |input| - position
      {
        if !IsAsciiWhitespace(CurrentChar()) {
          break;
        }
        var _ := NextChar();
      }
    }

    /** Collects the characters up to the next line feed or the end, leaving the cursor on the line feed. */
    method ReadToEol() returns (text: string)
      modifies this`position
      ensures position == LineEnd(input, old(position))
      ensures old(position) <= |input| ==> text == input[old(position)..position]
      ensures old(position) > |input| ==> text == []
    {
      text := "";
      ghost var start := position;
      while position < |input|
        invariant start <= position
        invariant LineEnd(input, position) == LineEnd(input, start)
        invariant start <= |input| ==> position <= |input| && text == input[start..position]
        invariant start > |input| ==> text == [] && position == start
        decreases |input| - position
      {
        var c := CurrentChar();
        if c == '\n' {
          break;
        }
        text := text + [c];
        var _ := NextChar();
      }
    }

    /**
     * The `#` arm of `tokenize`: up to two more `#` raise the level, the
     * whitespace after them is skipped and the rest of the line is the text.
     */
    method ReadHeading()
      requires position < |input| && input[position] == '#'
      modifies this`position, this`output
      ensures var k := HashLevel(input, old(position));
              var a := SkipWs(input, old(position) + k);
              position == LineEnd(input, a) && output == old(output) + [Heading(k, input[a..position])]
    {
      ghost var start := position;
      var r := NextChar();
      if r == Some('#') {
        r := NextChar();
        if r == Some('#') {
          r := NextChar();
          assert HashLevel(input, start) == 3 && position == start + 3;
          SkipWhitespace();
          ghost var a := position;
          var t := ReadToEol();
          output := output + [H3(t)];
          assert a <= |input| && t == input[a..position];
          assert H3(t) == Heading(HashLevel(input, start), input[a..position]);
        } else {
          assert HashLevel(input, start) == 2 && position == start + 2;
          SkipWhitespace();
          ghost var a := position;
          var t := ReadToEol();
          output := output + [H2(t)];
          assert a <= |input| && t == input[a..position];
          assert H2(t) == Heading(HashLevel(input, start), input[a..position]);
        }
      } else {
        assert HashLevel(input, start) == 1 && position == start + 1;
        SkipWhitespace();
        ghost var a := position;
        var t := ReadToEol();
        output := output + [H1(t)];
        assert a <= |input| && t == input[a..position];
        assert H1(t) == Heading(HashLevel(input, start), input[a..position]);
      }
    }
  }

  /** `tokenize`: scans the whole input, one block per heading or text line. */
  method Tokenize(text: string) returns (output: seq<RootTag>)
    ensures output == Lex(text)
  {
    var lexer := new Lexer(text);
    while lexer.position < |lexer.input|
      invariant lexer.input == text
      invariant lexer.position <= |text|
      invariant lexer.output + LexFrom(text, lexer.position) == Lex(text)
      decreases |text| - lexer.position
    {
      ghost var start, done := lexer.position, lexer.output;
      var c := lexer.CurrentChar();
      match c
      case '#' =>
        lexer.ReadHeading();
        HeadingPushed(text, start, HashLevel(text, start), SkipWs(text, start + HashLevel(text, start)),
                      lexer.position, done, lexer.output);
      case '\n' =>
        var _ := lexer.NextChar();
        BlankStep(text, start);
      case _ =>
        var t := lexer.ReadToEol();
        lexer.output := lexer.output + [P([Text(t)])];
        ParagraphPushed(text, start, done, lexer.output, lexer.position);
    }
    output := lexer.output;
  }
}
