/**
 * HTML output as a sequence of markup events. The renderer only ever
 * appends literal text, opening tags and closing tags to its buffer, so its
 * output is the concatenation (`Flatten`) of such events. User text is a
 * `Raw` event and is never inspected: nothing is escaped, so tags are
 * counted on events rather than on characters.
 */
module Html {
  import opened Tags

  datatype Markup = Raw(text: string) | Open(tag: string) | Close(tag: string)

  /** The characters one event contributes to the output. */
  function Show(m: Markup): string
  {
    match m
    case Raw(t) => t
    case Open(t) => "<" + t + ">"
    case Close(t) => "</" + t + ">"
  }

  /** The output string made of a sequence of events. */
  function Flatten(ms: seq<Markup>): string
  {
    if ms == [] then "" else Show(ms[0]) + Flatten(ms[1..])
  }

  /** `<tag>` + inner + `</tag>`. */
  function Element(tag: string, inner: seq<Markup>): seq<Markup>
  {
    [Open(tag)] + inner + [Close(tag)]
  }

  lemma {:induction false} FlattenAppend(a: seq<Markup>, b: seq<Markup>)
    ensures Flatten(a + b) == Flatten(a) + Flatten(b)
  {
    if a == [] {
      assert a + b == b;
    } else {
      assert (a + b)[1..] == a[1..] + b;
      FlattenAppend(a[1..], b);
    }
  }

  /** Appending one more piece to a buffer that already holds `Flatten(done)`. */
  lemma FlattenExtend(buffer: string, start: string, done: seq<Markup>, piece: seq<Markup>)
    requires buffer == start + Flatten(done)
    ensures buffer + Flatten(piece) == start + Flatten(done + piece)
  {
    FlattenAppend(done, piece);
    StringAssoc(start, Flatten(done), Flatten(piece));
  }

  lemma StringAssoc(a: string, b: string, c: string)
    ensures (a + b) + c == a + (b + c)
  {
  }

  lemma FlattenCons(m: Markup, ms: seq<Markup>)
    ensures Flatten([m] + ms) == Show(m) + Flatten(ms)
  {
    assert ([m] + ms)[1..] == ms;
  }

  lemma FlattenThree(a: Markup, b: Markup, c: Markup)
    ensures Flatten([a, b, c]) == Show(a) + Show(b) + Show(c)
  {
    assert [a, b, c] == [a] + [b, c];
    assert [b, c] == [b] + [c];
    FlattenCons(a, [b, c]);
    FlattenCons(b, [c]);
    FlattenOne(c);
    StringAssoc(Show(a), Show(b), Show(c));
  }

  lemma FlattenFour(a: Markup, b: Markup, c: Markup, d: Markup)
    ensures Flatten([a, b, c, d]) == Show(a) + Show(b) + Show(c) + Show(d)
  {
    assert [a, b, c, d] == [a] + [b, c, d];
    FlattenCons(a, [b, c, d]);
    FlattenThree(b, c, d);
    StringAssoc(Show(a), Show(b) + Show(c), Show(d));
    StringAssoc(Show(a), Show(b), Show(c));
  }

  lemma ElementHtml(tag: string, inner: seq<Markup>)
    ensures Flatten(Element(tag, inner)) == "<" + tag + ">" + Flatten(inner) + "</" + tag + ">"
  {
    var o, f := "<" + tag + ">", Flatten(inner);
    assert Element(tag, inner) == [Open(tag)] + (inner + [Close(tag)]);
    FlattenCons(Open(tag), inner + [Close(tag)]);
    FlattenAppend(inner, [Close(tag)]);
    FlattenOne(Close(tag));
    StringAssoc(o, f, "</" + tag + ">");
    StringAssoc(o + f, "</" + tag, ">");
    StringAssoc(o + f, "</", tag);
  }

  lemma FlattenOne(m: Markup)
    ensures Flatten([m]) == Show(m)
  {
    assert [m][1..] == [];
  }

  /**
   * A reference HTML tag matcher: reads events left to right with the
   * stack of still-open tag names, pushes on `Open`, and on `Close` demands
   * that the innermost open tag has the same name. None on a mismatch.
   */
  function Match(ms: seq<Markup>, open: seq<string>): Option<seq<string>>
  {
    if ms == [] then Some(open)
    else match ms[0]
      case Raw(_) => Match(ms[1..], open)
      case Open(t) => Match(ms[1..], open + [t])
      case Close(t) =>
        if open != [] && open[|open| - 1] == t then Match(ms[1..], open[..|open| - 1]) else None
  }

  /** Continue matching `ms` after an earlier outcome. */
  function Then(r: Option<seq<string>>, ms: seq<Markup>): Option<seq<string>>
  {
    match r
    case None => None
    case Some(open) => Match(ms, open)
  }

  lemma {:induction false} MatchAppend(a: seq<Markup>, b: seq<Markup>, open: seq<string>)
    ensures Match(a + b, open) == Then(Match(a, open), b)
  {
    if a == [] {
      assert a + b == b;
    } else {
      assert (a + b)[0] == a[0];
      assert (a + b)[1..] == a[1..] + b;
      match a[0]
      case Raw(_) => MatchAppend(a[1..], b, open);
      case Open(t) => MatchAppend(a[1..], b, open + [t]);
      case Close(t) =>
        if open != [] && open[|open| - 1] == t {
          MatchAppend(a[1..], b, open[..|open| - 1]);
        }
    }
  }

  /** The matcher on single events: text leaves the stack alone, a tag pushes or pops. */
  lemma MatchOne(m: Markup, open: seq<string>)
    ensures m.Raw? ==> Match([m], open) == Some(open)
    ensures m.Open? ==> Match([m], open) == Some(open + [m.tag])
    ensures m.Close? ==> Match([m], open + [m.tag]) == Some(open)
  {
    assert [m][1..] == [];
    if m.Close? {
      assert (open + [m.tag])[..|open|] == open;
    }
  }

  /** Matching three pieces in a row. */
  lemma MatchChain(a: seq<Markup>, b: seq<Markup>, c: seq<Markup>, s0: seq<string>, s1: seq<string>, s2: seq<string>, s3: seq<string>)
    requires Match(a, s0) == Some(s1) && Match(b, s1) == Some(s2) && Match(c, s2) == Some(s3)
    ensures Match(a + b + c, s0) == Some(s3)
  {
    MatchAppend(a + b, c, s0);
    MatchAppend(a, b, s0);
  }

  /** An element whose inside is balanced on its own leaves the stack as it was. */
  lemma ElementNested(tag: string, inner: seq<Markup>, open: seq<string>)
    requires Match(inner, open + [tag]) == Some(open + [tag])
    ensures Match(Element(tag, inner), open) == Some(open)
  {
    MatchAppend([Open(tag)] + inner, [Close(tag)], open);
    MatchAppend([Open(tag)], inner, open);
    MatchOne(Open(tag), open);
    MatchOne(Close(tag), open);
  }

  /** Every tag is closed, innermost first, by a tag of the same name. */
  predicate WellNested(ms: seq<Markup>)
  {
    Match(ms, []) == Some([])
  }

  function CountOpen(ms: seq<Markup>, t: string): nat
  {
    if ms == [] then 0 else (if ms[0] == Open(t) then 1 else 0) + CountOpen(ms[1..], t)
  }

  function CountClose(ms: seq<Markup>, t: string): nat
  {
    if ms == [] then 0 else (if ms[0] == Close(t) then 1 else 0) + CountClose(ms[1..], t)
  }

  lemma {:induction false} CountAppend(a: seq<Markup>, b: seq<Markup>, t: string)
    ensures CountOpen(a + b, t) == CountOpen(a, t) + CountOpen(b, t)
    ensures CountClose(a + b, t) == CountClose(a, t) + CountClose(b, t)
  {
    if a == [] {
      assert a + b == b;
    } else {
      assert (a + b)[0] == a[0];
      assert (a + b)[1..] == a[1..] + b;
      CountAppend(a[1..], b, t);
    }
  }

  /** Markup without an `Open(t)` event counts none. */
  lemma {:induction false} CountOpenNone(ms: seq<Markup>, t: string)
    requires forall i :: 0 <= i < |ms| ==> ms[i] != Open(t)
    ensures CountOpen(ms, t) == 0
  {
    if ms != [] {
      CountOpenNone(ms[1..], t);
    }
  }

  lemma CountOne(m: Markup, t: string)
    ensures CountOpen([m], t) == if m == Open(t) then 1 else 0
    ensures CountClose([m], t) == if m == Close(t) then 1 else 0
  {
    assert [m][1..] == [];
  }

  /** While matching, opens of `t` minus closes of `t` track the open stack. */
  lemma {:induction false} MatchCounts(ms: seq<Markup>, open: seq<string>, t: string)
    requires Match(ms, open).Some?
    ensures CountOpen(ms, t) + multiset(open)[t] == CountClose(ms, t) + multiset(Match(ms, open).value)[t]
  {
    if ms != [] {
      match ms[0]
      case Raw(_) => MatchCounts(ms[1..], open, t);
      case Open(u) =>
        MatchCounts(ms[1..], open + [u], t);
        assert multiset(open + [u]) == multiset(open) + multiset{u};
      case Close(u) =>
        var rest := open[..|open| - 1];
        assert open == rest + [u];
        MatchCounts(ms[1..], rest, t);
        assert multiset(open) == multiset(rest) + multiset{u};
    }
  }

  /** In well-nested markup every tag name is opened as often as it is closed. */
  lemma WellNestedBalanced(ms: seq<Markup>, t: string)
    requires WellNested(ms)
    ensures CountOpen(ms, t) == CountClose(ms, t)
  {
    MatchCounts(ms, [], t);
  }
}
