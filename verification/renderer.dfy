/**
 * The HTML renderer `parse`: walks the block nodes in order and appends
 * each one's HTML to the `Parser`'s buffer. Headings, paragraphs and code
 * blocks are plain concatenation; a list block is rebuilt into nested
 * `<ul>`/`<ol>`/`<li>` markup from its flat, indent-annotated items with an
 * explicit stack of open levels.
 *
 * The functions below specify what `Parse` appends, as markup events
 * (see module Html); the methods below them do it step by step.
 */
module Renderer {
  import opened Tags
  import opened Html

  /** The tag name of a list kind (`ListTypes`'s `to_string`). */
  function ListTag(k: ListType): string
  {
    match k
    case Ul => "ul"
    case Ol => "ol"
  }

  /** `"\t".repeat(n)`. */
  function Tabs(n: nat): (r: string)
    ensures |r| == n
    ensures forall i :: 0 <= i < n ==> r[i] == '\t'
  {
    if n == 0 then "" else "\t" + Tabs(n - 1)
  }

  /** One inline span: Text verbatim, the others wrapped, nothing escaped. */
  function InlineMarkup(c: Content): seq<Markup>
  {
    match c
    case Text(t) => [Raw(t)]
    case Code(t) => Element("code", [Raw(t)])
    case Bold(t) => Element("b", [Raw(t)])
    case Italic(t) => Element("i", [Raw(t)])
  }

  /** The spans of a paragraph or list item, in order. */
  function InlinesMarkup(cs: seq<Content>): seq<Markup>
  {
    if cs == [] then [] else InlinesMarkup(cs[..|cs| - 1]) + InlineMarkup(cs[|cs| - 1])
  }

  // ---------------------------------------------------------------------
  // List reconstruction

  /** An entry of the renderer's stack: an open container level. */
  datatype Level = Level(indent: nat, listType: ListType)

  function LevelOf(li: ListItem): Level
  {
    Level(li.indent, li.listType)
  }

  /** Indents strictly increase from the bottom of the stack to its top. */
  predicate Increasing(st: seq<Level>)
  {
    forall i, j :: 0 <= i < j < |st| ==> st[i].indent < st[j].indent
  }

  /**
   * What the list branch of `parse` demands of its items: `lists[0]` needs
   * an item, and `stack.last().unwrap()` needs every item to be indented at
   * least as deeply as the first one.
   */
  predicate ListRenderable(items: seq<ListItem>)
  {
    |items| > 0 && forall i :: 0 <= i < |items| ==> items[0].indent <= items[i].indent
  }

  /** The levels of `st` not deeper than `n`, bottom first. */
  function Shallower(st: seq<Level>, n: nat): seq<Level>
  {
    if st == [] then []
    else if st[|st| - 1].indent <= n then Shallower(st[..|st| - 1], n) + [st[|st| - 1]]
    else Shallower(st[..|st| - 1], n)
  }

  /** On an increasing stack whose top is not deeper than `n`, every level is kept. */
  lemma {:induction false} ShallowerKeepsAll(st: seq<Level>, n: nat)
    requires Increasing(st)
    requires st != [] ==> st[|st| - 1].indent <= n
    ensures Shallower(st, n) == st
  {
    if st != [] {
      var rest := st[..|st| - 1];
      if rest != [] {
        assert rest[|rest| - 1].indent < st[|st| - 1].indent;
      }
      ShallowerKeepsAll(rest, n);
      assert rest + [st[|st| - 1]] == st;
    }
  }

  /**
   * The inner `while let` loop for one item `li`: pops (closing the open
   * `<li>` and container) every level deeper than `li`, then either closes
   * the open `<li>` of the level with `li`'s indent, or opens a container of
   * `li`'s own kind one level deeper. Returns the new stack and the markup.
   */
  function Unwind(st: seq<Level>, li: ListItem): (r: (seq<Level>, seq<Markup>))
    requires st != [] && Increasing(st) && st[0].indent <= li.indent
    ensures r.0 != [] && Increasing(r.0) && r.0[0] == st[0]
    ensures r.0[|r.0| - 1].indent == li.indent
    decreases |st|
  {
    var top := st[|st| - 1];
    if top.indent == li.indent then
      (st, [Close("li"), Raw("\n")])
    else if top.indent < li.indent then
      (st + [LevelOf(li)], [Raw("\n" + Tabs(li.indent)), Open(ListTag(li.listType)), Raw("\n")])
    else
      var rest := st[..|st| - 1];
      assert rest[0] == st[0];
      var r := Unwind(rest, li);
      (r.0, PopMarkup(top, rest[|rest| - 1]) + r.1)
  }

  /** Closing a popped level: its open `<li>`, then its container, then the indent of the level below. */
  function PopMarkup(top: Level, below: Level): seq<Markup>
  {
    [Close("li"), Raw("\n" + Tabs(top.indent)), Close(ListTag(top.listType)), Raw("\n" + Tabs(below.indent))]
  }

  lemma UnwindStop(st: seq<Level>, li: ListItem)
    requires st != [] && Increasing(st) && st[0].indent <= li.indent
    requires st[|st| - 1].indent <= li.indent
    ensures st[|st| - 1].indent == li.indent ==> Unwind(st, li) == (st, [Close("li"), Raw("\n")])
    ensures st[|st| - 1].indent < li.indent ==>
              Unwind(st, li) == (st + [LevelOf(li)], [Raw("\n" + Tabs(li.indent)), Open(ListTag(li.listType)), Raw("\n")])
  {
  }

  /** One step of the inner loop when the top level is deeper than the item. */
  lemma UnwindPop(st: seq<Level>, li: ListItem)
    requires st != [] && Increasing(st) && st[0].indent <= li.indent
    requires st[|st| - 1].indent > li.indent
    ensures |st| > 1
    ensures var rest := st[..|st| - 1];
            Increasing(rest) && rest[0] == st[0] &&
            Unwind(st, li) == (Unwind(rest, li).0, PopMarkup(st[|st| - 1], rest[|rest| - 1]) + Unwind(rest, li).1)
  {
  }

  /**
   * After an item, the stack is exactly the old levels not deeper than the
   * item, topped by a new level of the item's own kind unless one of those
   * levels already has the item's indent.
   */
  lemma {:induction false} UnwindKeepsShallower(st: seq<Level>, li: ListItem)
    requires st != [] && Increasing(st) && st[0].indent <= li.indent
    ensures var kept := Shallower(st, li.indent);
            kept != [] &&
            Unwind(st, li).0 == if kept[|kept| - 1].indent == li.indent then kept else kept + [LevelOf(li)]
    decreases |st|
  {
    var top := st[|st| - 1];
    if top.indent <= li.indent {
      ShallowerKeepsAll(st, li.indent);
    } else {
      var rest := st[..|st| - 1];
      assert rest[0] == st[0];
      UnwindKeepsShallower(rest, li);
    }
  }

  /** `tabs<li>` + the item's spans; its `<li>` stays open. */
  function ItemMarkup(li: ListItem): seq<Markup>
  {
    [Raw(Tabs(li.indent)), Open("li")] + InlinesMarkup(li.contents)
  }

  /**
   * The stack and the markup after the first `j` items. The stack is
   * increasing, its bottom is always the first item's level and its top has
   * the indent of the last item processed.
   */
  function Walk(items: seq<ListItem>, j: nat): (r: (seq<Level>, seq<Markup>))
    requires ListRenderable(items) && 1 <= j <= |items|
    ensures r.0 != [] && Increasing(r.0)
    ensures r.0[0] == LevelOf(items[0])
    ensures r.0[|r.0| - 1].indent == items[j - 1].indent
  {
    if j == 1 then
      ([LevelOf(items[0])],
       [Open(ListTag(items[0].listType)), Raw("\n"), Open("li")] + InlinesMarkup(items[0].contents))
    else
      var prev := Walk(items, j - 1);
      var step := Unwind(prev.0, items[j - 1]);
      (step.0, prev.1 + step.1 + ItemMarkup(items[j - 1]))
  }

  lemma WalkStep(items: seq<ListItem>, j: nat)
    requires ListRenderable(items) && 1 <= j < |items|
    ensures var prev := Walk(items, j);
            var step := Unwind(prev.0, items[j]);
            Walk(items, j + 1) == (step.0, prev.1 + step.1 + ItemMarkup(items[j]))
  {
  }

  /** The final loop: close the open `<li>` and container of every level, top first. */
  function CloseAll(st: seq<Level>): seq<Markup>
  {
    if st == [] then []
    else CloseLevel(st[|st| - 1]) + CloseAll(st[..|st| - 1])
  }

  function CloseLevel(top: Level): seq<Markup>
  {
    [Close("li"), Raw("\n" + Tabs(top.indent)), Close(ListTag(top.listType)), Raw("\n")]
  }

  /** The whole rendering of a list block. */
  function ListMarkup(items: seq<ListItem>): seq<Markup>
    requires ListRenderable(items)
  {
    var w := Walk(items, |items|);
    w.1 + CloseAll(w.0)
  }

  // ---------------------------------------------------------------------
  // Blocks and documents

  /** The blocks `parse` handles without panicking. */
  predicate Renderable(b: RootTag)
  {
    match b
    case A(_, _) => false
    case Img(_, _) => false
    case Li(items) => ListRenderable(items)
    case _ => true
  }

  predicate AllRenderable(bs: seq<RootTag>)
  {
    forall i :: 0 <= i < |bs| ==> Renderable(bs[i])
  }

  /** One block's markup; every block ends with a line break. */
  function BlockMarkup(b: RootTag): seq<Markup>
    requires Renderable(b)
  {
    match b
    case H1(t) => Element("h1", [Raw(t)]) + [Raw("\n")]
    case H2(t) => Element("h2", [Raw(t)]) + [Raw("\n")]
    case H3(t) => Element("h3", [Raw(t)]) + [Raw("\n")]
    case P(cs) => Element("p", InlinesMarkup(cs)) + [Raw("\n")]
    case Li(items) => ListMarkup(items)
    case Pre(code) => Element("pre", Element("code", [Raw(code)])) + [Raw("\n")]
  }

  /** The blocks' markup, in order. */
  function DocMarkup(bs: seq<RootTag>): seq<Markup>
    requires AllRenderable(bs)
  {
    if bs == [] then [] else DocMarkup(bs[..|bs| - 1]) + BlockMarkup(bs[|bs| - 1])
  }

  /** What `parse` returns. */
  function Render(bs: seq<RootTag>): string
    requires AllRenderable(bs)
  {
    Flatten(DocMarkup(bs))
  }

  // ---------------------------------------------------------------------
  // The characters each piece of list markup stands for

  lemma FirstItemHtml(items: seq<ListItem>)
    requires ListRenderable(items)
    ensures Flatten(Walk(items, 1).1)
         == "<" + ListTag(items[0].listType) + ">\n<li>" + Flatten(InlinesMarkup(items[0].contents))
  {
    OpenListHtml(ListTag(items[0].listType), InlinesMarkup(items[0].contents));
  }

  lemma OpenListHtml(t: string, inl: seq<Markup>)
    ensures Flatten([Open(t), Raw("\n"), Open("li")] + inl) == "<" + t + ">\n<li>" + Flatten(inl)
  {
    FlattenAppend([Open(t), Raw("\n"), Open("li")], inl);
    FlattenThree(Open(t), Raw("\n"), Open("li"));
    var o := "<" + t;
    assert Show(Open("li")) == "<li>";
    StringAssoc(o, ">", "\n");
    assert ">" + "\n" == ">\n";
    StringAssoc(o, ">\n", "<li>");
    assert ">\n" + "<li>" == ">\n<li>";
  }

  lemma ItemHtml(li: ListItem)
    ensures Flatten(ItemMarkup(li)) == Tabs(li.indent) + "<li>" + Flatten(InlinesMarkup(li.contents))
  {
    FlattenAppend([Raw(Tabs(li.indent)), Open("li")], InlinesMarkup(li.contents));
    assert [Raw(Tabs(li.indent)), Open("li")] == [Raw(Tabs(li.indent))] + [Open("li")];
    FlattenCons(Raw(Tabs(li.indent)), [Open("li")]);
    FlattenOne(Open("li"));
    assert Show(Open("li")) == "<li>";
  }

  lemma SiblingHtml()
    ensures Flatten([Close("li"), Raw("\n")]) == "</li>\n"
  {
    assert [Close("li"), Raw("\n")] == [Close("li")] + [Raw("\n")];
    FlattenCons(Close("li"), [Raw("\n")]);
    FlattenOne(Raw("\n"));
    assert Show(Close("li")) == "</li>";
  }

  lemma NestHtml(n: nat, t: string)
    ensures Flatten([Raw("\n" + Tabs(n)), Open(t), Raw("\n")]) == "\n" + Tabs(n) + "<" + t + ">\n"
  {
    FlattenThree(Raw("\n" + Tabs(n)), Open(t), Raw("\n"));
    var a := "\n" + Tabs(n);
    StringAssoc(a, "<" + t, ">");
    StringAssoc(a, "<", t);
    StringAssoc(a + "<" + t, ">", "\n");
  }

  /** `</li>`, a line break and tabs, the container's closing tag, a line break and `rest`. */
  lemma CloseLevelPieces(tabs: string, t: string, rest: string)
    ensures Show(Close("li")) + ("\n" + tabs) + Show(Close(t)) + ("\n" + rest)
         == "</li>\n" + tabs + "</" + t + ">\n" + rest
  {
    var l := Show(Close("li"));
    assert l == "</li>";
    StringAssoc(l, "\n", tabs);
    var x := "</li>\n" + tabs;
    StringAssoc(x, "</" + t, ">");
    StringAssoc(x, "</", t);
    var y := x + "</" + t;
    StringAssoc(y + ">", "\n", rest);
    StringAssoc(y, ">", "\n");
  }

  lemma PopHtml(top: Level, below: Level)
    ensures Flatten(PopMarkup(top, below))
         == "</li>\n" + Tabs(top.indent) + "</" + ListTag(top.listType) + ">\n" + Tabs(below.indent)
  {
    FlattenFour(Close("li"), Raw("\n" + Tabs(top.indent)), Close(ListTag(top.listType)), Raw("\n" + Tabs(below.indent)));
    CloseLevelPieces(Tabs(top.indent), ListTag(top.listType), Tabs(below.indent));
  }

  lemma CloseLevelHtml(top: Level)
    ensures Flatten(CloseLevel(top)) == "</li>\n" + Tabs(top.indent) + "</" + ListTag(top.listType) + ">\n"
  {
    FlattenFour(Close("li"), Raw("\n" + Tabs(top.indent)), Close(ListTag(top.listType)), Raw("\n"));
    CloseLevelPieces(Tabs(top.indent), ListTag(top.listType), "");
    assert "\n" + "" == "\n";
    var z := "</li>\n" + Tabs(top.indent) + "</" + ListTag(top.listType) + ">\n";
    assert z + "" == z;
  }

  /** A span's characters: Text verbatim, the others inside their tag pair. */
  lemma SpanHtml(c: Content)
    ensures c.Text? ==> Flatten(InlineMarkup(c)) == c.text
    ensures c.Code? ==> Flatten(InlineMarkup(c)) == "<code>" + c.text + "</code>"
    ensures c.Bold? ==> Flatten(InlineMarkup(c)) == "<b>" + c.text + "</b>"
    ensures c.Italic? ==> Flatten(InlineMarkup(c)) == "<i>" + c.text + "</i>"
  {
    match c
    case Text(t) => FlattenOne(Raw(t));
    case Code(t) =>
      WrappedHtml("code", t);
      assert "<" + "code" + ">" == "<code>" && "</" + "code" + ">" == "</code>";
    case Bold(t) =>
      WrappedHtml("b", t);
      assert "<" + "b" + ">" == "<b>" && "</" + "b" + ">" == "</b>";
    case Italic(t) =>
      WrappedHtml("i", t);
      assert "<" + "i" + ">" == "<i>" && "</" + "i" + ">" == "</i>";
  }

  /** An element around one piece of verbatim text. */
  lemma WrappedHtml(tag: string, t: string)
    ensures Flatten(Element(tag, [Raw(t)])) == ("<" + tag + ">") + t + ("</" + tag + ">")
  {
    ElementHtml(tag, [Raw(t)]);
    FlattenOne(Raw(t));
    var o := "<" + tag + ">";
    StringAssoc(o + t, "</", tag);
    StringAssoc(o + t, "</" + tag, ">");
  }

  /** The spans of `cs` render one after the other. */
  lemma {:induction false} SpansHtml(cs: seq<Content>, c: Content)
    ensures Flatten(InlinesMarkup(cs + [c])) == Flatten(InlinesMarkup(cs)) + Flatten(InlineMarkup(c))
  {
    assert (cs + [c])[..|cs + [c]| - 1] == cs;
    FlattenAppend(InlinesMarkup(cs), InlineMarkup(c));
  }

  /** A heading renders as `<hN>` + its text verbatim + `</hN>` + a line break. */
  lemma HeadingHtml(b: RootTag)
    requires b.H1? || b.H2? || b.H3?
    ensures b.H1? ==> Flatten(BlockMarkup(b)) == "<h1>" + b.text + "</h1>" + "\n"
    ensures b.H2? ==> Flatten(BlockMarkup(b)) == "<h2>" + b.text + "</h2>" + "\n"
    ensures b.H3? ==> Flatten(BlockMarkup(b)) == "<h3>" + b.text + "</h3>" + "\n"
  {
    var tag := if b.H1? then "h1" else if b.H2? then "h2" else "h3";
    assert BlockMarkup(b) == Element(tag, [Raw(b.text)]) + [Raw("\n")];
    FlattenOne(Raw(b.text));
    ElementLine(tag, [Raw(b.text)]);
    var o := "<" + tag + ">";
    StringAssoc(o + b.text, "</", tag);
    StringAssoc(o + b.text, "</" + tag, ">");
    TagNames(tag);
  }

  /** The opening and closing tags of the heading elements, spelled out. */
  lemma TagNames(tag: string)
    requires tag == "h1" || tag == "h2" || tag == "h3"
    ensures tag == "h1" ==> "<" + tag + ">" == "<h1>" && "</" + tag + ">" == "</h1>"
    ensures tag == "h2" ==> "<" + tag + ">" == "<h2>" && "</" + tag + ">" == "</h2>"
    ensures tag == "h3" ==> "<" + tag + ">" == "<h3>" && "</" + tag + ">" == "</h3>"
  {
  }

  /** A paragraph renders as `<p>` + its spans in order + `</p>` + a line break. */
  lemma ParagraphHtml(cs: seq<Content>)
    ensures Flatten(BlockMarkup(P(cs))) == "<p>" + Flatten(InlinesMarkup(cs)) + "</p>" + "\n"
  {
    var f := Flatten(InlinesMarkup(cs));
    ElementLine("p", InlinesMarkup(cs));
    assert "<" + "p" + ">" == "<p>";
    var x := "<p>" + f;
    StringAssoc(x, "</", "p");
    StringAssoc(x, "</" + "p", ">");
    assert "</" + "p" + ">" == "</p>";
  }

  lemma ParagraphLine(cs: seq<Content>, pContents: string)
    requires pContents == Flatten(InlinesMarkup(cs))
    ensures Flatten(Element("p", [Raw(pContents)]) + [Raw("\n")]) == Flatten(BlockMarkup(P(cs)))
  {
    ElementLine("p", [Raw(pContents)]);
    FlattenOne(Raw(pContents));
    ElementLine("p", InlinesMarkup(cs));
  }

  /** A code block renders as `<pre><code>` + its text verbatim + `</code></pre>` + a line break. */
  lemma PreHtml(code: string)
    ensures Flatten(BlockMarkup(Pre(code))) == "<pre><code>" + code + "</code></pre>\n"
  {
    var inner := Element("code", [Raw(code)]);
    CodeHtml(code);
    ElementLine("pre", inner);
    PreConcat(code, Flatten(inner));
  }

  lemma CodeHtml(code: string)
    ensures Flatten(Element("code", [Raw(code)])) == "<code>" + code + "</code>"
  {
    WrappedHtml("code", code);
    assert "<" + "code" + ">" == "<code>" && "</" + "code" + ">" == "</code>";
  }

  lemma PreConcat(code: string, x: string)
    requires x == "<code>" + code + "</code>"
    ensures "<" + "pre" + ">" + x + "</" + "pre" + ">" + "\n" == "<pre><code>" + code + "</code></pre>\n"
  {
    assert "<" + "pre" + ">" == "<pre>";
    assert "</" + "pre" + ">" == "</pre>";
    assert "<pre>" + "<code>" == "<pre><code>";
    assert "</code>" + "</pre>" + "\n" == "</code></pre>\n";
  }

  lemma ElementLine(tag: string, inner: seq<Markup>)
    ensures Flatten(Element(tag, inner) + [Raw("\n")]) == "<" + tag + ">" + Flatten(inner) + "</" + tag + ">" + "\n"
  {
    FlattenAppend(Element(tag, inner), [Raw("\n")]);
    ElementHtml(tag, inner);
    FlattenCons(Raw("\n"), []);
  }

  /** The document renders block after block. */
  lemma {:induction false} RenderAppend(a: seq<RootTag>, b: seq<RootTag>)
    requires AllRenderable(a) && AllRenderable(b)
    ensures AllRenderable(a + b)
    ensures Render(a + b) == Render(a) + Render(b)
    decreases |b|
  {
    if b == [] {
      assert a + b == a;
    } else {
      var init := b[..|b| - 1];
      assert (a + b)[..|a + b| - 1] == a + init;
      assert (a + b)[|a + b| - 1] == b[|b| - 1];
      RenderAppend(a, init);
      FlattenAppend(DocMarkup(a + init), BlockMarkup(b[|b| - 1]));
      FlattenAppend(DocMarkup(init), BlockMarkup(b[|b| - 1]));
      StringAssoc(Render(a), Render(init), Flatten(BlockMarkup(b[|b| - 1])));
    }
  }

  lemma RenderStep(tags: seq<RootTag>, i: nat)
    requires AllRenderable(tags) && i < |tags|
    ensures Render(tags[..i + 1]) == Render(tags[..i]) + Flatten(BlockMarkup(tags[i]))
  {
    assert tags[..i + 1][..i] == tags[..i];
    FlattenAppend(DocMarkup(tags[..i]), BlockMarkup(tags[i]));
  }

  // ---------------------------------------------------------------------
  // The imperative renderer

  class Parser {
    var html: string

    constructor ()
      ensures html == ""
    {
      html := "";
    }

    /** Appends `<tag>content</tag>`, then a line break when asked. */
    method PushHtml(tagName: string, content: string, newLine: bool)
      modifies this
      ensures html == old(html) + Flatten(Element(tagName, [Raw(content)]) + (if newLine then [Raw("\n")] else []))
    {
      var piece := "<" + tagName + ">" + content + "</" + tagName + ">" + (if newLine then "\n" else "");
      ghost var nl: seq<Markup> := if newLine then [Raw("\n")] else [];
      FlattenAppend(Element(tagName, [Raw(content)]), nl);
      ElementHtml(tagName, [Raw(content)]);
      FlattenOne(Raw(content));
      FlattenOne(Raw("\n"));
      html := html + piece;
    }

    /**
     * The inner `while let` loop of the list branch for item `li`: pops and
     * closes every level deeper than `li`, then closes the open `<li>` of the
     * level at `li`'s indent or opens a container of `li`'s kind inside it.
     */
    method Settle(stack0: seq<Level>, li: ListItem) returns (stack: seq<Level>)
      requires stack0 != [] && Increasing(stack0) && stack0[0].indent <= li.indent
      modifies this
      ensures stack == Unwind(stack0, li).0
      ensures html == old(html) + Flatten(Unwind(stack0, li).1)
    {
      stack := stack0;
      ghost var popped: seq<Markup> := [];
      while |stack| > 0
        invariant stack != [] && Increasing(stack) && stack[0] == stack0[0]
        invariant Unwind(stack, li).0 == Unwind(stack0, li).0
        invariant Unwind(stack0, li).1 == popped + Unwind(stack, li).1
        invariant html == old(html) + Flatten(popped)
        decreases |stack|
      {
        var top := stack[|stack| - 1];
        if top.indent <= li.indent {
          UnwindStop(stack, li);
        }
        if top.indent == li.indent {
          SiblingHtml();
          FlattenExtend(html, old(html), popped, [Close("li"), Raw("\n")]);
          html := html + "</li>\n";
          assert html == old(html) + Flatten(Unwind(stack0, li).1) && stack == Unwind(stack0, li).0;
          break;
        } else if top.indent < li.indent {
          NestHtml(li.indent, ListTag(li.listType));
          FlattenExtend(html, old(html), popped, [Raw("\n" + Tabs(li.indent)), Open(ListTag(li.listType)), Raw("\n")]);
          html := html + ("\n" + Tabs(li.indent) + "<" + ListTag(li.listType) + ">\n");
          stack := stack + [Level(li.indent, li.listType)];
          assert html == old(html) + Flatten(Unwind(stack0, li).1) && stack == Unwind(stack0, li).0;
          break;
        } else {
          UnwindPop(stack, li);
          ghost var before := Unwind(stack, li).1;
          stack := stack[..|stack| - 1];
          var secondLast := stack[|stack| - 1];
          ghost var piece := PopMarkup(top, secondLast);
          assert before == piece + Unwind(stack, li).1;
          assert popped + (piece + Unwind(stack, li).1) == (popped + piece) + Unwind(stack, li).1;
          PopHtml(top, secondLast);
          FlattenExtend(html, old(html), popped, piece);
          html := html + ("</li>\n" + Tabs(top.indent) + "</" + ListTag(top.listType) + ">\n" + Tabs(secondLast.indent));
          popped := popped + piece;
        }
      }
    }

    /** The list branch of `parse`. */
    method PushList(lists: seq<ListItem>)
      requires ListRenderable(lists)
      modifies this
      ensures html == old(html) + Flatten(ListMarkup(lists))
    {
      var stack: seq<Level> := [Level(lists[0].indent, lists[0].listType)];
      html := html + "<" + ListTag(lists[0].listType) + ">\n<li>" + Flatten(InlinesMarkup(lists[0].contents));
      FirstItemHtml(lists);
      for j := 1 to |lists|
        invariant stack == Walk(lists, j).0
        invariant html == old(html) + Flatten(Walk(lists, j).1)
      {
        var li := lists[j];
        ghost var stack0 := stack;
        ghost var start := html;
        stack := Settle(stack, li);
        ItemHtml(li);
        WalkStep(lists, j);
        FlattenExtend(start, old(html), Walk(lists, j).1, Unwind(stack0, li).1);
        FlattenExtend(html, old(html), Walk(lists, j).1 + Unwind(stack0, li).1, ItemMarkup(li));
        html := html + (Tabs(li.indent) + "<li>" + Flatten(InlinesMarkup(li.contents)));
      }
      CloseRemaining(stack);
      FlattenAppend(Walk(lists, |lists|).1, CloseAll(stack));
      StringAssoc(old(html), Flatten(Walk(lists, |lists|).1), Flatten(CloseAll(stack)));
    }

    /**
     * The final `while let` loop of the list branch: pops every level, top
     * first, closing its open `<li>` and its container.
     */
    method CloseRemaining(stack0: seq<Level>)
      modifies this
      ensures html == old(html) + Flatten(CloseAll(stack0))
    {
      var stack := stack0;
      ghost var closed: seq<Markup> := [];
      while |stack| > 0
        invariant CloseAll(stack0) == closed + CloseAll(stack)
        invariant html == old(html) + Flatten(closed)
        decreases |stack|
      {
        var top := stack[|stack| - 1];
        assert CloseAll(stack) == CloseLevel(top) + CloseAll(stack[..|stack| - 1]);
        stack := stack[..|stack| - 1];
        assert closed + (CloseLevel(top) + CloseAll(stack)) == (closed + CloseLevel(top)) + CloseAll(stack);
        CloseLevelHtml(top);
        FlattenExtend(html, old(html), closed, CloseLevel(top));
        html := html + ("</li>\n" + Tabs(top.indent) + "</" + ListTag(top.listType) + ">\n");
        closed := closed + CloseLevel(top);
      }
      assert closed == CloseAll(stack0);
    }
  }

  /**
   * The paragraph arm of `parse`: concatenates the rendered spans in order,
   * Text verbatim and the others wrapped in `<code>`, `<b>` or `<i>`.
   */
  method ParagraphContents(contents: seq<Content>) returns (pContents: string)
    ensures pContents == Flatten(InlinesMarkup(contents))
  {
    pContents := "";
    for k := 0 to |contents|
      invariant pContents == Flatten(InlinesMarkup(contents[..k]))
    {
      var c := contents[k];
      var piece;
      match c {
        case Text(t) => piece := t;
        case Code(t) => piece := "<code>" + t + "</code>";
        case Bold(t) => piece := "<b>" + t + "</b>";
        case Italic(t) => piece := "<i>" + t + "</i>";
      }
      assert piece == Flatten(InlineMarkup(c)) by { SpanHtml(c); }
      SpansHtml(contents[..k], c);
      assert contents[..k + 1] == contents[..k] + [c];
      pContents := pContents + piece;
    }
    assert contents[..|contents|] == contents;
  }

  /** `parse`: renders every block in order into a fresh buffer. */
  method Parse(tags: seq<RootTag>) returns (html: string)
    requires AllRenderable(tags)
    ensures html == Render(tags)
  {
    var parser := new Parser();
    for i := 0 to |tags|
      invariant parser.html == Render(tags[..i])
    {
      RenderStep(tags, i);
      ghost var before, piece := parser.html, Flatten(BlockMarkup(tags[i]));
      match tags[i]
      case H1(t) =>
        ElementLine("h1", [Raw(t)]);
        parser.PushHtml("h1", t, true);
        assert parser.html == before + piece;
      case H2(t) =>
        ElementLine("h2", [Raw(t)]);
        parser.PushHtml("h2", t, true);
        assert parser.html == before + piece;
      case H3(t) =>
        ElementLine("h3", [Raw(t)]);
        parser.PushHtml("h3", t, true);
        assert parser.html == before + piece;
      case P(contents) =>
        var pContents := ParagraphContents(contents);
        ParagraphLine(contents, pContents);
        parser.PushHtml("p", pContents, true);
        assert parser.html == before + piece;
      case Li(lists) =>
        parser.PushList(lists);
        assert parser.html == before + piece;
      case Pre(code) =>
        PreHtml(code);
        parser.html := parser.html + ("<pre><code>" + code + "</code></pre>\n");
        assert parser.html == before + piece;
    }
    assert tags[..|tags|] == tags;
    html := parser.html;
  }
}
