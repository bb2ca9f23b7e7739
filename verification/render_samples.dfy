/**
 * The characters `parse` produces for concrete documents: small documents
 * of each kind, then every test vector of the renderer (headings,
 * paragraphs of mixed spans, code blocks, one-item lists, the nested
 * lists and the mixed document). User texts stay separate string literals
 * in the expected outputs; the tag runs between them are spelled out by
 * small lemmas.
 */
module RenderSamples {
  import opened Tags
  import opened Html
  import opened Renderer

  /** A document of one block renders as that block. */
  lemma {:induction false} SingleBlock(b: RootTag)
    requires Renderable(b)
    ensures AllRenderable([b])
    ensures Render([b]) == Flatten(BlockMarkup(b))
  {
    var bs := [b];
    assert bs[..0] == [] && bs[0] == b;
    assert AllRenderable(bs);
    assert DocMarkup(bs) == DocMarkup(bs[..0]) + BlockMarkup(bs[0]);
    assert [] + BlockMarkup(b) == BlockMarkup(b);
  }

  lemma {:induction false} TextSpans(x: string)
    ensures Flatten(InlinesMarkup([Text(x)])) == x
  {
    assert [Text(x)][..0] == [];
    FlattenCons(Raw(x), []);
  }

  /** A paragraph of a text span and a code span. */
  lemma {:induction false} TextThenCode(x: string, y: string)
    ensures Render([P([Text(x), Code(y)])]) == "<p>" + (x + ("<code>" + y + "</code>")) + "</p>" + "\n"
  {
    var cs := [Text(x), Code(y)];
    SingleBlock(P(cs));
    ParagraphHtml(cs);
    assert Flatten(InlinesMarkup(cs)) == x + ("<code>" + y + "</code>") by {
      assert cs[..1] == [Text(x)];
      SpansHtml([Text(x)], Code(y));
      TextSpans(x);
      SpanHtml(Code(y));
    }
  }

  /** A list of one item at indent 0: its container, one `<li>` with the item's text, closed. */
  lemma {:induction false} SingleItemList(k: ListType, x: string)
    ensures var items := [ListItem(k, 0, [Text(x)])];
            ListRenderable(items) &&
            Render([Li(items)]) == "<" + ListTag(k) + ">\n<li>" + x + ("</li>\n" + "</" + ListTag(k) + ">\n")
  {
    var items := [ListItem(k, 0, [Text(x)])];
    SingleBlock(Li(items));
    var w := Walk(items, 1);
    assert ListMarkup(items) == w.1 + CloseLevel(Level(0, k)) by {
      assert w.0 == [Level(0, k)];
      assert CloseAll(w.0) == CloseLevel(Level(0, k)) + CloseAll([]);
    }
    FirstTextItem(items, x);
    CloseOuterLevel(k);
    FlattenAppend(w.1, CloseLevel(Level(0, k)));
  }

  lemma {:induction false} FirstTextItem(items: seq<ListItem>, x: string)
    requires ListRenderable(items) && items[0].contents == [Text(x)]
    ensures Flatten(Walk(items, 1).1) == "<" + ListTag(items[0].listType) + ">\n<li>" + x
  {
    FirstItemHtml(items);
    TextSpans(x);
  }

  lemma {:induction false} TextItem(li: ListItem, y: string)
    requires li.contents == [Text(y)]
    ensures Flatten(ItemMarkup(li)) == Tabs(li.indent) + "<li>" + y
  {
    ItemHtml(li);
    TextSpans(y);
  }

  /** Closing a level at indent 0 adds no tabs. */
  lemma {:induction false} CloseOuterLevel(k: ListType)
    ensures Flatten(CloseLevel(Level(0, k))) == "</li>\n" + "</" + ListTag(k) + ">\n"
  {
    CloseLevelHtml(Level(0, k));
    assert Tabs(0) == "";
    assert "</li>\n" + "" == "</li>\n";
  }

  lemma {:induction false} CloseNestedLevels(k: ListType, k2: ListType, n: nat)
    ensures Flatten(CloseLevel(Level(n, k2)) + CloseLevel(Level(0, k)))
            == ("</li>\n" + Tabs(n) + "</" + ListTag(k2) + ">\n") + ("</li>\n" + "</" + ListTag(k) + ">\n")
  {
    FlattenAppend(CloseLevel(Level(n, k2)), CloseLevel(Level(0, k)));
    CloseLevelHtml(Level(n, k2));
    CloseOuterLevel(k);
  }

  /** The markup of an item followed by a deeper one, piece by piece. */
  lemma {:induction false} NestedListMarkup(items: seq<ListItem>)
    requires |items| == 2 && items[0].indent < items[1].indent
    ensures ListRenderable(items)
    ensures ListMarkup(items)
            == Walk(items, 1).1
               + [Raw("\n" + Tabs(items[1].indent)), Open(ListTag(items[1].listType)), Raw("\n")]
               + ItemMarkup(items[1])
               + (CloseLevel(LevelOf(items[1])) + CloseLevel(LevelOf(items[0])))
  {
    var first := Walk(items, 1);
    assert first.0 == [LevelOf(items[0])];
    var step := Unwind(first.0, items[1]);
    UnwindStop(first.0, items[1]);
    assert step.0 == [LevelOf(items[0]), LevelOf(items[1])];
    WalkStep(items, 1);
    var w := Walk(items, 2);
    assert w.0[..1] == [LevelOf(items[0])];
    assert CloseAll(w.0) == CloseLevel(LevelOf(items[1])) + CloseAll([LevelOf(items[0])]);
    assert CloseAll([LevelOf(items[0])]) == CloseLevel(LevelOf(items[0])) + CloseAll([]);
  }

  /**
   * An item followed by a deeper one of kind `k2` at indent `n`: the deeper
   * item opens a new container inside the first item's `<li>`, indented by
   * `n` tabs, and both are closed innermost first.
   */
  lemma {:induction false} NestedList(k: ListType, x: string, k2: ListType, n: nat, y: string)
    requires 0 < n
    ensures var items := [ListItem(k, 0, [Text(x)]), ListItem(k2, n, [Text(y)])];
            ListRenderable(items) &&
            Render([Li(items)])
            == "<" + ListTag(k) + ">\n<li>" + x
               + ("\n" + Tabs(n) + "<" + ListTag(k2) + ">\n")
               + (Tabs(n) + "<li>" + y)
               + (("</li>\n" + Tabs(n) + "</" + ListTag(k2) + ">\n") + ("</li>\n" + "</" + ListTag(k) + ">\n"))
  {
    var items := [ListItem(k, 0, [Text(x)]), ListItem(k2, n, [Text(y)])];
    NestedListMarkup(items);
    SingleBlock(Li(items));
    var a, b, c := Walk(items, 1).1, [Raw("\n" + Tabs(n)), Open(ListTag(k2)), Raw("\n")], ItemMarkup(items[1]);
    var d := CloseLevel(Level(n, k2)) + CloseLevel(Level(0, k));
    FirstTextItem(items, x);
    NestHtml(n, ListTag(k2));
    TextItem(items[1], y);
    CloseNestedLevels(k, k2, n);
    FlattenFourParts(a, b, c, d);
  }

  /** The markup of an item, a deeper one, then one back at the first indent, piece by piece. */
  lemma {:induction false} NestThenBackMarkup(items: seq<ListItem>)
    requires |items| == 3 && items[0].indent < items[1].indent && items[2].indent == items[0].indent
    ensures ListRenderable(items)
    ensures ListMarkup(items)
            == Walk(items, 2).1
               + (PopMarkup(LevelOf(items[1]), LevelOf(items[0])) + [Close("li"), Raw("\n")])
               + ItemMarkup(items[2])
               + CloseLevel(LevelOf(items[0]))
  {
    var l0, l1 := LevelOf(items[0]), LevelOf(items[1]);
    assert Walk(items, 1).0 == [l0];
    UnwindStop([l0], items[1]);
    WalkStep(items, 1);
    assert Walk(items, 2).0 == [l0, l1];
    BackToOuter(l0, l1, items[2]);
    WalkStep(items, 2);
    var w := Walk(items, 3);
    assert w.0 == [l0];
    assert CloseAll([l0]) == CloseLevel(l0) + CloseAll([]);
  }

  /** The inner loop for an item back at the outer indent: one pop, then a sibling. */
  lemma {:induction false} BackToOuter(l0: Level, l1: Level, li: ListItem)
    requires l0.indent < l1.indent && li.indent == l0.indent
    ensures Increasing([l0, l1])
    ensures Unwind([l0, l1], li) == ([l0], PopMarkup(l1, l0) + [Close("li"), Raw("\n")])
  {
    UnwindPop([l0, l1], li);
    assert [l0, l1][..1] == [l0];
    UnwindStop([l0], li);
  }

  /**
   * An item, a deeper item of kind `k2` at indent `n`, then an item back at
   * indent 0: the deeper container is closed and the outer `<li>` ended
   * before the third item opens its own `<li>` in the first container.
   */
  lemma {:induction false} NestThenBack(k: ListType, x: string, k2: ListType, n: nat, y: string, z: string)
    requires 0 < n
    ensures var items := [ListItem(k, 0, [Text(x)]), ListItem(k2, n, [Text(y)]), ListItem(k, 0, [Text(z)])];
            ListRenderable(items) &&
            Render([Li(items)])
            == ("<" + ListTag(k) + ">\n<li>" + x
                + ("\n" + Tabs(n) + "<" + ListTag(k2) + ">\n")
                + (Tabs(n) + "<li>" + y))
               + ("</li>\n" + Tabs(n) + "</" + ListTag(k2) + ">\n" + "</li>\n")
               + ("<li>" + z)
               + ("</li>\n" + "</" + ListTag(k) + ">\n")
  {
    var items := [ListItem(k, 0, [Text(x)]), ListItem(k2, n, [Text(y)]), ListItem(k, 0, [Text(z)])];
    NestThenBackMarkup(items);
    SingleBlock(Li(items));
    var a, b := Walk(items, 2).1, PopMarkup(Level(n, k2), Level(0, k)) + [Close("li"), Raw("\n")];
    var c, d := ItemMarkup(items[2]), CloseLevel(Level(0, k));
    NestedPrefix(items, k, x, k2, n, y);
    PopToOuter(k, k2, n);
    TextItem(items[2], z);
    assert Tabs(0) == "" && "" + "<li>" == "<li>";
    CloseOuterLevel(k);
    FlattenFourParts(a, b, c, d);
  }

  /** The first two items of a list whose second item is nested in the first. */
  lemma {:induction false} NestedPrefix(items: seq<ListItem>, k: ListType, x: string, k2: ListType, n: nat, y: string)
    requires |items| >= 2 && 0 < n
    requires items[0] == ListItem(k, 0, [Text(x)]) && items[1] == ListItem(k2, n, [Text(y)])
    ensures ListRenderable(items)
    ensures Flatten(Walk(items, 2).1)
            == "<" + ListTag(k) + ">\n<li>" + x
               + ("\n" + Tabs(n) + "<" + ListTag(k2) + ">\n")
               + (Tabs(n) + "<li>" + y)
  {
    var l0 := LevelOf(items[0]);
    assert Walk(items, 1).0 == [l0];
    UnwindStop([l0], items[1]);
    WalkStep(items, 1);
    var a, b, c := Walk(items, 1).1, [Raw("\n" + Tabs(n)), Open(ListTag(k2)), Raw("\n")], ItemMarkup(items[1]);
    FirstTextItem(items, x);
    NestHtml(n, ListTag(k2));
    TextItem(items[1], y);
    FlattenAppend(a + b, c);
    FlattenAppend(a, b);
  }

  /** Popping a nested level back to indent 0 and ending the outer `<li>`. */
  lemma {:induction false} PopToOuter(k: ListType, k2: ListType, n: nat)
    ensures Flatten(PopMarkup(Level(n, k2), Level(0, k)) + [Close("li"), Raw("\n")])
            == "</li>\n" + Tabs(n) + "</" + ListTag(k2) + ">\n" + "</li>\n"
  {
    PopHtml(Level(n, k2), Level(0, k));
    SiblingHtml();
    FlattenAppend(PopMarkup(Level(n, k2), Level(0, k)), [Close("li"), Raw("\n")]);
    var pre := "</li>\n" + Tabs(n) + "</" + ListTag(k2) + ">\n";
    assert Tabs(0) == "" && pre + "" == pre;
  }

  /** The second item opens a nested container when it is deeper than the first. */
  lemma {:induction false} SecondItemNests(items: seq<ListItem>)
    requires ListRenderable(items) && |items| >= 2 && items[0].indent < items[1].indent
    ensures Walk(items, 2).0 == [LevelOf(items[0]), LevelOf(items[1])]
  {
    assert Walk(items, 1).0 == [LevelOf(items[0])];
    UnwindStop([LevelOf(items[0])], items[1]);
    WalkStep(items, 1);
  }

  /** An item between two open levels: the deeper one is popped and a container opened at the item's indent. */
  lemma {:induction false} BetweenLevels(l0: Level, l1: Level, li: ListItem)
    requires l0.indent < li.indent < l1.indent
    ensures Increasing([l0, l1])
    ensures Unwind([l0, l1], li)
            == ([l0, LevelOf(li)], PopMarkup(l1, l0) + [Raw("\n" + Tabs(li.indent)), Open(ListTag(li.listType)), Raw("\n")])
  {
    UnwindPop([l0, l1], li);
    assert [l0, l1][..1] == [l0];
    UnwindStop([l0], li);
    assert [l0] + [LevelOf(li)] == [l0, LevelOf(li)];
  }

  /**
   * Indents 0, 4, 2: the third item matches no open level, so the level at
   * 4 is popped and, the level at 0 being shallower, a new container of the
   * third item's kind is opened at indent 2.
   */
  lemma {:induction false} UnmatchedIndent(k: ListType, k2: ListType, k3: ListType, a: seq<Content>, b: seq<Content>, c: seq<Content>)
    ensures var items := [ListItem(k, 0, a), ListItem(k2, 4, b), ListItem(k3, 2, c)];
            ListRenderable(items) &&
            Walk(items, 3).0 == [Level(0, k), Level(2, k3)] &&
            Unwind(Walk(items, 2).0, items[2]).1
            == PopMarkup(Level(4, k2), Level(0, k)) + [Raw("\n" + Tabs(2)), Open(ListTag(k3)), Raw("\n")]
  {
    var items := [ListItem(k, 0, a), ListItem(k2, 4, b), ListItem(k3, 2, c)];
    assert ListRenderable(items);
    SecondItemNests(items);
    BetweenLevels(Level(0, k), Level(4, k2), items[2]);
    WalkStep(items, 2);
  }

  lemma {:induction false} FlattenFourParts(a: seq<Markup>, b: seq<Markup>, c: seq<Markup>, d: seq<Markup>)
    ensures Flatten(a + b + c + d) == Flatten(a) + Flatten(b) + Flatten(c) + Flatten(d)
  {
    FlattenAppend(a + b + c, d);
    FlattenAppend(a + b, c);
    FlattenAppend(a, b);
  }
  // ---------------------------------------------------------------------
  // Documents `parse` is written against, with their exact output

  /** A text span and a code span in one paragraph. */
  lemma {:induction false} SampleParagraph()
    ensures Render([P([Text("テキスト"), Code("コード")])]) == "<p>テキスト" + "<code>コード</code>" + "</p>\n"
  {
    TextThenCode("テキスト", "コード");
    ParagraphLiteral(Render([P([Text("テキスト"), Code("コード")])]));
  }

  lemma {:induction false} ParagraphLiteral(r: string)
    requires r == "<p>" + ("テキスト" + ("<code>" + "コード" + "</code>")) + "</p>" + "\n"
    ensures r == "<p>テキスト" + "<code>コード</code>" + "</p>\n"
  {
    var c := "<code>コード</code>";
    assert "<code>" + "コード" + "</code>" == c;
    StringAssoc("<p>", "テキスト", c);
    assert "<p>" + "テキスト" == "<p>テキスト";
    StringAssoc("<p>テキスト" + c, "</p>", "\n");
    assert "</p>" + "\n" == "</p>\n";
  }

  /** A one-item unordered list. */
  lemma {:induction false} SampleList()
    ensures ListRenderable([ListItem(Ul, 0, [Text("リスト")])])
    ensures Render([Li([ListItem(Ul, 0, [Text("リスト")])])]) == "<ul>\n<li>" + "リスト" + "</li>\n</ul>\n"
  {
    SingleItemList(Ul, "リスト");
    ListLiteral("リスト", Render([Li([ListItem(Ul, 0, [Text("リスト")])])]));
  }

  lemma {:induction false} ListLiteral(x: string, r: string)
    requires r == "<" + ListTag(Ul) + ">\n<li>" + x + ("</li>\n" + "</" + ListTag(Ul) + ">\n")
    ensures r == "<ul>\n<li>" + x + "</li>\n</ul>\n"
  {
    assert ListTag(Ul) == "ul";
    assert "<" + "ul" + ">\n<li>" == "<ul>\n<li>";
    assert "</li>\n" + "</" + "ul" + ">\n" == "</li>\n</ul>\n";
  }


  // ---------------------------------------------------------------------
  // Lists of one-text items, item by item: after `j` items the output is
  // `s`, and the next item appends the tags `g` that separate the previous
  // item's text from its own, then its text `y`.

  /** The inner loop's markup `u`, then an item's `tabs<li>` and its one text span. */
  lemma {:induction false} StepJoin(done: seq<Markup>, u: seq<Markup>, li: ListItem, s: string, g: string, y: string)
    requires Flatten(done) == s && li.contents == [Text(y)]
    requires g == Flatten(u) + (Tabs(li.indent) + "<li>")
    ensures Flatten(done + u + ItemMarkup(li)) == s + g + y
  {
    FlattenAppend(done + u, ItemMarkup(li));
    FlattenAppend(done, u);
    TextItem(li, y);
    var f, t := Flatten(u), Tabs(li.indent) + "<li>";
    StringAssoc(s + f, t, y);
    StringAssoc(s, f, t);
  }

  /** An item deeper than the open top level opens a container of its own kind inside the open `<li>`. */
  lemma {:induction false} NestTextStep(items: seq<ListItem>, j: nat, s: string, y: string, g: string)
    requires ListRenderable(items) && 1 <= j < |items| && items[j].contents == [Text(y)]
    requires Walk(items, j).0[|Walk(items, j).0| - 1].indent < items[j].indent
    requires Flatten(Walk(items, j).1) == s
    requires g == "\n" + Tabs(items[j].indent) + "<" + ListTag(items[j].listType) + ">\n" + (Tabs(items[j].indent) + "<li>")
    ensures Walk(items, j + 1).0 == Walk(items, j).0 + [LevelOf(items[j])]
    ensures Flatten(Walk(items, j + 1).1) == s + g + y
  {
    var prev, li := Walk(items, j), items[j];
    UnwindStop(prev.0, li);
    WalkStep(items, j);
    NestHtml(li.indent, ListTag(li.listType));
    StepJoin(prev.1, [Raw("\n" + Tabs(li.indent)), Open(ListTag(li.listType)), Raw("\n")], li, s, g, y);
  }

  /** An item at the open top level's indent closes the previous `<li>` and stays in that container. */
  lemma {:induction false} SiblingTextStep(items: seq<ListItem>, j: nat, s: string, y: string, g: string)
    requires ListRenderable(items) && 1 <= j < |items| && items[j].contents == [Text(y)]
    requires Walk(items, j).0[|Walk(items, j).0| - 1].indent == items[j].indent
    requires Flatten(Walk(items, j).1) == s
    requires g == "</li>\n" + (Tabs(items[j].indent) + "<li>")
    ensures Walk(items, j + 1).0 == Walk(items, j).0
    ensures Flatten(Walk(items, j + 1).1) == s + g + y
  {
    var prev, li := Walk(items, j), items[j];
    UnwindStop(prev.0, li);
    WalkStep(items, j);
    SiblingHtml();
    StepJoin(prev.1, [Close("li"), Raw("\n")], li, s, g, y);
  }

  /**
   * An item at the indent of the level just below the open top: the top
   * level is closed, then the item is a sibling in the level below.
   */
  lemma {:induction false} PopTextStep(items: seq<ListItem>, j: nat, s: string, y: string, g: string)
    requires ListRenderable(items) && 1 <= j < |items| && items[j].contents == [Text(y)]
    requires var st := Walk(items, j).0;
             |st| >= 2 && st[|st| - 2].indent == items[j].indent
    requires Flatten(Walk(items, j).1) == s
    requires var st := Walk(items, j).0;
             var top, below := st[|st| - 1], st[|st| - 2];
             g == "</li>\n" + Tabs(top.indent) + "</" + ListTag(top.listType) + ">\n" + Tabs(below.indent)
                  + "</li>\n" + (Tabs(items[j].indent) + "<li>")
    ensures var st := Walk(items, j).0;
            Walk(items, j + 1).0 == st[..|st| - 1]
    ensures Flatten(Walk(items, j + 1).1) == s + g + y
  {
    var prev, li := Walk(items, j), items[j];
    var st := prev.0;
    var top, rest := st[|st| - 1], st[..|st| - 1];
    var below := rest[|rest| - 1];
    UnwindPop(st, li);
    UnwindStop(rest, li);
    WalkStep(items, j);
    var u := PopMarkup(top, below) + [Close("li"), Raw("\n")];
    PopHtml(top, below);
    SiblingHtml();
    FlattenAppend(PopMarkup(top, below), [Close("li"), Raw("\n")]);
    StepJoin(prev.1, u, li, s, g, y);
  }

  /** The final loop appends the closing tags `c` of the levels still open. */
  lemma {:induction false} CloseTextList(items: seq<ListItem>, s: string, c: string)
    requires ListRenderable(items)
    requires Flatten(Walk(items, |items|).1) == s
    requires c == Flatten(CloseAll(Walk(items, |items|).0))
    ensures Flatten(ListMarkup(items)) == s + c
  {
    var w := Walk(items, |items|);
    FlattenAppend(w.1, CloseAll(w.0));
  }

  lemma {:induction false} CloseOneAll(l0: Level)
    ensures CloseAll([l0]) == CloseLevel(l0)
  {
    assert [l0][..0] == [];
    assert CloseAll([l0]) == CloseLevel(l0) + CloseAll([]);
    assert CloseLevel(l0) + [] == CloseLevel(l0);
  }

  /** The closing tags of a stack of two levels, the upper one at indent `n`. */
  lemma {:induction false} CloseTwoLevels(l0: Level, l1: Level)
    requires l0.indent == 0
    ensures Flatten(CloseAll([l0, l1]))
            == ("</li>\n" + Tabs(l1.indent) + "</" + ListTag(l1.listType) + ">\n") + ("</li>\n" + "</" + ListTag(l0.listType) + ">\n")
  {
    assert [l0, l1][..1] == [l0];
    CloseOneAll(l0);
    assert CloseAll([l0, l1]) == CloseLevel(l1) + CloseLevel(l0);
    assert l0 == Level(0, l0.listType) && l1 == Level(l1.indent, l1.listType);
    CloseNestedLevels(l0.listType, l1.listType, l1.indent);
  }

  /** The closing tags of a stack of one level at indent 0. */
  lemma {:induction false} CloseOneLevel(l0: Level)
    requires l0.indent == 0
    ensures Flatten(CloseAll([l0])) == "</li>\n" + "</" + ListTag(l0.listType) + ">\n"
  {
    CloseOneAll(l0);
    assert l0 == Level(0, l0.listType);
    CloseOuterLevel(l0.listType);
  }

  /** The tags between two item texts, spelled out: a first item, and siblings at indents 0 and 1. */
  lemma {:induction false} SiblingRuns()
    ensures "<" + ListTag(Ul) + ">\n<li>" == "<ul>\n<li>"
    ensures "</li>\n" + (Tabs(0) + "<li>") == "</li>\n<li>"
    ensures "</li>\n" + (Tabs(1) + "<li>") == "</li>\n\t<li>"
  {
    assert Tabs(0) == "" && Tabs(1) == "\t";
    assert ListTag(Ul) == "ul";
  }

  /** The tags before a nested item's text. */
  lemma {:induction false} NestRuns()
    ensures "\n" + Tabs(1) + "<" + ListTag(Ul) + ">\n" + (Tabs(1) + "<li>") == "\n\t<ul>\n\t<li>"
    ensures "\n" + Tabs(1) + "<" + ListTag(Ol) + ">\n" + (Tabs(1) + "<li>") == "\n\t<ol>\n\t<li>"
    ensures "\n" + Tabs(2) + "<" + ListTag(Ul) + ">\n" + (Tabs(2) + "<li>") == "\n\t\t<ul>\n\t\t<li>"
  {
    assert Tabs(1) == "\t" && Tabs(2) == "\t\t";
    assert ListTag(Ul) == "ul" && ListTag(Ol) == "ol";
  }

  /** The tags before the text of an item back at indent 0 from indent 1. */
  lemma {:induction false} PopRun()
    ensures "</li>\n" + Tabs(1) + "</" + ListTag(Ul) + ">\n" + Tabs(0) + "</li>\n" + (Tabs(0) + "<li>")
            == "</li>\n\t</ul>\n</li>\n<li>"
  {
    assert Tabs(0) == "" && Tabs(1) == "\t";
    assert ListTag(Ul) == "ul";
  }

  /** The tags before the text of an item back at indent 1 from indent 2. */
  lemma {:induction false} DeepPopRun()
    ensures "</li>\n" + Tabs(2) + "</" + ListTag(Ul) + ">\n" + Tabs(1) + "</li>\n" + (Tabs(1) + "<li>")
            == "</li>\n\t\t</ul>\n\t</li>\n\t<li>"
  {
    assert Tabs(1) == "\t" && Tabs(2) == "\t\t";
    assert ListTag(Ul) == "ul";
  }

  /** The tags after the last item's text. */
  lemma {:induction false} CloseRuns()
    ensures ("</li>\n" + Tabs(1) + "</" + ListTag(Ol) + ">\n") + ("</li>\n" + "</" + ListTag(Ul) + ">\n")
            == "</li>\n\t</ol>\n</li>\n</ul>\n"
    ensures "</li>\n" + "</" + ListTag(Ul) + ">\n" == "</li>\n</ul>\n"
  {
    assert Tabs(1) == "\t";
    assert ListTag(Ul) == "ul" && ListTag(Ol) == "ol";
  }

  /** The first four items of the six-item list: a nested unordered pair, then back to the outer level. */
  lemma {:induction false} FirstSubList(items: seq<ListItem>, x1: string, x2: string, x3: string, x4: string)
    requires ListRenderable(items) && |items| >= 4
    requires items[0] == ListItem(Ul, 0, [Text(x1)]) && items[1] == ListItem(Ul, 1, [Text(x2)])
    requires items[2] == ListItem(Ul, 1, [Text(x3)]) && items[3] == ListItem(Ul, 0, [Text(x4)])
    ensures Walk(items, 4).0 == [Level(0, Ul)]
    ensures Flatten(Walk(items, 4).1)
            == "<ul>\n<li>" + x1 + "\n\t<ul>\n\t<li>" + x2 + "</li>\n\t<li>" + x3 + "</li>\n\t</ul>\n</li>\n<li>" + x4
  {
    var l0, l1 := Level(0, Ul), Level(1, Ul);
    SiblingRuns();
    NestRuns();
    PopRun();
    FirstTextItem(items, x1);
    assert Walk(items, 1).0 == [l0];
    var s1 := "<ul>\n<li>" + x1;
    var g2 := "\n\t<ul>\n\t<li>";
    NestTextStep(items, 1, s1, x2, g2);
    var s2 := s1 + g2 + x2;
    var g3 := "</li>\n\t<li>";
    SiblingTextStep(items, 2, s2, x3, g3);
    var s3 := s2 + g3 + x3;
    assert Walk(items, 3).0 == [l0, l1];
    PopTextStep(items, 3, s3, x4, "</li>\n\t</ul>\n</li>\n<li>");
    assert [l0, l1][..1] == [l0];
  }

  /** The last two items of the six-item list: a nested ordered pair, then every level closed. */
  lemma {:induction false} SecondSubList(items: seq<ListItem>, s: string, x5: string, x6: string)
    requires ListRenderable(items) && |items| == 6
    requires items[4] == ListItem(Ol, 1, [Text(x5)]) && items[5] == ListItem(Ol, 1, [Text(x6)])
    requires Walk(items, 4).0 == [Level(0, Ul)] && Flatten(Walk(items, 4).1) == s
    ensures Flatten(ListMarkup(items)) == s + "\n\t<ol>\n\t<li>" + x5 + "</li>\n\t<li>" + x6 + "</li>\n\t</ol>\n</li>\n</ul>\n"
  {
    var l0, m1 := Level(0, Ul), Level(1, Ol);
    SiblingRuns();
    NestRuns();
    CloseRuns();
    var g5 := "\n\t<ol>\n\t<li>";
    NestTextStep(items, 4, s, x5, g5);
    var s5 := s + g5 + x5;
    var g6 := "</li>\n\t<li>";
    SiblingTextStep(items, 5, s5, x6, g6);
    var s6 := s5 + g6 + x6;
    assert Walk(items, 6).0 == [l0, m1];
    CloseTwoLevels(l0, m1);
    CloseTextList(items, s6, "</li>\n\t</ol>\n</li>\n</ul>\n");
  }

  /**
   * Two items, two nested ones, an item back at the outer indent, and two
   * nested items of the other kind: each nested pair sits in its own
   * container inside its parent's `<li>`.
   */
  lemma {:induction false} TwoSubLists(x1: string, x2: string, x3: string, x4: string, x5: string, x6: string)
    ensures var items := [ListItem(Ul, 0, [Text(x1)]), ListItem(Ul, 1, [Text(x2)]), ListItem(Ul, 1, [Text(x3)]),
                          ListItem(Ul, 0, [Text(x4)]), ListItem(Ol, 1, [Text(x5)]), ListItem(Ol, 1, [Text(x6)])];
            ListRenderable(items) &&
            Flatten(ListMarkup(items))
            == "<ul>\n<li>" + x1 + "\n\t<ul>\n\t<li>" + x2 + "</li>\n\t<li>" + x3 + "</li>\n\t</ul>\n</li>\n<li>" + x4
               + "\n\t<ol>\n\t<li>" + x5 + "</li>\n\t<li>" + x6 + "</li>\n\t</ol>\n</li>\n</ul>\n"
  {
    var items := [ListItem(Ul, 0, [Text(x1)]), ListItem(Ul, 1, [Text(x2)]), ListItem(Ul, 1, [Text(x3)]),
                  ListItem(Ul, 0, [Text(x4)]), ListItem(Ol, 1, [Text(x5)]), ListItem(Ol, 1, [Text(x6)])];
    assert ListRenderable(items);
    FirstSubList(items, x1, x2, x3, x4);
    SecondSubList(items, Flatten(Walk(items, 4).1), x5, x6);
  }

  /** The six-item list of the renderer's tests: two sub-lists, the second one ordered. */
  lemma {:induction false} SampleNestedList()
    ensures var items := [ListItem(Ul, 0, [Text("リスト1")]), ListItem(Ul, 1, [Text("リスト1-1")]), ListItem(Ul, 1, [Text("リスト1-2")]),
                          ListItem(Ul, 0, [Text("リスト2")]), ListItem(Ol, 1, [Text("リスト2-1")]), ListItem(Ol, 1, [Text("リスト2-2")])];
            ListRenderable(items) &&
            Render([Li(items)])
            == "<ul>\n<li>" + "リスト1" + "\n\t<ul>\n\t<li>" + "リスト1-1" + "</li>\n\t<li>" + "リスト1-2" + "</li>\n\t</ul>\n</li>\n<li>" + "リスト2"
               + "\n\t<ol>\n\t<li>" + "リスト2-1" + "</li>\n\t<li>" + "リスト2-2" + "</li>\n\t</ol>\n</li>\n</ul>\n"
  {
    var items := [ListItem(Ul, 0, [Text("リスト1")]), ListItem(Ul, 1, [Text("リスト1-1")]), ListItem(Ul, 1, [Text("リスト1-2")]),
                  ListItem(Ul, 0, [Text("リスト2")]), ListItem(Ol, 1, [Text("リスト2-1")]), ListItem(Ol, 1, [Text("リスト2-2")])];
    TwoSubLists("リスト1", "リスト1-1", "リスト1-2", "リスト2", "リスト2-1", "リスト2-2");
    SingleBlock(Li(items));
  }

  /** The first four items of the mixed document's list: two outer siblings, then a nested pair. */
  lemma {:induction false} MixedListStart(items: seq<ListItem>, x1: string, x2: string, x3: string, x4: string)
    requires ListRenderable(items) && |items| >= 4
    requires items[0] == ListItem(Ul, 0, [Text(x1)]) && items[1] == ListItem(Ul, 0, [Text(x2)])
    requires items[2] == ListItem(Ul, 1, [Text(x3)]) && items[3] == ListItem(Ul, 1, [Text(x4)])
    ensures Walk(items, 4).0 == [Level(0, Ul), Level(1, Ul)]
    ensures Flatten(Walk(items, 4).1)
            == "<ul>\n<li>" + x1 + "</li>\n<li>" + x2 + "\n\t<ul>\n\t<li>" + x3 + "</li>\n\t<li>" + x4
  {
    SiblingRuns();
    NestRuns();
    FirstTextItem(items, x1);
    assert Walk(items, 1).0 == [Level(0, Ul)];
    var s1 := "<ul>\n<li>" + x1;
    var g2 := "</li>\n<li>";
    SiblingTextStep(items, 1, s1, x2, g2);
    var s2 := s1 + g2 + x2;
    var g3 := "\n\t<ul>\n\t<li>";
    NestTextStep(items, 2, s2, x3, g3);
    var s3 := s2 + g3 + x3;
    SiblingTextStep(items, 3, s3, x4, "</li>\n\t<li>");
  }

  /** The last three items of the mixed document's list: one level deeper, then back out twice. */
  lemma {:induction false} MixedListEnd(items: seq<ListItem>, s: string, x5: string, x6: string, x7: string)
    requires ListRenderable(items) && |items| == 7
    requires items[4] == ListItem(Ul, 2, [Text(x5)]) && items[5] == ListItem(Ul, 1, [Text(x6)])
    requires items[6] == ListItem(Ul, 0, [Text(x7)])
    requires Walk(items, 4).0 == [Level(0, Ul), Level(1, Ul)] && Flatten(Walk(items, 4).1) == s
    ensures Flatten(ListMarkup(items))
            == s + "\n\t\t<ul>\n\t\t<li>" + x5 + "</li>\n\t\t</ul>\n\t</li>\n\t<li>" + x6
               + "</li>\n\t</ul>\n</li>\n<li>" + x7 + "</li>\n</ul>\n"
  {
    var l0, l1, l2 := Level(0, Ul), Level(1, Ul), Level(2, Ul);
    NestRuns();
    DeepPopRun();
    PopRun();
    CloseRuns();
    var g5 := "\n\t\t<ul>\n\t\t<li>";
    NestTextStep(items, 4, s, x5, g5);
    var s5 := s + g5 + x5;
    assert Walk(items, 5).0 == [l0, l1, l2];
    var g6 := "</li>\n\t\t</ul>\n\t</li>\n\t<li>";
    PopTextStep(items, 5, s5, x6, g6);
    var s6 := s5 + g6 + x6;
    assert [l0, l1, l2][..2] == [l0, l1];
    assert Walk(items, 6).0 == [l0, l1];
    var g7 := "</li>\n\t</ul>\n</li>\n<li>";
    PopTextStep(items, 6, s6, x7, g7);
    var s7 := s6 + g7 + x7;
    assert [l0, l1][..1] == [l0];
    CloseOneLevel(l0);
    CloseTextList(items, s7, "</li>\n</ul>\n");
  }

  /**
   * Two outer items, the second holding a nested list whose second item
   * holds a list two levels deep, then items back at indents 1 and 0.
   */
  lemma {:induction false} MixedList(x1: string, x2: string, x3: string, x4: string, x5: string, x6: string, x7: string)
    ensures var items := [ListItem(Ul, 0, [Text(x1)]), ListItem(Ul, 0, [Text(x2)]), ListItem(Ul, 1, [Text(x3)]),
                          ListItem(Ul, 1, [Text(x4)]), ListItem(Ul, 2, [Text(x5)]), ListItem(Ul, 1, [Text(x6)]),
                          ListItem(Ul, 0, [Text(x7)])];
            ListRenderable(items) &&
            Flatten(ListMarkup(items))
            == "<ul>\n<li>" + x1 + "</li>\n<li>" + x2 + "\n\t<ul>\n\t<li>" + x3 + "</li>\n\t<li>" + x4
               + "\n\t\t<ul>\n\t\t<li>" + x5 + "</li>\n\t\t</ul>\n\t</li>\n\t<li>" + x6
               + "</li>\n\t</ul>\n</li>\n<li>" + x7 + "</li>\n</ul>\n"
  {
    var items := [ListItem(Ul, 0, [Text(x1)]), ListItem(Ul, 0, [Text(x2)]), ListItem(Ul, 1, [Text(x3)]),
                  ListItem(Ul, 1, [Text(x4)]), ListItem(Ul, 2, [Text(x5)]), ListItem(Ul, 1, [Text(x6)]),
                  ListItem(Ul, 0, [Text(x7)])];
    assert ListRenderable(items);
    MixedListStart(items, x1, x2, x3, x4);
    MixedListEnd(items, Flatten(Walk(items, 4).1), x5, x6, x7);
  }

  /** A heading block's characters, its closing tag and line break spelled as one piece. */
  lemma {:induction false} HeadingBlockHtml(b: RootTag)
    requires b.H1? || b.H2? || b.H3?
    ensures b.H1? ==> Flatten(BlockMarkup(b)) == "<h1>" + b.text + "</h1>\n"
    ensures b.H2? ==> Flatten(BlockMarkup(b)) == "<h2>" + b.text + "</h2>\n"
    ensures b.H3? ==> Flatten(BlockMarkup(b)) == "<h3>" + b.text + "</h3>\n"
  {
    HeadingHtml(b);
    if b.H1? {
      StringAssoc("<h1>" + b.text, "</h1>", "\n");
    } else if b.H2? {
      StringAssoc("<h2>" + b.text, "</h2>", "\n");
    } else {
      StringAssoc("<h3>" + b.text, "</h3>", "\n");
    }
  }

  /** A paragraph of one text span. */
  lemma {:induction false} TextParagraph(x: string)
    ensures Flatten(BlockMarkup(P([Text(x)]))) == "<p>" + x + "</p>\n"
  {
    ParagraphHtml([Text(x)]);
    TextSpans(x);
    StringAssoc("<p>" + x, "</p>", "\n");
  }

  /** One more block appends its characters. */
  lemma {:induction false} RenderSnoc(bs: seq<RootTag>, b: RootTag, s: string, t: string)
    requires AllRenderable(bs) && Renderable(b)
    requires Render(bs) == s && Flatten(BlockMarkup(b)) == t
    ensures AllRenderable(bs + [b])
    ensures Render(bs + [b]) == s + t
  {
    SingleBlock(b);
    RenderAppend(bs, [b]);
  }

  /** Three blocks render as their characters in order. */
  lemma {:induction false} ThreeBlocks(b0: RootTag, b1: RootTag, b2: RootTag, t0: string, t1: string, t2: string)
    requires Renderable(b0) && Flatten(BlockMarkup(b0)) == t0
    requires Renderable(b1) && Flatten(BlockMarkup(b1)) == t1
    requires Renderable(b2) && Flatten(BlockMarkup(b2)) == t2
    ensures AllRenderable([b0, b1, b2])
    ensures Render([b0, b1, b2]) == t0 + t1 + t2
  {
    SingleBlock(b0);
    RenderSnoc([b0], b1, t0, t1);
    assert [b0] + [b1] == [b0, b1];
    RenderSnoc([b0, b1], b2, t0 + t1, t2);
    assert [b0, b1] + [b2] == [b0, b1, b2];
  }

  /** Nine blocks, three at a time. */
  lemma {:induction false} NineBlocks(a: seq<RootTag>, b: seq<RootTag>, c: seq<RootTag>, s: string, t: string, u: string)
    requires AllRenderable(a) && AllRenderable(b) && AllRenderable(c)
    requires Render(a) == s && Render(b) == t && Render(c) == u
    ensures AllRenderable(a + b + c)
    ensures Render(a + b + c) == s + t + u
  {
    RenderAppend(a, b);
    RenderAppend(a + b, c);
  }

  /** The mixed document's first three blocks: two headings and a paragraph. */
  lemma {:induction false} DocumentHead()
    ensures AllRenderable([H1("見出し1"), H2("見出し2"), P([Text("段落1")])])
    ensures Render([H1("見出し1"), H2("見出し2"), P([Text("段落1")])])
            == ("<h1>" + "見出し1" + "</h1>\n") + ("<h2>" + "見出し2" + "</h2>\n") + ("<p>" + "段落1" + "</p>\n")
  {
    HeadingBlockHtml(H1("見出し1"));
    HeadingBlockHtml(H2("見出し2"));
    TextParagraph("段落1");
    ThreeBlocks(H1("見出し1"), H2("見出し2"), P([Text("段落1")]),
                "<h1>" + "見出し1" + "</h1>\n", "<h2>" + "見出し2" + "</h2>\n", "<p>" + "段落1" + "</p>\n");
  }

  /** The mixed document's next three blocks: a heading, a paragraph and a code block. */
  lemma {:induction false} DocumentMiddle()
    ensures AllRenderable([H3("見出し3"), P([Text("段落2")]), Pre("console.log('Hello, world!');\n")])
    ensures Render([H3("見出し3"), P([Text("段落2")]), Pre("console.log('Hello, world!');\n")])
            == ("<h3>" + "見出し3" + "</h3>\n") + ("<p>" + "段落2" + "</p>\n")
               + ("<pre><code>" + "console.log('Hello, world!');\n" + "</code></pre>\n")
  {
    var code := "console.log('Hello, world!');\n";
    HeadingBlockHtml(H3("見出し3"));
    TextParagraph("段落2");
    PreHtml(code);
    ThreeBlocks(H3("見出し3"), P([Text("段落2")]), Pre(code),
                "<h3>" + "見出し3" + "</h3>\n", "<p>" + "段落2" + "</p>\n", "<pre><code>" + code + "</code></pre>\n");
  }

  /** The list of the mixed document, its items written as `parse` receives them. */
  function MixedItems(): seq<ListItem>
  {
    [ListItem(Ul, 0, [Text("リスト1")]), ListItem(Ul, 0, [Text("リスト2")]), ListItem(Ul, 1, [Text("リスト2-1")]),
     ListItem(Ul, 1, [Text("リスト2-2")]), ListItem(Ul, 2, [Text("リスト2-2-1")]), ListItem(Ul, 1, [Text("リスト2-3")]),
     ListItem(Ul, 0, [Text("リスト3")])]
  }

  /** The mixed document's last three blocks: the list, a code block and a paragraph. */
  lemma {:induction false} DocumentTail()
    ensures ListRenderable(MixedItems())
    ensures AllRenderable([Li(MixedItems()), Pre("console.log('Hello, world!');\n"), P([Text("段落3")])])
    ensures Render([Li(MixedItems()), Pre("console.log('Hello, world!');\n"), P([Text("段落3")])])
            == ("<ul>\n<li>" + "リスト1" + "</li>\n<li>" + "リスト2" + "\n\t<ul>\n\t<li>" + "リスト2-1" + "</li>\n\t<li>" + "リスト2-2"
                + "\n\t\t<ul>\n\t\t<li>" + "リスト2-2-1" + "</li>\n\t\t</ul>\n\t</li>\n\t<li>" + "リスト2-3"
                + "</li>\n\t</ul>\n</li>\n<li>" + "リスト3" + "</li>\n</ul>\n")
               + ("<pre><code>" + "console.log('Hello, world!');\n" + "</code></pre>\n") + ("<p>" + "段落3" + "</p>\n")
  {
    var code := "console.log('Hello, world!');\n";
    MixedList("リスト1", "リスト2", "リスト2-1", "リスト2-2", "リスト2-2-1", "リスト2-3", "リスト3");
    var l := "<ul>\n<li>" + "リスト1" + "</li>\n<li>" + "リスト2" + "\n\t<ul>\n\t<li>" + "リスト2-1" + "</li>\n\t<li>" + "リスト2-2"
             + "\n\t\t<ul>\n\t\t<li>" + "リスト2-2-1" + "</li>\n\t\t</ul>\n\t</li>\n\t<li>" + "リスト2-3"
             + "</li>\n\t</ul>\n</li>\n<li>" + "リスト3" + "</li>\n</ul>\n";
    assert Flatten(BlockMarkup(Li(MixedItems()))) == l;
    PreHtml(code);
    TextParagraph("段落3");
    ThreeBlocks(Li(MixedItems()), Pre(code), P([Text("段落3")]),
                l, "<pre><code>" + code + "</code></pre>\n", "<p>" + "段落3" + "</p>\n");
  }

  /**
   * The renderer's mixed test document: headings, paragraphs, code blocks
   * and a list three levels deep.
   */
  function MixedDocument(): seq<RootTag>
  {
    [H1("見出し1"), H2("見出し2"), P([Text("段落1")])]
    + [H3("見出し3"), P([Text("段落2")]), Pre("console.log('Hello, world!');\n")]
    + [Li(MixedItems()), Pre("console.log('Hello, world!');\n"), P([Text("段落3")])]
  }

  /** The mixed document renders as each block's characters in order. */
  lemma {:induction false} SampleDocument()
    ensures AllRenderable(MixedDocument())
    ensures Render(MixedDocument())
            == ("<h1>" + "見出し1" + "</h1>\n") + ("<h2>" + "見出し2" + "</h2>\n") + ("<p>" + "段落1" + "</p>\n")
               + (("<h3>" + "見出し3" + "</h3>\n") + ("<p>" + "段落2" + "</p>\n")
                  + ("<pre><code>" + "console.log('Hello, world!');\n" + "</code></pre>\n"))
               + (("<ul>\n<li>" + "リスト1" + "</li>\n<li>" + "リスト2" + "\n\t<ul>\n\t<li>" + "リスト2-1" + "</li>\n\t<li>" + "リスト2-2"
                   + "\n\t\t<ul>\n\t\t<li>" + "リスト2-2-1" + "</li>\n\t\t</ul>\n\t</li>\n\t<li>" + "リスト2-3"
                   + "</li>\n\t</ul>\n</li>\n<li>" + "リスト3" + "</li>\n</ul>\n")
                  + ("<pre><code>" + "console.log('Hello, world!');\n" + "</code></pre>\n") + ("<p>" + "段落3" + "</p>\n"))
  {
    var code := "console.log('Hello, world!');\n";
    var head := [H1("見出し1"), H2("見出し2"), P([Text("段落1")])];
    var middle := [H3("見出し3"), P([Text("段落2")]), Pre(code)];
    var tail := [Li(MixedItems()), Pre(code), P([Text("段落3")])];
    DocumentHead();
    DocumentMiddle();
    DocumentTail();
    NineBlocks(head, middle, tail, Render(head), Render(middle), Render(tail));
  }

  // ---------------------------------------------------------------------
  // The single-block documents of the renderer's tests

  /** One span alone renders as that span. */
  lemma {:induction false} OneSpan(c: Content)
    ensures Flatten(InlinesMarkup([c])) == Flatten(InlineMarkup(c))
  {
    assert [c][..0] == [];
    assert InlinesMarkup([c]) == [] + InlineMarkup(c);
    assert [] + InlineMarkup(c) == InlineMarkup(c);
  }

  /** A text, an italic, a code and a bold span, in that order. */
  lemma {:induction false} FourSpans(a: string, b: string, c: string, d: string)
    ensures Flatten(InlinesMarkup([Text(a), Italic(b), Code(c), Bold(d)]))
            == a + ("<i>" + b + "</i>") + ("<code>" + c + "</code>") + ("<b>" + d + "</b>")
  {
    var cs := [Text(a), Italic(b), Code(c), Bold(d)];
    assert cs[..3] + [Bold(d)] == cs;
    assert cs[..2] + [Code(c)] == cs[..3];
    assert [Text(a)] + [Italic(b)] == cs[..2];
    SpansHtml(cs[..3], Bold(d));
    SpansHtml(cs[..2], Code(c));
    SpansHtml([Text(a)], Italic(b));
    TextSpans(a);
    SpanHtml(Italic(b));
    SpanHtml(Code(c));
    SpanHtml(Bold(d));
  }

  /** A paragraph of given spans. */
  lemma {:induction false} SpansParagraph(cs: seq<Content>, f: string)
    requires Flatten(InlinesMarkup(cs)) == f
    ensures Render([P(cs)]) == "<p>" + f + "</p>\n"
  {
    SingleBlock(P(cs));
    ParagraphHtml(cs);
    StringAssoc("<p>" + f, "</p>", "\n");
  }

  /** The three heading tests. */
  lemma {:induction false} SampleHeadings()
    ensures Render([H1("見出し1")]) == "<h1>" + "見出し1" + "</h1>\n"
    ensures Render([H2("見出し2")]) == "<h2>" + "見出し2" + "</h2>\n"
    ensures Render([H3("見出し3")]) == "<h3>" + "見出し3" + "</h3>\n"
  {
    SingleBlock(H1("見出し1"));
    SingleBlock(H2("見出し2"));
    SingleBlock(H3("見出し3"));
    HeadingBlockHtml(H1("見出し1"));
    HeadingBlockHtml(H2("見出し2"));
    HeadingBlockHtml(H3("見出し3"));
  }

  /** The plain, italic and bold paragraph tests. */
  lemma {:induction false} SampleSimpleParagraphs()
    ensures Render([P([Text("段落")])]) == "<p>" + "段落" + "</p>\n"
    ensures Render([P([Italic("イタリック")])]) == "<p>" + ("<i>" + "イタリック" + "</i>") + "</p>\n"
    ensures Render([P([Bold("ボールド")])]) == "<p>" + ("<b>" + "ボールド" + "</b>") + "</p>\n"
  {
    TextSpans("段落");
    SpansParagraph([Text("段落")], "段落");
    OneSpan(Italic("イタリック"));
    SpanHtml(Italic("イタリック"));
    SpansParagraph([Italic("イタリック")], "<i>" + "イタリック" + "</i>");
    OneSpan(Bold("ボールド"));
    SpanHtml(Bold("ボールド"));
    SpansParagraph([Bold("ボールド")], "<b>" + "ボールド" + "</b>");
  }

  /** The paragraph tests with several spans. */
  lemma {:induction false} SampleMixedParagraphs()
    ensures Render([P([Italic("イタリック"), Bold("ボールド")])])
            == "<p>" + (("<i>" + "イタリック" + "</i>") + ("<b>" + "ボールド" + "</b>")) + "</p>\n"
    ensures Render([P([Text("テキスト"), Italic("イタリック"), Code("コード"), Bold("ボールド")])])
            == "<p>" + ("テキスト" + ("<i>" + "イタリック" + "</i>") + ("<code>" + "コード" + "</code>") + ("<b>" + "ボールド" + "</b>")) + "</p>\n"
  {
    var two := [Italic("イタリック"), Bold("ボールド")];
    assert [Italic("イタリック")] + [Bold("ボールド")] == two;
    SpansHtml([Italic("イタリック")], Bold("ボールド"));
    OneSpan(Italic("イタリック"));
    SpanHtml(Italic("イタリック"));
    SpanHtml(Bold("ボールド"));
    SpansParagraph(two, ("<i>" + "イタリック" + "</i>") + ("<b>" + "ボールド" + "</b>"));
    FourSpans("テキスト", "イタリック", "コード", "ボールド");
    SpansParagraph([Text("テキスト"), Italic("イタリック"), Code("コード"), Bold("ボールド")], "テキスト" + ("<i>" + "イタリック" + "</i>") + ("<code>" + "コード" + "</code>") + ("<b>" + "ボールド" + "</b>"));
  }

  /** The two code block tests: the code is copied verbatim, line feeds included. */
  lemma {:induction false} SampleCodeBlocks()
    ensures Render([Pre("console.log('Hello, world!');\n")])
            == "<pre><code>" + "console.log('Hello, world!');\n" + "</code></pre>\n"
    ensures Render([Pre("const a = 1;\nconst b = 2;\nadd(a, b);\n")])
            == "<pre><code>" + "const a = 1;\nconst b = 2;\nadd(a, b);\n" + "</code></pre>\n"
  {
    var c1, c2 := "console.log('Hello, world!');\n", "const a = 1;\nconst b = 2;\nadd(a, b);\n";
    SingleBlock(Pre(c1));
    SingleBlock(Pre(c2));
    PreHtml(c1);
    PreHtml(c2);
  }

  /** A list of one item at indent 0 holding any spans. */
  lemma {:induction false} SingleItemOf(k: ListType, cs: seq<Content>, f: string)
    requires Flatten(InlinesMarkup(cs)) == f
    ensures ListRenderable([ListItem(k, 0, cs)])
    ensures Render([Li([ListItem(k, 0, cs)])]) == "<" + ListTag(k) + ">\n<li>" + f + ("</li>\n" + "</" + ListTag(k) + ">\n")
  {
    var items := [ListItem(k, 0, cs)];
    SingleBlock(Li(items));
    var w := Walk(items, 1);
    assert w.0 == [Level(0, k)];
    CloseOneAll(Level(0, k));
    FirstItemHtml(items);
    CloseOuterLevel(k);
    FlattenAppend(w.1, CloseLevel(Level(0, k)));
  }

  /** The ordered one-item list test, and the one-item lists holding every kind of span. */
  lemma {:induction false} SampleRichItems()
    ensures Render([Li([ListItem(Ol, 0, [Text("リスト")])])]) == "<ol>\n<li>" + "リスト" + "</li>\n</ol>\n"
    ensures Render([Li([ListItem(Ul, 0, [Text("テキスト"), Italic("イタリック"), Code("コード"), Bold("ボールド")])])])
            == "<ul>\n<li>" + ("テキスト" + ("<i>" + "イタリック" + "</i>") + ("<code>" + "コード" + "</code>") + ("<b>" + "ボールド" + "</b>")) + "</li>\n</ul>\n"
    ensures Render([Li([ListItem(Ol, 0, [Text("テキスト"), Italic("イタリック"), Code("コード"), Bold("ボールド")])])])
            == "<ol>\n<li>" + ("テキスト" + ("<i>" + "イタリック" + "</i>") + ("<code>" + "コード" + "</code>") + ("<b>" + "ボールド" + "</b>")) + "</li>\n</ol>\n"
  {
    var rich := "テキスト" + ("<i>" + "イタリック" + "</i>") + ("<code>" + "コード" + "</code>") + ("<b>" + "ボールド" + "</b>");
    TextSpans("リスト");
    SingleItemOf(Ol, [Text("リスト")], "リスト");
    FourSpans("テキスト", "イタリック", "コード", "ボールド");
    SingleItemOf(Ul, [Text("テキスト"), Italic("イタリック"), Code("コード"), Bold("ボールド")], rich);
    SingleItemOf(Ol, [Text("テキスト"), Italic("イタリック"), Code("コード"), Bold("ボールド")], rich);
    OneItemTags();
  }

  lemma {:induction false} OneItemTags()
    ensures "<" + ListTag(Ul) + ">\n<li>" == "<ul>\n<li>" && "</li>\n" + "</" + ListTag(Ul) + ">\n" == "</li>\n</ul>\n"
    ensures "<" + ListTag(Ol) + ">\n<li>" == "<ol>\n<li>" && "</li>\n" + "</" + ListTag(Ol) + ">\n" == "</li>\n</ol>\n"
  {
    assert ListTag(Ul) == "ul" && ListTag(Ol) == "ol";
  }

  /** The test with an item holding every kind of span and a nested copy of it at indent 2. */
  lemma {:induction false} SampleRichNested()
    ensures var cs := [Text("テキスト"), Italic("イタリック"), Code("コード"), Bold("ボールド")];
            var items := [ListItem(Ul, 0, cs), ListItem(Ul, 2, cs)];
            ListRenderable(items) &&
            Render([Li(items)])
            == "<ul>\n<li>" + ("テキスト" + ("<i>" + "イタリック" + "</i>") + ("<code>" + "コード" + "</code>") + ("<b>" + "ボールド" + "</b>"))
               + "\n\t\t<ul>\n\t\t<li>" + ("テキスト" + ("<i>" + "イタリック" + "</i>") + ("<code>" + "コード" + "</code>") + ("<b>" + "ボールド" + "</b>"))
               + "</li>\n\t\t</ul>\n</li>\n</ul>\n"
  {
    var cs := [Text("テキスト"), Italic("イタリック"), Code("コード"), Bold("ボールド")];
    var items := [ListItem(Ul, 0, cs), ListItem(Ul, 2, cs)];
    var rich := "テキスト" + ("<i>" + "イタリック" + "</i>") + ("<code>" + "コード" + "</code>") + ("<b>" + "ボールド" + "</b>");
    FourSpans("テキスト", "イタリック", "コード", "ボールド");
    NestedOf(items, rich, rich);
    SingleBlock(Li(items));
  }

  /** An item at indent 0 and a deeper one at indent 2, both of kind `Ul`, holding any spans. */
  lemma {:induction false} NestedOf(items: seq<ListItem>, f: string, h: string)
    requires |items| == 2 && items[0].indent == 0 && items[1].indent == 2
    requires items[0].listType == Ul && items[1].listType == Ul
    requires Flatten(InlinesMarkup(items[0].contents)) == f && Flatten(InlinesMarkup(items[1].contents)) == h
    ensures ListRenderable(items)
    ensures Flatten(ListMarkup(items)) == "<ul>\n<li>" + f + "\n\t\t<ul>\n\t\t<li>" + h + "</li>\n\t\t</ul>\n</li>\n</ul>\n"
  {
    NestedListMarkup(items);
    var a, b := Walk(items, 1).1, [Raw("\n" + Tabs(2)), Open(ListTag(Ul)), Raw("\n")];
    var c, d := ItemMarkup(items[1]), CloseLevel(Level(2, Ul)) + CloseLevel(Level(0, Ul));
    assert LevelOf(items[0]) == Level(0, Ul) && LevelOf(items[1]) == Level(2, Ul);
    FirstItemHtml(items);
    NestHtml(2, ListTag(Ul));
    ItemHtml(items[1]);
    CloseNestedLevels(Ul, Ul, 2);
    FlattenFourParts(a, b, c, d);
    NestedOfTags();
    var o, n, t := "<ul>\n<li>", "\n\t\t<ul>\n", "\t\t<li>";
    var e := "</li>\n\t\t</ul>\n</li>\n</ul>\n";
    // o + f + n + (t + h) + e  ==  o + f + (n + t) + h + e
    StringAssoc(o + f + n, t, h);
    StringAssoc(o + f, n, t);
  }

  lemma {:induction false} NestedOfTags()
    ensures "<" + ListTag(Ul) + ">\n<li>" == "<ul>\n<li>"
    ensures "\n" + Tabs(2) + "<" + ListTag(Ul) + ">\n" == "\n\t\t<ul>\n"
    ensures Tabs(2) + "<li>" == "\t\t<li>"
    ensures ("</li>\n" + Tabs(2) + "</" + ListTag(Ul) + ">\n") + ("</li>\n" + "</" + ListTag(Ul) + ">\n")
            == "</li>\n\t\t</ul>\n</li>\n</ul>\n"
    ensures "\n\t\t<ul>\n" + "\t\t<li>" == "\n\t\t<ul>\n\t\t<li>"
  {
    assert Tabs(2) == "\t\t" && ListTag(Ul) == "ul";
  }
}
