/**
 * Properties of what `parse` emits: the markup is well nested (every
 * `<ul>`, `<ol>`, `<li>`, `<p>`, ... is closed by its own end tag, innermost
 * first), every list item becomes exactly one `<li>`, and a list whose
 * items share one indent is one flat container.
 */
module RenderProofs {
  import opened Tags
  import opened Html
  import opened Renderer

  /** The tag names open while the stack `st` is live: each level's container, then its `<li>`. */
  function OpenTags(st: seq<Level>): seq<string>
  {
    if st == [] then [] else OpenTags(st[..|st| - 1]) + [ListTag(st[|st| - 1].listType), "li"]
  }

  /** The same without the top level's `<li>`: what is open between two items. */
  function Outer(st: seq<Level>): seq<string>
    requires st != []
  {
    OpenTags(st[..|st| - 1]) + [ListTag(st[|st| - 1].listType)]
  }

  lemma SeqAssoc(a: seq<string>, b: seq<string>, c: seq<string>)
    ensures (a + b) + c == a + (b + c)
  {
  }

  /** A span's markup is balanced on its own. */
  lemma InlineNested(c: Content, open: seq<string>)
    ensures Match(InlineMarkup(c), open) == Some(open)
  {
    MatchOne(Raw(c.text), open);
    if !c.Text? {
      var tag := if c.Code? then "code" else if c.Bold? then "b" else "i";
      MatchOne(Raw(c.text), open + [tag]);
      ElementNested(tag, [Raw(c.text)], open);
    }
  }

  lemma {:induction false} InlinesNested(cs: seq<Content>, open: seq<string>)
    ensures Match(InlinesMarkup(cs), open) == Some(open)
  {
    if cs != [] {
      InlinesNested(cs[..|cs| - 1], open);
      MatchAppend(InlinesMarkup(cs[..|cs| - 1]), InlineMarkup(cs[|cs| - 1]), open);
      InlineNested(cs[|cs| - 1], open);
    }
  }

  /** Moving to a sibling: closes the top `<li>`. */
  lemma SiblingNested(below: seq<string>)
    ensures Match([Close("li"), Raw("\n")], below + ["li"]) == Some(below)
  {
    MatchAppend([Close("li")], [Raw("\n")], below + ["li"]);
    MatchOne(Close("li"), below);
    MatchOne(Raw("\n"), below);
  }

  /** Moving deeper: opens one container. */
  lemma NestNested(n: nat, t: string, here: seq<string>)
    ensures Match([Raw("\n" + Tabs(n)), Open(t), Raw("\n")], here) == Some(here + [t])
  {
    assert [Raw("\n" + Tabs(n)), Open(t), Raw("\n")] == [Raw("\n" + Tabs(n))] + [Open(t)] + [Raw("\n")];
    MatchAppend([Raw("\n" + Tabs(n))] + [Open(t)], [Raw("\n")], here);
    MatchAppend([Raw("\n" + Tabs(n))], [Open(t)], here);
    MatchOne(Raw("\n" + Tabs(n)), here);
    MatchOne(Open(t), here);
    MatchOne(Raw("\n"), here + [t]);
  }

  /** Popping a level: closes its `<li>` and then its container. */
  lemma PopNested(top: Level, lower: Level, base: seq<string>)
    ensures Match(PopMarkup(top, lower), base + [ListTag(top.listType), "li"]) == Some(base)
  {
    var t := ListTag(top.listType);
    var a, b, c, d := Close("li"), Raw("\n" + Tabs(top.indent)), Close(t), Raw("\n" + Tabs(lower.indent));
    assert PopMarkup(top, lower) == [a] + [b] + [c] + [d];
    assert base + [t, "li"] == (base + [t]) + ["li"];
    MatchOne(a, base + [t]);
    MatchOne(b, base + [t]);
    MatchOne(c, base);
    MatchOne(d, base);
    MatchAppend([a] + [b] + [c], [d], base + [t, "li"]);
    MatchAppend([a] + [b], [c], base + [t, "li"]);
    MatchAppend([a], [b], base + [t, "li"]);
  }

  /**
   * The inner loop's markup, read with the stack's tags open, closes the top
   * `<li>` and every popped level and leaves open exactly the new stack's
   * tags minus its top `<li>`.
   */
  lemma {:induction false} UnwindNested(st: seq<Level>, li: ListItem, open: seq<string>)
    requires st != [] && Increasing(st) && st[0].indent <= li.indent
    ensures Match(Unwind(st, li).1, open + OpenTags(st)) == Some(open + Outer(Unwind(st, li).0))
    decreases |st|
  {
    var top := st[|st| - 1];
    var rest := st[..|st| - 1];
    var base := open + OpenTags(rest);
    assert open + OpenTags(st) == base + [ListTag(top.listType), "li"];
    if top.indent == li.indent {
      UnwindStop(st, li);
      SiblingNested(base + [ListTag(top.listType)]);
      assert base + [ListTag(top.listType), "li"] == base + [ListTag(top.listType)] + ["li"];
      assert Unwind(st, li).0 == st;
      SeqAssoc(open, OpenTags(rest), [ListTag(top.listType)]);
    } else if top.indent < li.indent {
      UnwindStop(st, li);
      var t := ListTag(li.listType);
      NestNested(li.indent, t, open + OpenTags(st));
      assert (st + [LevelOf(li)])[..|st|] == st;
      assert Outer(st + [LevelOf(li)]) == OpenTags(st) + [t];
      SeqAssoc(open, OpenTags(st), [t]);
      assert Unwind(st, li).0 == st + [LevelOf(li)];
    } else {
      UnwindPop(st, li);
      var pop := PopMarkup(top, rest[|rest| - 1]);
      PopNested(top, rest[|rest| - 1], base);
      MatchAppend(pop, Unwind(rest, li).1, open + OpenTags(st));
      UnwindNested(rest, li, open);
    }
  }

  /** After the first `j` items exactly the stack's containers and `<li>`s are open. */
  lemma WalkNested(items: seq<ListItem>, j: nat, open: seq<string>)
    requires ListRenderable(items) && 1 <= j <= |items|
    ensures Match(Walk(items, j).1, open) == Some(open + OpenTags(Walk(items, j).0))
  {
    FirstItemNested(items, open);
    for k := 1 to j
      invariant Match(Walk(items, k).1, open) == Some(open + OpenTags(Walk(items, k).0))
    {
      NextItemNested(items, k, open);
    }
  }

  /** One more item keeps the markup matched, with the new stack's tags open. */
  lemma NextItemNested(items: seq<ListItem>, j: nat, open: seq<string>)
    requires ListRenderable(items) && 1 <= j < |items|
    requires Match(Walk(items, j).1, open) == Some(open + OpenTags(Walk(items, j).0))
    ensures Match(Walk(items, j + 1).1, open) == Some(open + OpenTags(Walk(items, j + 1).0))
  {
    var prev := Walk(items, j);
    var li := items[j];
    var step := Unwind(prev.0, li);
    UnwindNested(prev.0, li, open);
    var mid := open + Outer(step.0);
    ItemNested(li, mid);
    OpenTagsOuter(step.0);
    SeqAssoc(open, Outer(step.0), ["li"]);
    MatchChain(prev.1, step.1, ItemMarkup(li), open, open + OpenTags(prev.0), mid, open + OpenTags(step.0));
    WalkStep(items, j);
  }

  lemma OpenTagsOuter(st: seq<Level>)
    requires st != []
    ensures OpenTags(st) == Outer(st) + ["li"]
  {
    var t := ListTag(st[|st| - 1].listType);
    assert OpenTags(st[..|st| - 1]) + [t, "li"] == OpenTags(st[..|st| - 1]) + [t] + ["li"];
  }

  lemma FirstItemNested(items: seq<ListItem>, open: seq<string>)
    requires ListRenderable(items)
    ensures Match(Walk(items, 1).1, open) == Some(open + OpenTags(Walk(items, 1).0))
  {
    var t := ListTag(items[0].listType);
    var head := [Open(t), Raw("\n"), Open("li")];
    assert head == [Open(t)] + [Raw("\n")] + [Open("li")];
    MatchOne(Open(t), open);
    MatchOne(Raw("\n"), open + [t]);
    MatchOne(Open("li"), open + [t]);
    MatchAppend([Open(t)] + [Raw("\n")], [Open("li")], open);
    MatchAppend([Open(t)], [Raw("\n")], open);
    InlinesNested(items[0].contents, open + [t] + ["li"]);
    MatchAppend(head, InlinesMarkup(items[0].contents), open);
    assert OpenTags([LevelOf(items[0])]) == [t, "li"];
    assert open + [t] + ["li"] == open + [t, "li"];
  }

  /** An item's own markup opens its `<li>` and nothing else stays open. */
  lemma ItemNested(li: ListItem, open: seq<string>)
    ensures Match(ItemMarkup(li), open) == Some(open + ["li"])
  {
    MatchOne(Raw(Tabs(li.indent)), open);
    MatchOne(Open("li"), open);
    MatchAppend([Raw(Tabs(li.indent))], [Open("li")], open);
    InlinesNested(li.contents, open + ["li"]);
    MatchAppend([Raw(Tabs(li.indent)), Open("li")], InlinesMarkup(li.contents), open);
  }

  /** The final loop closes everything the stack holds open. */
  lemma {:induction false} CloseAllNested(st: seq<Level>, open: seq<string>)
    ensures Match(CloseAll(st), open + OpenTags(st)) == Some(open)
  {
    if st == [] {
      assert open + [] == open;
    } else {
      var top := st[|st| - 1];
      var rest := st[..|st| - 1];
      var t := ListTag(top.listType);
      var base := open + OpenTags(rest);
      assert open + OpenTags(st) == base + [t, "li"];
      var a, b, c, d := Close("li"), Raw("\n" + Tabs(top.indent)), Close(t), Raw("\n");
      assert CloseLevel(top) == [a] + [b] + [c] + [d];
      MatchOne(a, base + [t]);
      MatchOne(b, base + [t]);
      MatchOne(c, base);
      MatchOne(d, base);
      assert base + [t, "li"] == (base + [t]) + ["li"];
      MatchAppend([a] + [b] + [c], [d], base + [t, "li"]);
      MatchAppend([a] + [b], [c], base + [t, "li"]);
      MatchAppend([a], [b], base + [t, "li"]);
      MatchAppend(CloseLevel(top), CloseAll(rest), base + [t, "li"]);
      CloseAllNested(rest, open);
    }
  }

  /** A rendered list closes every container and `<li>` it opens. */
  lemma ListNested(items: seq<ListItem>, open: seq<string>)
    requires ListRenderable(items)
    ensures Match(ListMarkup(items), open) == Some(open)
  {
    var w := Walk(items, |items|);
    WalkNested(items, |items|, open);
    CloseAllNested(w.0, open);
    MatchAppend(w.1, CloseAll(w.0), open);
  }

  lemma BlockNested(b: RootTag, open: seq<string>)
    requires Renderable(b)
    ensures Match(BlockMarkup(b), open) == Some(open)
  {
    MatchOne(Raw("\n"), open);
    match b
    case H1(t) => TextElementNested("h1", t, open);
    case H2(t) => TextElementNested("h2", t, open);
    case H3(t) => TextElementNested("h3", t, open);
    case P(cs) =>
      InlinesNested(cs, open + ["p"]);
      ElementNested("p", InlinesMarkup(cs), open);
      MatchAppend(Element("p", InlinesMarkup(cs)), [Raw("\n")], open);
    case Li(items) => ListNested(items, open);
    case Pre(code) =>
      MatchOne(Raw(code), open + ["pre", "code"]);
      assert open + ["pre"] + ["code"] == open + ["pre", "code"];
      ElementNested("code", [Raw(code)], open + ["pre"]);
      ElementNested("pre", Element("code", [Raw(code)]), open);
      MatchAppend(Element("pre", Element("code", [Raw(code)])), [Raw("\n")], open);
  }

  lemma TextElementNested(tag: string, t: string, open: seq<string>)
    ensures Match(Element(tag, [Raw(t)]) + [Raw("\n")], open) == Some(open)
  {
    MatchOne(Raw(t), open + [tag]);
    MatchOne(Raw("\n"), open);
    ElementNested(tag, [Raw(t)], open);
    MatchAppend(Element(tag, [Raw(t)]), [Raw("\n")], open);
  }

  /** A whole rendered document is well nested. */
  lemma {:induction false} DocNested(bs: seq<RootTag>)
    requires AllRenderable(bs)
    ensures WellNested(DocMarkup(bs))
  {
    if bs != [] {
      var init := bs[..|bs| - 1];
      DocNested(init);
      BlockNested(bs[|bs| - 1], []);
      MatchAppend(DocMarkup(init), BlockMarkup(bs[|bs| - 1]), []);
    }
  }

  /** Hence every tag name is opened exactly as often as it is closed. */
  lemma RenderBalanced(bs: seq<RootTag>, t: string)
    requires AllRenderable(bs)
    ensures CountOpen(DocMarkup(bs), t) == CountClose(DocMarkup(bs), t)
  {
    DocNested(bs);
    WellNestedBalanced(DocMarkup(bs), t);
  }

  // ---------------------------------------------------------------------
  // Counting tags

  /** Spans open only `code`, `b` and `i`. */
  lemma {:induction false} InlinesOpenNone(cs: seq<Content>, t: string)
    requires t != "code" && t != "b" && t != "i"
    ensures CountOpen(InlinesMarkup(cs), t) == 0
  {
    if cs != [] {
      var c := cs[|cs| - 1];
      InlinesOpenNone(cs[..|cs| - 1], t);
      CountAppend(InlinesMarkup(cs[..|cs| - 1]), InlineMarkup(c), t);
      CountOpenNone(InlineMarkup(c), t);
    }
  }

  /** The inner loop never opens an `<li>`. */
  lemma {:induction false} UnwindOpensNoItem(st: seq<Level>, li: ListItem)
    requires st != [] && Increasing(st) && st[0].indent <= li.indent
    ensures CountOpen(Unwind(st, li).1, "li") == 0
    decreases |st|
  {
    var top := st[|st| - 1];
    if top.indent > li.indent {
      var rest := st[..|st| - 1];
      UnwindPop(st, li);
      UnwindOpensNoItem(rest, li);
      CountOpenNone(PopMarkup(top, rest[|rest| - 1]), "li");
      CountAppend(PopMarkup(top, rest[|rest| - 1]), Unwind(rest, li).1, "li");
    } else {
      UnwindStop(st, li);
      CountOpenNone(Unwind(st, li).1, "li");
    }
  }

  lemma {:induction false} CloseAllOpensNothing(st: seq<Level>, t: string)
    ensures CountOpen(CloseAll(st), t) == 0
  {
    if st != [] {
      CloseAllOpensNothing(st[..|st| - 1], t);
      CountOpenNone(CloseLevel(st[|st| - 1]), t);
      CountAppend(CloseLevel(st[|st| - 1]), CloseAll(st[..|st| - 1]), t);
    }
  }

  /** After `j` items, exactly `j` `<li>` have been opened. */
  lemma WalkItemCount(items: seq<ListItem>, j: nat)
    requires ListRenderable(items) && 1 <= j <= |items|
    ensures CountOpen(Walk(items, j).1, "li") == j
  {
    FirstItemCount(items);
    for k := 1 to j
      invariant CountOpen(Walk(items, k).1, "li") == k
    {
      NextItemCount(items, k);
    }
  }

  lemma NextItemCount(items: seq<ListItem>, j: nat)
    requires ListRenderable(items) && 1 <= j < |items|
    requires CountOpen(Walk(items, j).1, "li") == j
    ensures CountOpen(Walk(items, j + 1).1, "li") == j + 1
  {
    var li := items[j];
    var prev := Walk(items, j);
    var step := Unwind(prev.0, li);
    WalkStep(items, j);
    UnwindOpensNoItem(prev.0, li);
    ItemCount(li);
    CountThree(prev.1, step.1, ItemMarkup(li), "li");
  }

  lemma FirstItemCount(items: seq<ListItem>)
    requires ListRenderable(items)
    ensures CountOpen(Walk(items, 1).1, "li") == 1
  {
    var head := [Open(ListTag(items[0].listType)), Raw("\n")];
    CountOpenNone(head, "li");
    OpenItemCount(items[0].contents);
    assert Walk(items, 1).1 == head + ([Open("li")] + InlinesMarkup(items[0].contents));
    CountAppend(head, [Open("li")] + InlinesMarkup(items[0].contents), "li");
  }

  lemma ItemCount(li: ListItem)
    ensures CountOpen(ItemMarkup(li), "li") == 1
  {
    OpenItemCount(li.contents);
    CountOne(Raw(Tabs(li.indent)), "li");
    assert ItemMarkup(li) == [Raw(Tabs(li.indent))] + ([Open("li")] + InlinesMarkup(li.contents));
    CountAppend([Raw(Tabs(li.indent))], [Open("li")] + InlinesMarkup(li.contents), "li");
  }

  lemma CountThree(a: seq<Markup>, b: seq<Markup>, c: seq<Markup>, t: string)
    ensures var whole := a + b + c; CountOpen(whole, t) == CountOpen(a, t) + CountOpen(b, t) + CountOpen(c, t)
  {
    CountAppend(a + b, c, t);
    CountAppend(a, b, t);
  }

  lemma OpenItemCount(cs: seq<Content>)
    ensures CountOpen([Open("li")] + InlinesMarkup(cs), "li") == 1
  {
    InlinesOpenNone(cs, "li");
    CountOne(Open("li"), "li");
    CountAppend([Open("li")], InlinesMarkup(cs), "li");
  }

  /** Every list item becomes exactly one `<li>` element. */
  lemma ListItemCount(items: seq<ListItem>)
    requires ListRenderable(items)
    ensures CountOpen(ListMarkup(items), "li") == |items|
    ensures CountClose(ListMarkup(items), "li") == |items|
  {
    var w := Walk(items, |items|);
    WalkItemCount(items, |items|);
    CloseAllOpensNothing(w.0, "li");
    CountAppend(w.1, CloseAll(w.0), "li");
    ListNested(items, []);
    WellNestedBalanced(ListMarkup(items), "li");
  }

  // ---------------------------------------------------------------------
  // Lists without nesting

  predicate Flat(items: seq<ListItem>)
  {
    forall i :: 0 <= i < |items| ==> items[i].indent == items[0].indent
  }

  /** An item's own markup opens no container. */
  lemma ItemOpensNoContainer(li: ListItem, t: string)
    requires t == "ul" || t == "ol"
    ensures CountOpen(ItemMarkup(li), t) == 0
  {
    CountOpenNone([Raw(Tabs(li.indent)), Open("li")], t);
    InlinesOpenNone(li.contents, t);
    CountAppend([Raw(Tabs(li.indent)), Open("li")], InlinesMarkup(li.contents), t);
  }

  lemma FlatWalk(items: seq<ListItem>, j: nat, t: string)
    requires ListRenderable(items) && Flat(items) && 1 <= j <= |items|
    requires t == "ul" || t == "ol"
    ensures Walk(items, j).0 == [LevelOf(items[0])]
    ensures CountOpen(Walk(items, j).1, t) == if t == ListTag(items[0].listType) then 1 else 0
  {
    FirstContainerCount(items, t);
    for k := 1 to j
      invariant Walk(items, k).0 == [LevelOf(items[0])]
      invariant CountOpen(Walk(items, k).1, t) == if t == ListTag(items[0].listType) then 1 else 0
    {
      FlatStep(items, k, t);
    }
  }

  lemma FirstContainerCount(items: seq<ListItem>, t: string)
    requires ListRenderable(items)
    requires t == "ul" || t == "ol"
    ensures CountOpen(Walk(items, 1).1, t) == if t == ListTag(items[0].listType) then 1 else 0
  {
    var head := [Open(ListTag(items[0].listType))];
    CountOne(Open(ListTag(items[0].listType)), t);
    InlinesOpenNone(items[0].contents, t);
    CountOpenNone([Raw("\n"), Open("li")], t);
    CountAppend([Raw("\n"), Open("li")], InlinesMarkup(items[0].contents), t);
    assert Walk(items, 1).1 == head + ([Raw("\n"), Open("li")] + InlinesMarkup(items[0].contents));
    CountAppend(head, [Raw("\n"), Open("li")] + InlinesMarkup(items[0].contents), t);
  }

  lemma FlatStep(items: seq<ListItem>, j: nat, t: string)
    requires ListRenderable(items) && Flat(items) && 1 <= j < |items|
    requires t == "ul" || t == "ol"
    requires Walk(items, j).0 == [LevelOf(items[0])]
    ensures Walk(items, j + 1).0 == [LevelOf(items[0])]
    ensures CountOpen(Walk(items, j + 1).1, t) == CountOpen(Walk(items, j).1, t)
  {
    var li := items[j];
    var prev := Walk(items, j);
    WalkStep(items, j);
    UnwindStop(prev.0, li);
    CountOpenNone([Close("li"), Raw("\n")], t);
    ItemOpensNoContainer(li, t);
    CountThree(prev.1, [Close("li"), Raw("\n")], ItemMarkup(li), t);
  }

  /**
   * Items that share one indent stay siblings in a single container of the
   * first item's kind; a later item's own kind is not looked at.
   */
  lemma FlatListOneContainer(items: seq<ListItem>, t: string)
    requires ListRenderable(items) && Flat(items)
    requires t == "ul" || t == "ol"
    ensures CountOpen(ListMarkup(items), t) == if t == ListTag(items[0].listType) then 1 else 0
  {
    var w := Walk(items, |items|);
    FlatWalk(items, |items|, t);
    CloseAllOpensNothing(w.0, t);
    CountAppend(w.1, CloseAll(w.0), t);
  }
}
