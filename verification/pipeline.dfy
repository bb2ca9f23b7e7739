/**
 * The program's conversion step, `parse(tokenize(markdown))`: the blocks
 * the tokenizer produces are always ones the renderer accepts, so the chain
 * never panics, and its HTML is the well-nested rendering of the scanned
 * blocks.
 */
module Pipeline {
  import opened Tags
  import opened Html
  import opened Tokenizer
  import opened Renderer
  import RenderProofs

  /** Headings and one-span paragraphs are among the blocks `parse` renders. */
  lemma {:induction false} LexedRenderable(bs: seq<RootTag>)
    requires forall i :: 0 <= i < |bs| ==> Lexed(bs[i])
    ensures AllRenderable(bs)
  {
    forall i | 0 <= i < |bs|
      ensures Renderable(bs[i])
    {
      assert Lexed(bs[i]);
    }
  }

  /** Every scan of a markdown text is renderable. */
  lemma LexRenderable(markdown: string)
    ensures AllRenderable(Lex(markdown))
  {
    LexedBlocks(markdown, 0);
    LexedRenderable(Lex(markdown));
  }

  /** `parse(tokenize(markdown))`. */
  method Convert(markdown: string) returns (html: string)
    ensures AllRenderable(Lex(markdown))
    ensures html == Render(Lex(markdown))
    ensures WellNested(DocMarkup(Lex(markdown)))
  {
    var blocks := Tokenize(markdown);
    LexRenderable(markdown);
    html := Parse(blocks);
    RenderProofs.DocNested(blocks);
  }

  /**
   * A text whose first line is a level-one heading renders with that
   * heading's element as its first line.
   */
  lemma {:induction false} HeadingFirstLine(title: string, rest: string)
    requires LineText(title)
    requires rest == [] || rest[0] == '\n'
    ensures AllRenderable(Lex("# " + title + rest)) && AllRenderable(Lex(rest))
    ensures Render(Lex("# " + title + rest)) == "<h1>" + title + "</h1>" + "\n" + Render(Lex(rest))
  {
    HeadingThenRest(1, title, rest);
    assert HeadingMark(1) == "# ";
    LexRenderable(rest);
    LexRenderable("# " + title + rest);
    assert Renderable(H1(title));
    RenderAppend([H1(title)], Lex(rest));
    assert Render([H1(title)]) == Flatten(BlockMarkup(H1(title))) by {
      assert [H1(title)][..0] == [];
      assert DocMarkup([H1(title)]) == DocMarkup([]) + BlockMarkup(H1(title));
      assert [] + BlockMarkup(H1(title)) == BlockMarkup(H1(title));
    }
    HeadingHtml(H1(title));
  }
}
