# blog-parser: the Markdown-to-HTML pipeline in Dafny

This project models the two stages of blog-parser's conversion step,
`parse(tokenize(markdown))`.

- **Tokenizer** (`tokenize` with its `Lexer` cursor). It scans the input
  character by character. A line starting with `#`, `##` or `###` becomes a
  heading. A line feed at the cursor produces nothing. Any other line becomes
  a paragraph holding one text span.
- **Renderer** (`parse` with its `Parser` buffer). It appends each block's
  HTML to a string buffer. A list block arrives as a flat sequence of
  indent-annotated items. The renderer rebuilds nested `<ul>`/`<ol>`/`<li>`
  markup from it with an explicit stack of open levels.

Both stages are modelled in the source's own imperative form:

- `Tokenizer.Lexer` is a class whose `position` and `output` fields the
  methods update. `Tokenizer.Tokenize` runs its main `while` loop.
- `Renderer.Parser` is a class whose `html` buffer the methods append to.
  `Renderer.Parse` runs the block loop. `Settle` and `CloseRemaining` are the
  list branch's two `while let` loops over a `seq` stack.

Each method is proved against a functional specification:

- `Tokenizer.Lex` specifies the tokenizer.
- `Renderer.Render` specifies the renderer. It is built from markup events
  (`Html.Markup`: raw text, opening tag, closing tag) whose concatenation
  (`Html.Flatten`) is the output string.

The properties are proved about those specifications:

- The emitted markup is well nested, checked against a stack-based tag
  matcher.
- Every list item becomes exactly one `<li>`.
- A list whose items share one indent is a single container.
- The stack stays strictly increasing, and its top always has the last
  item's indent.
- Heading levels are the count of leading `#`, capped at 3.
- No produced text contains a line feed.
- The tokenizer emits at most one block per character.
- Every scanned document can be rendered, so the chain in `Pipeline.Convert`
  never reaches one of the renderer's panics.

Modules:

| file | module | content |
|---|---|---|
| tags.dfy | Tags | node datatypes shared by both stages |
| html.dfy | Html | markup events, `Flatten`, the reference tag matcher `Match`/`WellNested`, tag counts |
| tokenizer.dfy | Tokenizer | `Lex`, the `Lexer` class, `Tokenize`, scanning lemmas and the tokenizer's test documents |
| renderer.dfy | Renderer | `Render`/`ListMarkup`, the `Parser` class, `Parse`, and the characters each piece stands for |
| render_proofs.dfy | RenderProofs | well-nestedness, `<li>` counts, flat lists |
| render_samples.dfy | RenderSamples | concrete documents and their exact output |
| pipeline.dfy | Pipeline | `parse(tokenize(markdown))` |

Behaviour of the code worth knowing:

- **Scope of `lexer.rs`.** It handles only headings, blank lines and plain
  paragraphs: no list items, no inline spans, no code fences, and no indent
  counter. The model does the same.
- **Heading whitespace.** The whitespace skip after a heading marker also
  skips line feeds. So `"#\n\nfoo"` is one level-1 heading with text `foo`,
  as `Tokenizer.EmptyHeadingTakesNextLine` states.
- **Shallower indent with no matching level.** A shallower indent that
  matches no open level is well defined: the deeper levels are popped, then
  the `Less` arm opens a new container at the item's indent
  (`RenderSamples.UnmatchedIndent`). Only an indent below the first item's
  can exhaust the stack and panic. The model makes that a precondition.
- **Sibling list kinds.** Consecutive items at one indent stay siblings in
  the container of the first item at that indent, whatever their own kind
  (`RenderProofs.FlatListOneContainer`).
- **Node types.** The renderer's input types are taken from what
  `parser.rs` matches on: `Contents::{Text,Code,Bold,Italic}`, `ListTypes`,
  and `RootTags::Li(Vec<Li>)` with `list_type`, `indent` and `contents`.
  `lexer.rs` declares different types (`PContent`, `Strong`, `Em`,
  `RootTags::Li(Li)`). Its only produced span, `PContent::Text`, is modelled
  as `Content.Text`, so both stages share `Tags.RootTag`.

## Model

A row whose third column starts with "definition of" names a function that the other contracts are stated in terms of; it models the cited lines directly. A row that starts with "proof step" names a lemma that unfolds one case of a definition for a loop proof.

| member | source | states |
|---|---|---|
| Renderer.Render | src/parser.rs:19-123 | definition of what `parse` returns: the characters of every block's markup, in block order (`Renderer.RenderAppend`, `Renderer.Parse`) |
| Renderer.DocMarkup | src/parser.rs:24-120 | definition of the block loop: the blocks' markup concatenated in order |
| Renderer.BlockMarkup | src/parser.rs:25-118 | definition of the match arms: `push_html` elements for headings and paragraphs, the list reconstruction for `Li`, `<pre><code>` for `Pre` (`Renderer.HeadingHtml`, `Renderer.ParagraphHtml`, `Renderer.PreHtml`) |
| Renderer.ListMarkup | src/parser.rs:45-114 | definition of the list arm: the first item and the item loop (`Walk`), then the final loop over the remaining stack (`CloseAll`) |
| Renderer.CloseAll | src/parser.rs:107-113 | definition of the final loop: close the top level, then the rest of the stack |
| Renderer.CloseLevel | src/parser.rs:107-113 | definition of one iteration of the final loop: `</li>\n`, the level's tabs, its kind's closing tag, `\n` |
| Renderer.PopMarkup | src/parser.rs:84-89 | definition of the `Greater` arm's output: `</li>\n`, the popped tabs and closing tag, `\n`, the tabs of the level below |
| Renderer.ItemMarkup | src/parser.rs:93-105 | definition of an item's own output: its tabs, `<li>` and its spans (`Renderer.ItemHtml`) |
| Renderer.InlineMarkup | src/parser.rs:32-41 | definition of one span's markup: a `Text` span is its text, the others are their text inside `<code>`, `<b>` or `<i>`, unescaped (`Renderer.SpanHtml`) |
| Renderer.InlinesMarkup | src/parser.rs:30-42 | definition of the span loop (and of the folds at lines 54-62 and 96-104): the spans' markup concatenated in order (`Renderer.SpansHtml`) |
| Renderer.ListTag | src/parser.rs:48-51 | definition of a list kind's tag name: `ul` for `Ul`, `ol` for `Ol` |
| Renderer.ListRenderable | src/parser.rs:45-114 | definition of what the list arm needs not to panic: an item at `lists[0]` (line 47), and no item shallower than the first, so the `unwrap` at line 83 finds a level |
| Renderer.Renderable | src/parser.rs:24-119 | definition of the blocks the `_ => panic!()` arm at line 118 does not take, with the list arm's own demands |
| Renderer.Tabs | src/parser.rs:75 | `"\t".repeat(n)` is exactly `n` characters, all tabs |
| Renderer.Unwind | src/parser.rs:66-92 | after the inner loop for an item, the stack is non-empty and strictly increasing, keeps its bottom level, and its top has the item's indent |
| Renderer.ShallowerKeepsAll | src/parser.rs:66-80 | when the top level is not deeper than the item, no level is dropped |
| Renderer.UnwindStop | src/parser.rs:67-80 | proof step unfolding `Unwind`: equal indent: stack unchanged, `</li>\n` emitted; deeper item: the item's own level pushed, `\n` + tabs + the item's container tag + `\n` emitted |
| Renderer.UnwindPop | src/parser.rs:81-90 | top deeper than the item: the top is popped, its `<li>` and container closed with its own kind and the tabs of the level below, and the loop goes on with the rest |
| Renderer.UnwindKeepsShallower | src/parser.rs:66-92 | the stack after an item is exactly the old levels not deeper than it, plus a new level of the item's kind iff none of them has the item's indent |
| Renderer.Walk | src/parser.rs:46-106 | after `j` items the stack is strictly increasing, its bottom is the first item's level and its top has the `j`-th item's indent |
| Renderer.WalkStep | src/parser.rs:65-106 | proof step unfolding `Walk`: one more item appends the inner loop's markup, then tabs, `<li>` and the item's spans |
| Renderer.FirstItemHtml | src/parser.rs:47-63 | the first item emits `<T>\n<li>` and its spans, with `T` the first item's kind |
| Renderer.OpenListHtml | src/parser.rs:48-50 | the opening events of a list spell `<T>\n<li>` |
| Renderer.ItemHtml | src/parser.rs:93-105 | a later item emits its indent in tabs, `<li>` and its spans |
| Renderer.SiblingHtml | src/parser.rs:68-71 | a sibling closes the previous item with `</li>\n` |
| Renderer.NestHtml | src/parser.rs:72-79 | a deeper item opens `\n` + its indent in tabs + its own container tag + `\n` |
| Renderer.PopHtml | src/parser.rs:81-89 | a pop emits `</li>\n`, the popped indent in tabs, the popped kind's closing tag, `\n` and the tabs of the level below |
| Renderer.CloseLevelHtml | src/parser.rs:107-113 | the final loop closes a level with `</li>\n`, its tabs and its kind's closing tag and `\n` |
| Renderer.SpanHtml | src/parser.rs:32-41 | Text renders verbatim; Code, Bold and Italic render inside `<code>`, `<b>`, `<i>`; nothing is escaped |
| Renderer.WrappedHtml | src/parser.rs:35-39 | a wrapped span is its opening tag, its text verbatim and its closing tag |
| Renderer.CodeHtml | src/parser.rs:34-36 | a code span is `<code>` + text + `</code>` |
| Renderer.SpansHtml | src/parser.rs:31-42 | the spans render one after the other, in order |
| Renderer.HeadingHtml | src/parser.rs:26-28 | a heading renders as `<hN>` + its text verbatim + `</hN>` + `\n` |
| Renderer.ParagraphHtml | src/parser.rs:29-44 | a paragraph renders as `<p>` + its spans in order + `</p>` + `\n` |
| Renderer.ParagraphLine | src/parser.rs:43 | pushing the joined spans with `push_html("p", …, true)` gives the paragraph's rendering |
| Renderer.PreHtml | src/parser.rs:115-117 | a code block renders as `<pre><code>` + its text verbatim + `</code></pre>\n` |
| Renderer.ElementLine | src/parser.rs:8-16 | `push_html` with a line break emits `<tag>` + content + `</tag>` + `\n` |
| Renderer.RenderAppend | src/parser.rs:24-120 | the output for `a + b` is the output for `a` followed by the output for `b` |
| Renderer.RenderStep | src/parser.rs:24-120 | each loop iteration appends exactly the current block's rendering |
| Renderer.Parser.constructor | src/parser.rs:20-22 | the buffer starts empty |
| Renderer.Parser.PushHtml | src/parser.rs:8-16 | appends `<tag>content</tag>`, then `\n` when asked, and changes nothing else |
| Renderer.Parser.Settle | src/parser.rs:66-92 | the inner `while let` loop leaves the stack `Unwind` specifies and appends exactly its markup |
| Renderer.Parser.PushList | src/parser.rs:45-114 | a non-empty list none of whose items is shallower than the first appends exactly the list's specified rendering |
| Renderer.Parser.CloseRemaining | src/parser.rs:107-113 | the final loop appends the closing markup of every stacked level, top first |
| Renderer.ParagraphContents | src/parser.rs:30-42 | the joined spans equal the specified rendering of the spans |
| Renderer.Parse | src/parser.rs:19-123 | blocks that are all headings, paragraphs, lists or code blocks, each list non-empty and never shallower than its first item, render to exactly `Render` of the blocks |
| RenderProofs.InlineNested | src/parser.rs:32-41 | a span's markup is balanced on its own |
| RenderProofs.InlinesNested | src/parser.rs:30-42 | a sequence of spans is balanced |
| RenderProofs.SiblingNested | src/parser.rs:68-71 | a sibling closes exactly the open `<li>` |
| RenderProofs.NestNested | src/parser.rs:72-79 | going deeper opens exactly one container |
| RenderProofs.PopNested | src/parser.rs:81-90 | a pop closes the popped `<li>` and then its container, innermost first |
| RenderProofs.UnwindNested | src/parser.rs:66-92 | the inner loop closes the top `<li>` and every popped level, and leaves open exactly the new stack's containers and `<li>`s minus the top `<li>` |
| RenderProofs.WalkNested | src/parser.rs:46-106 | after `j` items exactly the stack's containers and `<li>`s are open, in stack order |
| RenderProofs.NextItemNested | src/parser.rs:65-106 | one more item keeps that correspondence |
| RenderProofs.FirstItemNested | src/parser.rs:47-63 | after the first item, its container and its `<li>` are open |
| RenderProofs.ItemNested | src/parser.rs:93-105 | an item's own markup opens its `<li>` and nothing else stays open |
| RenderProofs.CloseAllNested | src/parser.rs:107-113 | the final loop closes everything the stack holds open |
| RenderProofs.ListNested | src/parser.rs:45-114 | a rendered list is well nested |
| RenderProofs.BlockNested | src/parser.rs:24-119 | every block's markup is well nested |
| RenderProofs.TextElementNested | src/parser.rs:8-16 | a `push_html` element is well nested |
| RenderProofs.DocNested | src/parser.rs:19-123 | the markup of a whole document is well nested |
| RenderProofs.RenderBalanced | src/parser.rs:19-123 | in a rendered document every tag name is opened exactly as often as it is closed |
| RenderProofs.InlinesOpenNone | src/parser.rs:30-42 | spans open no tag other than `code`, `b` and `i` |
| RenderProofs.UnwindOpensNoItem | src/parser.rs:66-92 | the inner loop never opens an `<li>` |
| RenderProofs.CloseAllOpensNothing | src/parser.rs:107-113 | the final loop opens nothing |
| RenderProofs.WalkItemCount | src/parser.rs:65-106 | after `j` items exactly `j` `<li>` have been opened |
| RenderProofs.NextItemCount | src/parser.rs:65-106 | each later item opens exactly one `<li>` |
| RenderProofs.FirstItemCount | src/parser.rs:47-63 | the first item opens exactly one `<li>` |
| RenderProofs.ItemCount | src/parser.rs:93-105 | an item's own markup opens one `<li>` |
| RenderProofs.OpenItemCount | src/parser.rs:48-50 | the opening of the first item holds one `<li>` |
| RenderProofs.ListItemCount | src/parser.rs:45-114 | a list of `n` items opens and closes exactly `n` `<li>` |
| RenderProofs.ItemOpensNoContainer | src/parser.rs:93-105 | an item's own markup opens no `<ul>` or `<ol>` |
| RenderProofs.FlatWalk | src/parser.rs:65-92 | with all items at one indent the stack stays the first item's single level and no further container is opened |
| RenderProofs.FirstContainerCount | src/parser.rs:47-50 | the first item opens exactly one container, of its own kind |
| RenderProofs.FlatStep | src/parser.rs:66-71 | a sibling at the same indent keeps the stack and opens no container |
| RenderProofs.FlatListOneContainer | src/parser.rs:45-114 | items sharing one indent render as one container of the first item's kind, whatever the later items' kinds |
| RenderSamples.SingleBlock | src/parser.rs:24-120 | a one-block document renders as that block |
| RenderSamples.TextSpans | src/parser.rs:33 | a single text span renders as its text |
| RenderSamples.TextThenCode | src/parser.rs:135-141 | a text span then a code span render as `<p>` + text + `<code>` + code + `</code>` + `</p>\n` |
| RenderSamples.SampleParagraph | src/parser.rs:135-141 | the paragraph test vector renders as `<p>テキスト<code>コード</code></p>\n` |
| RenderSamples.SingleItemList | src/parser.rs:188-211 | a one-item list renders as its container, one `<li>` with the item's text, and the closing tags |
| RenderSamples.SampleList | src/parser.rs:188-195 | the one-item `Ul` test vector renders as `<ul>\n<li>リスト</li>\n</ul>\n` |
| RenderSamples.FirstTextItem | src/parser.rs:47-63 | a first item holding one text span emits `<T>\n<li>` + its text |
| RenderSamples.TextItem | src/parser.rs:93-105 | a later item holding one text span emits its tabs, `<li>` and its text |
| RenderSamples.CloseOuterLevel | src/parser.rs:107-113 | closing a level at indent 0 emits no tabs |
| RenderSamples.CloseNestedLevels | src/parser.rs:107-113 | the final loop closes the nested level before the outer one |
| RenderSamples.NestedListMarkup | src/parser.rs:225-255 | an item followed by a deeper one renders as the first item, a nested container opening, the second item, then both levels closed innermost first |
| RenderSamples.NestedList | src/parser.rs:225-255 | the exact characters of such a list, with the nested container's lines indented by the deeper item's indent in tabs |
| RenderSamples.NestedPrefix | src/parser.rs:225-251 | the characters of the first two items when the second is nested |
| RenderSamples.SecondItemNests | src/parser.rs:72-79 | a second item deeper than the first pushes its own level |
| RenderSamples.BackToOuter | src/parser.rs:66-92 | an item back at the outer indent pops the nested level, then closes the outer `<li>` as a sibling |
| RenderSamples.PopToOuter | src/parser.rs:81-90 | the characters of that pop and sibling step |
| RenderSamples.NestThenBackMarkup | src/parser.rs:65-113 | an item, a deeper one and one back at the first indent render piece by piece as the nested list, a pop, a sibling `<li>` and the final close |
| RenderSamples.NestThenBack | src/parser.rs:65-113 | the exact characters of such a list |
| RenderSamples.SampleNestedList | src/parser.rs:285-333 | the six-item test vector (`リスト1`, nested `リスト1-1` and `リスト1-2`, `リスト2`, nested ordered `リスト2-1` and `リスト2-2`) renders to exactly the test's expected string |
| RenderSamples.StepJoin | src/parser.rs:93-105 | after the inner loop's markup, an item of one text span adds `tabs<li>` and that text to the characters so far |
| RenderSamples.NestTextStep | src/parser.rs:72-79 | a one-text item deeper than the top level pushes its level and adds `\n`, tabs, its container tag, `\n`, tabs, `<li>` and its text |
| RenderSamples.SiblingTextStep | src/parser.rs:68-71 | a one-text item at the top level's indent keeps the stack and adds `</li>\n`, tabs, `<li>` and its text |
| RenderSamples.PopTextStep | src/parser.rs:81-90 | a one-text item at the indent just below the top pops one level and adds the pop's closing tags, then tabs, `<li>` and its text |
| RenderSamples.CloseTextList | src/parser.rs:107-113 | the list's characters are the item loop's characters followed by the final loop's |
| RenderSamples.CloseTwoLevels | src/parser.rs:107-113 | with two levels open, the final loop closes the upper one with its tabs, then the outer one |
| RenderSamples.CloseOneLevel | src/parser.rs:107-113 | with one level at indent 0 open, the final loop emits `</li>\n` and the container's closing tag |
| RenderSamples.FirstSubList | src/parser.rs:65-106 | an item, two nested siblings and an item back at indent 0 leave only the outer level open, with their exact characters |
| RenderSamples.SecondSubList | src/parser.rs:65-113 | two nested ordered siblings after that, then the final loop, add their exact characters |
| RenderSamples.TwoSubLists | src/parser.rs:45-114 | a list of that six-item shape, for any item texts, renders to exactly the expected characters |
| RenderSamples.MixedListStart | src/parser.rs:65-106 | two outer siblings then two nested siblings leave two levels open, with their exact characters |
| RenderSamples.MixedListEnd | src/parser.rs:65-113 | an item two levels deep, then one back at indent 1 and one at indent 0, then the final loop, add their exact characters |
| RenderSamples.MixedList | src/parser.rs:45-114 | a list of the mixed document's seven-item shape, for any item texts, renders to exactly the expected characters |
| RenderSamples.HeadingBlockHtml | src/parser.rs:26-28 | a heading block's characters are `<hN>`, its text, `</hN>\n` |
| RenderSamples.TextParagraph | src/parser.rs:29-44 | a paragraph of one text span is `<p>`, the text, `</p>\n` |
| RenderSamples.RenderSnoc | src/parser.rs:24-120 | one more block appends its own characters to the document's |
| RenderSamples.ThreeBlocks | src/parser.rs:24-120 | three blocks render as their characters in order |
| RenderSamples.NineBlocks | src/parser.rs:24-120 | three documents one after the other render as their renderings in order |
| RenderSamples.DocumentHead | src/parser.rs:334-408 | the mixed test document's first three blocks render to their expected characters |
| RenderSamples.DocumentMiddle | src/parser.rs:334-408 | its next three blocks, the code block's line feed included |
| RenderSamples.DocumentTail | src/parser.rs:334-408 | its list, code block and last paragraph |
| RenderSamples.SampleDocument | src/parser.rs:334-408 | the whole mixed test document renders to exactly the test's expected string |
| RenderSamples.OneSpan | src/parser.rs:30-42 | one span alone renders as that span |
| RenderSamples.FourSpans | src/parser.rs:30-42 | a text, an italic, a code and a bold span render in that order, each wrapped in its own tag |
| RenderSamples.SpansParagraph | src/parser.rs:29-44 | a paragraph is `<p>`, its spans' characters, `</p>\n` |
| RenderSamples.SampleHeadings | src/parser.rs:170-181 | the three heading test vectors render to their expected strings |
| RenderSamples.SampleSimpleParagraphs | src/parser.rs:142-153 | the italic and bold test vectors, and the plain paragraph `段落` (lines 182-187), render to their expected strings |
| RenderSamples.SampleMixedParagraphs | src/parser.rs:154-169 | the italic-then-bold and the four-span test vectors render to their expected strings |
| RenderSamples.SampleCodeBlocks | src/parser.rs:269-284 | the two code block test vectors render verbatim inside `<pre><code>`, line feeds included |
| RenderSamples.SingleItemOf | src/parser.rs:45-114 | a list of one item at indent 0 renders as its container, `<li>`, the item's spans and the closing tags |
| RenderSamples.SampleRichItems | src/parser.rs:196-268 | the ordered one-item test vector and the one-item lists holding all four span kinds (lines 212-224 and 256-268) render to their expected strings |
| RenderSamples.NestedOf | src/parser.rs:65-113 | an item at indent 0 and a deeper one at indent 2 render with the nested container on lines indented by two tabs |
| RenderSamples.SampleRichNested | src/parser.rs:225-255 | the test vector with a four-span item and a nested copy of it at indent 2 renders to its expected string |
| RenderSamples.BetweenLevels | src/parser.rs:66-92 | an item between two open indents pops the deeper level and opens a container of its own kind at its own indent |
| RenderSamples.UnmatchedIndent | src/parser.rs:66-92 | with indents 0, 4, 2 the stack ends as levels 0 and 2, after one pop and one new container |
| Html.ElementHtml | src/parser.rs:9-15 | an element's characters are `<tag>` + its content + `</tag>` |
| Html.WellNestedBalanced | src/parser.rs:19-123 | in well-nested markup every tag is opened as often as it is closed |
| Tokenizer.Lex | src/lexer.rs:126-167 | definition of what `tokenize` returns: the scan from position 0 (`Tokenizer.Tokenize`, `Tokenizer.LexedBlocks`, `Tokenizer.LexBound`) |
| Tokenizer.IsAsciiWhitespace | src/lexer.rs:105 | definition of `is_ascii_whitespace`: space, tab, line feed, form feed and carriage return |
| Tokenizer.Heading | src/lexer.rs:136-153 | the heading node keeps its text and is `H1` exactly at level 1, `H2` exactly at level 2, `H3` otherwise |
| Tokenizer.HashRun | src/lexer.rs:136-152 | the number of `#` in a row from the cursor stays within the input; it is the reference `Tokenizer.HashLevelIsRun` compares the heading level with |
| Tokenizer.SkipWs | src/lexer.rs:103-110 | the whitespace skip stops at the end of the input or at the first character that is not ASCII whitespace, never before its start |
| Tokenizer.SkippedIsWhitespace | src/lexer.rs:103-110 | every character the skip passes over is ASCII whitespace, line feeds included |
| Tokenizer.LineEnd | src/lexer.rs:112-123 | a line ends at the next line feed or at the end of the input |
| Tokenizer.WithinLine | src/lexer.rs:112-123 | a line holds no line feed before its end |
| Tokenizer.LineFree | src/lexer.rs:112-123 | the text read up to the line end contains no line feed |
| Tokenizer.LineEndAt | src/lexer.rs:112-123 | the line end is the first line feed at or after the cursor, or the end of the input |
| Tokenizer.HashLevel | src/lexer.rs:136-139 | the heading level is 1 to 3, and the characters it counts past the first are `#` |
| Tokenizer.HashLevelIsRun | src/lexer.rs:136-152 | the heading level is the number of leading `#`, capped at 3 |
| Tokenizer.LexFrom | src/lexer.rs:133-164 | definition of the scan from a cursor, arm by arm; its own contract says only that nothing is produced at the end, and what it promises is stated by `Tokenizer.LexedBlocks`, `Tokenizer.LexBound` and `Tokenizer.LexLines` |
| Tokenizer.LexedBlocks | src/lexer.rs:133-164 | every block produced is a heading or a one-text-span paragraph whose text has no line feed |
| Tokenizer.LexBound | src/lexer.rs:133-164 | at most one block per remaining character |
| Tokenizer.HeadingStep | src/lexer.rs:136-153 | proof step unfolding `LexFrom`: a `#` at the cursor produces one heading of its level, whose text runs from after the skipped whitespace to the line end, then scanning resumes at the line end |
| Tokenizer.HeadingPushed | src/lexer.rs:136-153 | proof step for `Tokenize`'s loop: after the `#` arm, the blocks pushed plus what remains to scan equal the scan from before it |
| Tokenizer.ParagraphPushed | src/lexer.rs:157-162 | proof step for `Tokenize`'s loop: after the paragraph arm, the same holds for the one pushed paragraph |
| Tokenizer.BlankStep | src/lexer.rs:154-156 | proof step unfolding `LexFrom`: a line feed at the cursor produces nothing |
| Tokenizer.HeadingLine | src/lexer.rs:136-152 | `k` hashes, a space and a one-line text give one heading of level `k` with exactly that text |
| Tokenizer.NoLevelAboveThree | src/lexer.rs:138-142 | after `###`, a further `#` starts the level-3 heading's text |
| Tokenizer.BlankLines | src/lexer.rs:154-156 | a run of line feeds produces nothing |
| Tokenizer.ParagraphLine | src/lexer.rs:157-162 | a line starting with neither `#` nor a line feed produces one paragraph holding the whole line as one text span |
| Tokenizer.EmptyHeadingTakesNextLine | src/lexer.rs:103-110 | the skip after `#` crosses line feeds: `"#\n\nfoo"` scans to one heading with text `foo` |
| Tokenizer.SkipWsShift | src/lexer.rs:103-110 | the skip depends only on the input from the cursor on |
| Tokenizer.LineEndShift | src/lexer.rs:112-123 | the line end depends only on the input from the cursor on |
| Tokenizer.LexShift | src/lexer.rs:133-164 | the scan from a cursor depends only on the input from the cursor on |
| Tokenizer.HeadingShift | src/lexer.rs:136-153 | a heading is read the same after a prefix of the input is dropped |
| Tokenizer.ParagraphShift | src/lexer.rs:157-162 | a paragraph is read the same after a prefix of the input is dropped |
| Tokenizer.LexLines | src/lexer.rs:133-164 | a document scans as its first line's blocks followed by the scan of the rest |
| Tokenizer.HeadingMark | src/lexer.rs:136-152 | the marker of a level-`k` heading is `k` hashes then a space |
| Tokenizer.HeadingThenRest | src/lexer.rs:136-152 | a heading line followed by a line feed or the end scans to that heading, then the rest |
| Tokenizer.ParagraphThenRest | src/lexer.rs:157-162 | a text line followed by a line feed or the end scans to one paragraph, then the rest |
| Tokenizer.BlankThenRest | src/lexer.rs:154-156 | a leading blank line adds nothing |
| Tokenizer.HeadingThenBlank | src/lexer.rs:136-156 | a heading line then a blank line scans to the heading, then the rest |
| Tokenizer.TwoHeadings | src/lexer.rs:181-192 | a level-1 and a level-2 heading, each followed by a blank line, scan to those two headings, then the rest |
| Tokenizer.ThreeHeadings | src/lexer.rs:199-213 | headings of levels 1 to 3, each followed by a blank line, scan to those headings in order, then the rest |
| Tokenizer.HeadingsOnly | src/lexer.rs:181-192 | three headings separated by blank lines scan to exactly those three headings |
| Tokenizer.HeadingsAndParagraph | src/lexer.rs:199-213 | three headings and a paragraph separated by blank lines scan to exactly those four blocks |
| Tokenizer.SampleDocuments | src/lexer.rs:176-218 | every input of the tokenizer's test table scans to its expected blocks |
| Tokenizer.Lexer.constructor | src/lexer.rs:127-131 | the cursor starts at 0 with no output, over the whole input |
| Tokenizer.Lexer.CurrentChar | src/lexer.rs:84-86 | the character under the cursor; indexing past the end is excluded |
| Tokenizer.Lexer.PeekChar | src/lexer.rs:88-93 | the next character, or None iff the cursor is on the last character or beyond |
| Tokenizer.Lexer.NextChar | src/lexer.rs:95-101 | the cursor advances by exactly one, even past the end, and the character now under it is returned iff it is in range |
| Tokenizer.Lexer.SkipWhitespace | src/lexer.rs:103-110 | the cursor moves to where `SkipWs` stops; nothing else changes |
| Tokenizer.Lexer.ReadToEol | src/lexer.rs:112-123 | returns the characters up to the next line feed or the end and leaves the cursor on that line feed |
| Tokenizer.Lexer.ReadHeading | src/lexer.rs:136-153 | pushes one heading of the level of the leading `#` run, capped at 3, holding the rest of the line after the skipped whitespace, and leaves the cursor at the line end |
| Tokenizer.Tokenize | src/lexer.rs:126-167 | returns exactly `Lex` of the input |
| Pipeline.LexedRenderable | src/parser.rs:118 | the blocks the tokenizer produces are never ones that make `parse` panic |
| Pipeline.LexRenderable | src/main.rs:25 | every scan of a markdown text is renderable |
| Pipeline.Convert | src/main.rs:25 | `parse(tokenize(markdown))` never panics, returns `Render(Lex(markdown))`, and that markup is well nested |
| Pipeline.HeadingFirstLine | src/main.rs:25-31 | a text whose first line is a level-1 heading renders with `<h1>` + title + `</h1>` as its first line |

## Left out

- `src/main.rs` beyond line 25 is left out: command-line arguments, file reads and writes, the JSON article index, the clock, and the title extraction from the first output line. Only `Pipeline.HeadingFirstLine` states what that first line is.
- `src/view.rs` (template loading and placeholder substitution) is not part of this model.
- The `lexer.rs` types that nothing produces are not modelled: `Strong`, `Em`, `Ul`, `Ol`, `Li(Vec<LiContent>)` and `LiContent`. `A` and `Img` exist only to state that `parse` panics on them (`Renderer.Renderable`).
- Panics are preconditions. `Renderer.Parse` requires every block to be a heading, paragraph, list or code block. `Renderer.Parser.PushList` requires a non-empty list with no item shallower than the first. `Tokenizer.Lexer.CurrentChar` requires the cursor to be in range.
- Tokenizer.Lexer.NextChar: the cursor is a `nat`, so a `usize` overflow of `position += 1` is not modelled. `Tokenize` never advances past the input's end.
- Tokenizer.Lexer.PeekChar: it is modelled, but `tokenize` never calls it.
- Output is modelled as a sequence of markup events, and string-level statements go through `Flatten`. Tag balance is stated on the events, because user text is not escaped: a `<` inside a text span is not a tag.
- The expected strings of the renderer's test vectors are written with each user text as a separate string literal, joined to the tag runs around it by `+` (`"<p>" + "段落" + "</p>\n"`). The characters are the same as in the tests.
- String memory, reallocation and `char` iteration cost are not modelled. Strings are sequences of Unicode scalar values, as Rust's `char` is.
