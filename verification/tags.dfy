/**
 * The node types that flow from the tokenizer to the renderer: top-level
 * block nodes (`RootTags`), inline spans (`Contents`) and list items.
 * The renderer's view of them is the authoritative one: spans are
 * Text/Code/Bold/Italic and a list block holds a flat sequence of items,
 * each with its own kind and raw indent.
 */
module Tags {

  datatype Option<T> = None | Some(value: T)

  /** The two list container kinds, `<ul>` and `<ol>`. */
  datatype ListType = Ul | Ol

  /** An inline span; spans never nest, each holds plain text. */
  datatype Content =
    | Text(text: string)
    | Code(text: string)
    | Bold(text: string)
    | Italic(text: string)

  /** One list line: its marker kind, its raw indent and its spans. */
  datatype ListItem = ListItem(listType: ListType, indent: nat, contents: seq<Content>)

  /**
   * A block node. `A` and `Img` are declared but never produced; the
   * renderer has no case for them.
   */
  datatype RootTag =
    | H1(text: string)
    | H2(text: string)
    | H3(text: string)
    | P(contents: seq<Content>)
    | Li(items: seq<ListItem>)
    | Pre(code: string)
    | A(href: string, text: string)
    | Img(src: string, alt: string)
}
