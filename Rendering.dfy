/**
 * The parts of the host rendering engine that the link-group macro sees:
 * document references, syntaxes, the macro transformation context and the
 * render-tree blocks the macro consumes (parsed content) and produces.
 */
module Rendering {
  import opened Wrappers

  /** A reference to a wiki document. The macro never looks inside it. */
  datatype DocumentReference = DocumentReference(wiki: string, spaces: seq<string>, name: string)

  /** The kinds of output syntax the host knows of; only the two annotated kinds matter to the macro. */
  datatype SyntaxType =
    | AnnotatedHtml
    | AnnotatedXhtml
    | Html
    | Xhtml
    | XWiki
    | OtherSyntaxType(id: string)

  datatype Syntax = Syntax(syntaxType: SyntaxType, version: string)

  /** The syntax the macro tags its raw HTML fragments with. */
  const Html50: Syntax := Syntax(Html, "5.0")

  /** The only metadata the macro attaches: "this is author content, not generated markup". */
  datatype MetaData = NonGeneratedContent

  /** A node of the host's render tree. */
  datatype Block =
    | Raw(rawContent: string, syntax: Syntax)
    | Group(children: seq<Block>)
    | MetaDataBlock(children: seq<Block>, metaData: MetaData)
    | Macro(id: string, parameters: map<string, string>, content: string, isInline: bool)
      /** Any other node the content parser may produce (paragraph, word, image, ...). */
    | Parsed(kind: string, children: seq<Block>)

  /** What the host tells a macro about where it is being expanded; a null target syntax is None. */
  datatype MacroTransformationContext = MacroTransformationContext(isInline: bool, targetSyntax: Option<Syntax>)

  /** Every raw fragment in a block list, anywhere in the tree, in document order. */
  function RawTexts(blocks: seq<Block>): seq<string>
    decreases blocks
  {
    if blocks == [] then [] else RawTextsOf(blocks[0]) + RawTexts(blocks[1..])
  }

  function RawTextsOf(block: Block): seq<string>
    decreases block
  {
    match block
    case Raw(text, _) => [text]
    case Group(children) => RawTexts(children)
    case MetaDataBlock(children, _) => RawTexts(children)
    case Macro(_, _, _, _) => []
    case Parsed(_, children) => RawTexts(children)
  }

  /** Collecting raw fragments distributes over concatenation of block lists. */
  lemma {:induction false} RawTextsAppend(xs: seq<Block>, ys: seq<Block>)
    ensures RawTexts(xs + ys) == RawTexts(xs) + RawTexts(ys)
    decreases |xs|
  {
    if xs == [] {
      assert xs + ys == ys;
    } else {
      assert (xs + ys)[0] == xs[0];
      assert (xs + ys)[1..] == xs[1..] + ys;
      RawTextsAppend(xs[1..], ys);
    }
  }

  /** A one-block list contributes exactly its block's fragments. */
  lemma RawTextsSingleton(b: Block)
    ensures RawTexts([b]) == RawTextsOf(b)
  {
  }
}
