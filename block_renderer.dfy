// The blog page's block renderer: a dispatch on the block type to one view
// component per type; any other type renders nothing.
module BlockRenderer {
  import opened Wrappers
  import opened Blocks

  /** The component chosen for a block and the properties handed to it. */
  datatype View =
    | ParagraphView(text: Option<string>, darkMode: bool)
    | HeadingView(level: int, text: Option<string>, darkMode: bool)
    | ListView(items: Option<seq<string>>, darkMode: bool)
    | CodeView(code: Option<string>, language: Option<string>, darkMode: bool)
    | CalloutView(text: Option<string>, darkMode: bool)
    | Nothing

  /** The block type a view component belongs to. */
  function ViewKind(v: View): Option<BlockKind>
  {
    match v
    case ParagraphView(_, _) => Some(Paragraph)
    case HeadingView(_, _, _) => Some(Heading)
    case ListView(_, _) => Some(List)
    case CodeView(_, _, _) => Some(Code)
    case CalloutView(_, _) => Some(Callout)
    case Nothing => None
  }

  function Render(b: Block, darkMode: bool): (v: View)
    ensures b.kind.Other? <==> v == Nothing
    ensures !b.kind.Other? ==> ViewKind(v) == Some(b.kind) && v.darkMode == darkMode
    ensures v.HeadingView? ==> v.level == (if b.data.level.Some? then b.data.level.value else 2)
    ensures (v.ParagraphView? || v.HeadingView? || v.CalloutView?) ==> v.text == b.data.text
    ensures v.ListView? ==> v.items == b.data.items
    ensures v.CodeView? ==> v.code == b.data.code && v.language == b.data.language
  {
    match b.kind
    case Paragraph => ParagraphView(b.data.text, darkMode)
    case Heading => HeadingView(b.data.level.GetOr(2), b.data.text, darkMode)
    case List => ListView(b.data.items, darkMode)
    case Code => CodeView(b.data.code, b.data.language, darkMode)
    case Callout => CalloutView(b.data.text, darkMode)
    case Other(_) => Nothing
  }

  /** What is rendered never depends on the block's id. */
  lemma RenderIgnoresId(b: Block, id: string, darkMode: bool)
    ensures Render(b.(id := id), darkMode) == Render(b, darkMode)
  {
  }

  /** Two blocks of different standard types never render with the same component. */
  lemma RenderDistinguishesKinds(a: Block, b: Block, darkMode: bool)
    requires !a.kind.Other? && !b.kind.Other? && a.kind != b.kind
    ensures ViewKind(Render(a, darkMode)) != ViewKind(Render(b, darkMode))
  {
  }

  /** A heading whose data has no level renders as a level-2 heading. */
  lemma HeadingDefaultsToLevelTwo(b: Block, darkMode: bool)
    requires b.kind == Heading && b.data.level.None?
    ensures Render(b, darkMode).HeadingView? && Render(b, darkMode).level == 2
  {
  }

  /** The data a new block starts with renders as its own type, headings at level 2. */
  lemma DefaultsRender(k: BlockKind, id: string, darkMode: bool)
    requires !k.Other?
    ensures ViewKind(Render(Block(id, k, DefaultData(k)), darkMode)) == Some(k)
    ensures k == Heading ==> Render(Block(id, k, DefaultData(k)), darkMode).level == 2
  {
  }
}
