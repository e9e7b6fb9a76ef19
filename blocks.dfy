// The frontend's blog content model: a post is a sequence of typed blocks whose
// data record carries optional fields, and the editors' per-type data edits.
module Blocks {
  import opened Wrappers
  import Seqs

  /** The five block types, plus any other type name that arrives as data. */
  datatype BlockKind = Paragraph | Heading | List | Code | Callout | Other(name: string)

  function KindName(k: BlockKind): string
  {
    match k
    case Paragraph => "paragraph"
    case Heading => "heading"
    case List => "list"
    case Code => "code"
    case Callout => "callout"
    case Other(n) => n
  }

  /** Reading a block's `type` string. */
  function KindOf(name: string): (k: BlockKind)
    ensures KindName(k) == name
  {
    if name == "paragraph" then Paragraph
    else if name == "heading" then Heading
    else if name == "list" then List
    else if name == "code" then Code
    else if name == "callout" then Callout
    else Other(name)
  }

  predicate IsStandardName(name: string)
  {
    name in {"paragraph", "heading", "list", "code", "callout"}
  }

  /** A kind value as `KindOf` produces it: `Other` never carries a standard name. */
  predicate CanonicalKind(k: BlockKind)
  {
    k.Other? ==> !IsStandardName(k.name)
  }

  lemma KindRoundTrip(k: BlockKind)
    requires CanonicalKind(k)
    ensures KindOf(KindName(k)) == k
  {
  }

  /** The `data` record of a block; every field is optional. `url` is read only by
      the SEO helper for blocks of type "image". */
  datatype BlockData = BlockData(
    text: Option<string>,
    level: Option<int>,
    items: Option<seq<string>>,
    code: Option<string>,
    language: Option<string>,
    url: Option<string>)

  const EmptyData := BlockData(None, None, None, None, None, None)

  datatype Block = Block(id: string, kind: BlockKind, data: BlockData)

  datatype BlogPost = BlogPost(
    id: string,
    title: string,
    excerpt: string,
    date: string,
    slug: string,
    blocks: seq<Block>,
    metaTitle: Option<string>,
    metaDescription: Option<string>,
    metaImage: Option<string>,
    metaKeywords: Option<seq<string>>,
    createdAt: Option<string>,
    updatedAt: Option<string>)

  /** The key a post is listed and looked up by. */
  function BlogId(b: BlogPost): string { b.id }

  function Ids(blocks: seq<Block>): (r: seq<string>)
    ensures |r| == |blocks| && forall k :: 0 <= k < |blocks| ==> r[k] == blocks[k].id
  {
    if blocks == [] then [] else [blocks[0].id] + Ids(blocks[1..])
  }

  function Kinds(blocks: seq<Block>): (r: seq<BlockKind>)
    ensures |r| == |blocks| && forall k :: 0 <= k < |blocks| ==> r[k] == blocks[k].kind
  {
    if blocks == [] then [] else [blocks[0].kind] + Kinds(blocks[1..])
  }

  /** The data a freshly added block starts with. */
  function DefaultData(k: BlockKind): BlockData
  {
    match k
    case Paragraph => EmptyData.(text := Some(""))
    case Heading => EmptyData.(level := Some(2), text := Some(""))
    case List => EmptyData.(items := Some([""]))
    case Code => EmptyData.(code := Some(""), language := Some("javascript"))
    case Callout => EmptyData.(text := Some(""))
    case Other(_) => EmptyData
  }

  // -------------------------------------------------- per-type data edits

  /** Paragraph and callout text edits send a record holding only `text`. */
  function TextEdit(value: string): BlockData
  {
    EmptyData.(text := Some(value))
  }

  /** Heading and code edits keep the other fields of the block's record. */
  function HeadingLevelEdit(d: BlockData, level: int): BlockData { d.(level := Some(level)) }
  function HeadingTextEdit(d: BlockData, value: string): BlockData { d.(text := Some(value)) }
  function CodeLanguageEdit(d: BlockData, value: string): BlockData { d.(language := Some(value)) }
  function CodeTextEdit(d: BlockData, value: string): BlockData { d.(code := Some(value)) }

  /** The list items the list editor shows: the stored items, or one empty item. */
  function ShownItems(d: BlockData): seq<string>
  {
    d.items.GetOr([""])
  }

  function StoredItems(d: BlockData): seq<string>
  {
    d.items.GetOr([])
  }

  /** Typing into item `idx` of the shown list: the stored items with that slot
      overwritten; a block without items gets them created. Only `items` is kept. */
  function ListItemEdit(d: BlockData, idx: nat, value: string): (r: BlockData)
    requires idx < |ShownItems(d)|
    ensures r.items.Some? && |r.items.value| == |ShownItems(d)|
    ensures r.items.value[idx] == value
    ensures forall k :: 0 <= k < |ShownItems(d)| && k != idx ==> r.items.value[k] == ShownItems(d)[k]
    ensures r == EmptyData.(items := r.items)
  {
    var stored := StoredItems(d);
    EmptyData.(items := Some(if idx < |stored| then stored[idx := value] else stored + [value]))
  }

  /** The remove button of item `idx`: the other items, or one empty item when
      none would be left. */
  function ListItemRemove(d: BlockData, idx: nat): (r: BlockData)
    ensures r.items.Some? && |r.items.value| >= 1
    ensures r == EmptyData.(items := r.items)
  {
    var kept := Seqs.WithoutIndex(StoredItems(d), idx);
    EmptyData.(items := Some(if |kept| > 0 then kept else [""]))
  }

  lemma ListItemRemoveContent(d: BlockData, idx: nat)
    ensures var s := StoredItems(d);
      ListItemRemove(d, idx).items.value ==
        if idx < |s| && |s| > 1 then s[..idx] + s[idx + 1..]
        else if idx < |s| then [""]
        else if |s| > 0 then s else [""]
  {
    Seqs.WithoutIndexSlices(StoredItems(d), idx);
  }

  /** "+ Add Item": one more empty item after the stored ones. */
  function ListItemAdd(d: BlockData): (r: BlockData)
    ensures r.items.Some? && |r.items.value| == |StoredItems(d)| + 1
    ensures r.items.value[..|StoredItems(d)|] == StoredItems(d) && r.items.value[|StoredItems(d)|] == ""
    ensures r == EmptyData.(items := r.items)
  {
    EmptyData.(items := Some(StoredItems(d) + [""]))
  }
}
