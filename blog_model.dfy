// The backend's blog records: a block as decoded from a JSON request (its data
// is a JSON object), the struct tags a block must satisfy, and the per-type data
// check that runs after them.
module BlogModel {
  import opened Wrappers
  import opened BackendErrors
  import Blocks
  import Slug

  /** A decoded JSON value; numbers decode as floating point, modelled as reals. */
  datatype Json =
    | JString(str: string)
    | JNumber(num: real)
    | JBool(truth: bool)
    | JNull
    | JArray(elems: seq<Json>)
    | JObject(fields: map<string, Json>)

  /** A block of a request. `data` is None when the JSON value was null or absent. */
  datatype BackendBlock = BackendBlock(id: string, kind: string, data: Option<map<string, Json>>)

  datatype Blog = Blog(
    id: string,
    title: string,
    excerpt: string,
    date: string,
    slug: string,
    metaTitle: string,
    metaDescription: string,
    metaImage: string,
    metaKeywords: seq<string>,
    blocks: seq<BackendBlock>,
    createdAt: int,
    updatedAt: int)

  /** The body of a create or update request. */
  datatype BlogRequest = BlogRequest(
    title: string,
    excerpt: string,
    date: string,
    slug: string,
    metaTitle: string,
    metaDescription: string,
    metaImage: string,
    metaKeywords: seq<string>,
    blocks: seq<BackendBlock>)

  /** The struct tags of a create or update request: title 3 to 500 characters,
      excerpt 10 to 1000, a date, a slug of 3 to 500 characters that the
      registered `slug` rule accepts, meta title at most 255, meta description
      at most 1000, and a meta image (when given) that is a URL. Whether a
      string is a URL is the validator's own rule and a parameter here. The
      blocks are not dived into: the service checks them one by one. */
  predicate RequestTagsValid(req: BlogRequest, metaImageIsUrl: bool)
  {
    3 <= |req.title| <= 500 && 10 <= |req.excerpt| <= 1000 && req.date != ""
    && 3 <= |req.slug| <= 500 && Slug.ValidSlug(req.slug)
    && |req.metaTitle| <= 255 && |req.metaDescription| <= 1000
    && (req.metaImage == "" || metaImageIsUrl)
  }

  const AllowedTypes: set<string> := {"paragraph", "heading", "list", "code", "callout"}

  /** The struct tags of a block: a non-empty id, a type from the allowed set and a
      data object that is present. */
  predicate BlockStructValid(b: BackendBlock)
  {
    b.id != "" && b.kind in AllowedTypes && b.data.Some?
  }

  predicate HasString(data: Option<map<string, Json>>, key: string)
  {
    data.Some? && key in data.value && data.value[key].JString?
  }

  predicate HasLevel(data: Option<map<string, Json>>)
  {
    data.Some? && "level" in data.value && data.value["level"].JNumber?
    && (data.value["level"].num == 2.0 || data.value["level"].num == 3.0)
  }

  predicate HasItems(data: Option<map<string, Json>>)
  {
    data.Some? && "items" in data.value && data.value["items"].JArray?
    && |data.value["items"].elems| > 0
  }

  /** The per-type data check; every failure is the same error. */
  function ValidateBlockData(b: BackendBlock): (r: Option<ServiceError>)
    ensures r.Some? ==> r.value == InvalidBlockData
    ensures b.kind !in AllowedTypes ==> r.None?
  {
    if b.kind == "paragraph" || b.kind == "callout" then
      if HasString(b.data, "text") then None else Some(InvalidBlockData)
    else if b.kind == "heading" then
      if !HasString(b.data, "text") then Some(InvalidBlockData)
      else if !HasLevel(b.data) then Some(InvalidBlockData)
      else None
    else if b.kind == "list" then
      if HasItems(b.data) then None else Some(InvalidBlockData)
    else if b.kind == "code" then
      if HasString(b.data, "code") then None else Some(InvalidBlockData)
    else None
  }

  lemma TextBlocksValidIff(b: BackendBlock)
    requires b.kind == "paragraph" || b.kind == "callout"
    ensures ValidateBlockData(b).None? <==> HasString(b.data, "text")
  {
  }

  lemma HeadingValidIff(b: BackendBlock)
    requires b.kind == "heading"
    ensures ValidateBlockData(b).None? <==> HasString(b.data, "text") && HasLevel(b.data)
  {
  }

  /** A list needs a non-empty items array; what the items are is not checked. */
  lemma ListValidIff(b: BackendBlock)
    requires b.kind == "list"
    ensures ValidateBlockData(b).None? <==> HasItems(b.data)
  {
  }

  /** A code block needs only a string `code`; `language` is never looked at. */
  lemma CodeValidIff(b: BackendBlock, lang: Json)
    requires b.kind == "code" && b.data.Some?
    ensures ValidateBlockData(b).None? <==> HasString(b.data, "code")
    ensures ValidateBlockData(b.(data := Some(b.data.value["language" := lang]))) == ValidateBlockData(b)
  {
    var d2 := Some(b.data.value["language" := lang]);
    assert HasString(d2, "code") <==> HasString(b.data, "code");
  }

  /** A type outside the allowed set passes the data check; only the `oneof` tag of
      the struct check refuses it. */
  lemma OtherTypesPassDataCheck(b: BackendBlock)
    requires b.kind !in AllowedTypes
    ensures ValidateBlockData(b).None? && !BlockStructValid(b)
  {
  }

  // ------------------------------------------- blocks sent by the editor

  function EncodeItems(items: seq<string>): (r: seq<Json>)
    ensures |r| == |items| && forall k :: 0 <= k < |items| ==> r[k] == JString(items[k])
  {
    if items == [] then [] else [JString(items[0])] + EncodeItems(items[1..])
  }

  /** The JSON object the frontend sends for a block's data: absent fields are
      omitted. */
  function EncodeData(d: Blocks.BlockData): map<string, Json>
  {
    var m0 := map[];
    var m1 := if d.text.Some? then m0["text" := JString(d.text.value)] else m0;
    var m2 := if d.level.Some? then m1["level" := JNumber(d.level.value as real)] else m1;
    var m3 := if d.items.Some? then m2["items" := JArray(EncodeItems(d.items.value))] else m2;
    var m4 := if d.code.Some? then m3["code" := JString(d.code.value)] else m3;
    var m5 := if d.language.Some? then m4["language" := JString(d.language.value)] else m4;
    if d.url.Some? then m5["url" := JString(d.url.value)] else m5
  }

  function EncodeBlock(b: Blocks.Block): BackendBlock
  {
    BackendBlock(b.id, Blocks.KindName(b.kind), Some(EncodeData(b.data)))
  }

  /** Every block the editor adds passes both backend checks before any editing. */
  lemma DefaultBlocksAccepted(id: string, k: Blocks.BlockKind)
    requires id != "" && !k.Other?
    ensures BlockStructValid(EncodeBlock(Blocks.Block(id, k, Blocks.DefaultData(k))))
    ensures ValidateBlockData(EncodeBlock(Blocks.Block(id, k, Blocks.DefaultData(k)))).None?
  {
    var d := Blocks.DefaultData(k);
    var m := EncodeData(d);
    match k
    case Paragraph => assert "text" in m && m["text"] == JString("");
    case Callout => assert "text" in m && m["text"] == JString("");
    case Heading =>
      assert "text" in m && m["text"] == JString("");
      assert "level" in m && m["level"] == JNumber(2.0);
    case List => assert "items" in m && m["items"] == JArray([JString("")]);
    case Code => assert "code" in m && m["code"] == JString("");
  }

  /** A list block whose data holds only a non-empty item list is accepted. */
  lemma ItemsOnlyAccepted(id: string, d: Blocks.BlockData)
    requires d.items.Some? && |d.items.value| > 0 && d == Blocks.EmptyData.(items := d.items)
    ensures ValidateBlockData(EncodeBlock(Blocks.Block(id, Blocks.List, d))).None?
  {
    assert EncodeData(d)["items"] == JArray(EncodeItems(d.items.value));
  }

  /** The list editor's edits always leave a list block the backend accepts. */
  lemma ListEditsAccepted(id: string, d: Blocks.BlockData, idx: nat, value: string)
    requires id != ""
    ensures ValidateBlockData(EncodeBlock(Blocks.Block(id, Blocks.List, Blocks.ListItemRemove(d, idx)))).None?
    ensures ValidateBlockData(EncodeBlock(Blocks.Block(id, Blocks.List, Blocks.ListItemAdd(d)))).None?
    ensures idx < |Blocks.ShownItems(d)| ==>
      ValidateBlockData(EncodeBlock(Blocks.Block(id, Blocks.List, Blocks.ListItemEdit(d, idx, value)))).None?
  {
    ItemsOnlyAccepted(id, Blocks.ListItemRemove(d, idx));
    ItemsOnlyAccepted(id, Blocks.ListItemAdd(d));
    if idx < |Blocks.ShownItems(d)| {
      ItemsOnlyAccepted(id, Blocks.ListItemEdit(d, idx, value));
    }
  }

  /** Paragraph and callout text edits always leave a block the backend accepts. */
  lemma TextEditAccepted(id: string, k: Blocks.BlockKind, value: string)
    requires k == Blocks.Paragraph || k == Blocks.Callout
    ensures ValidateBlockData(EncodeBlock(Blocks.Block(id, k, Blocks.TextEdit(value)))).None?
  {
    assert EncodeData(Blocks.TextEdit(value))["text"] == JString(value);
  }
}
