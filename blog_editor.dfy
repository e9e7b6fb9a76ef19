// The admin blog editor: its form state, the block-list operations of its
// toolbar and block controls, the slug field's normalisation and the save
// handler. The clock value used for new ids is a parameter.
module BlogEditor {
  import opened Wrappers
  import opened Blocks
  import Seqs
  import Text
  import Slug

  /** The id a block added at clock value `now` receives: `b<now>`. */
  function NewBlockId(now: nat): string
  {
    "b" + Text.NatToString(now)
  }

  function NewBlock(k: BlockKind, now: nat): Block
  {
    Block(NewBlockId(now), k, DefaultData(k))
  }

  /** Blocks added at two different instants never share an id. */
  lemma NewBlockIdsDistinct(m: nat, n: nat)
    requires m != n
    ensures NewBlockId(m) != NewBlockId(n)
  {
    if NewBlockId(m) == NewBlockId(n) {
      assert NewBlockId(m)[1..] == Text.NatToString(m);
      assert NewBlockId(n)[1..] == Text.NatToString(n);
      Text.NatToStringInjective(m, n);
    }
  }

  /** Block `i` with its data replaced and its id and type kept. */
  function WithData(blocks: seq<Block>, i: nat, d: BlockData): (r: seq<Block>)
    requires i < |blocks|
    ensures |r| == |blocks| && r[i].data == d
    ensures Ids(r) == Ids(blocks) && Kinds(r) == Kinds(blocks)
    ensures forall k :: 0 <= k < |blocks| && k != i ==> r[k] == blocks[k]
  {
    var r := blocks[i := Block(blocks[i].id, blocks[i].kind, d)];
    SameIdsAndKinds(blocks, r);
    r
  }

  lemma SameIdsAndKinds(a: seq<Block>, b: seq<Block>)
    requires |a| == |b|
    requires forall k :: 0 <= k < |a| ==> a[k].id == b[k].id && a[k].kind == b[k].kind
    ensures Ids(a) == Ids(b) && Kinds(a) == Kinds(b)
  {
    assert forall k :: 0 <= k < |a| ==> Ids(a)[k] == Ids(b)[k];
    assert forall k :: 0 <= k < |a| ==> Kinds(a)[k] == Kinds(b)[k];
  }

  /** The slot a block moves to: one up or one down. */
  function MoveTarget(index: int, up: bool): int
  {
    if up then index - 1 else index + 1
  }

  /** The block list after moving block `index`; a move past either end changes nothing. */
  function Moved(blocks: seq<Block>, index: nat, up: bool): seq<Block>
    requires index < |blocks|
  {
    var j := MoveTarget(index, up);
    if j < 0 || j >= |blocks| then blocks else Seqs.Swap(blocks, index, j as nat)
  }

  /** A move is a permutation of the blocks, so it keeps the length and the multiset
      of ids; inside the list it exchanges exactly the two neighbours. */
  lemma MovedPermutes(blocks: seq<Block>, index: nat, up: bool)
    requires index < |blocks|
    ensures |Moved(blocks, index, up)| == |blocks|
    ensures multiset(Moved(blocks, index, up)) == multiset(blocks)
    ensures multiset(Ids(Moved(blocks, index, up))) == multiset(Ids(blocks))
  {
    var j := MoveTarget(index, up);
    if 0 <= j < |blocks| {
      var r := Seqs.Swap(blocks, index, j as nat);
      Seqs.SwapPermutes(blocks, index, j as nat);
      assert Ids(r) == Seqs.Swap(Ids(blocks), index, j as nat);
      Seqs.SwapPermutes(Ids(blocks), index, j as nat);
    }
  }

  lemma MovedAtBoundary(blocks: seq<Block>, index: nat, up: bool)
    requires index < |blocks|
    requires (up && index == 0) || (!up && index == |blocks| - 1)
    ensures Moved(blocks, index, up) == blocks
  {
  }

  /** Moving a block down and then moving it back up restores the list. */
  lemma MoveDownThenUp(blocks: seq<Block>, index: nat)
    requires index + 1 < |blocks|
    ensures Moved(Moved(blocks, index, false), index + 1, true) == blocks
  {
    var once := Moved(blocks, index, false);
    assert once == Seqs.Swap(blocks, index, index + 1);
    var twice := Moved(once, index + 1, true);
    assert twice == Seqs.Swap(once, index + 1, index);
    assert forall k :: 0 <= k < |blocks| ==> twice[k] == blocks[k];
  }

  /** The id a saved post carries: the edited post's id when it has one, otherwise
      the decimal clock value. */
  function SaveId(post: Option<BlogPost>, now: nat): string
  {
    if post.Some? && post.value.id != "" then post.value.id else Text.NatToString(now)
  }

  class Editor {
    /** The post being edited, if any. */
    const post: Option<BlogPost>
    var title: string
    var excerpt: string
    var date: string
    var slug: string
    var blocks: seq<Block>

    /** The form starts from the edited post's fields, or empty with `today` as date. */
    constructor (post: Option<BlogPost>, today: string)
      ensures this.post == post
      ensures title == (if post.Some? then post.value.title else "")
      ensures excerpt == (if post.Some? then post.value.excerpt else "")
      ensures date == (if post.Some? && post.value.date != "" then post.value.date else today)
      ensures slug == (if post.Some? then post.value.slug else "")
      ensures blocks == (if post.Some? then post.value.blocks else [])
    {
      this.post := post;
      title := if post.Some? then post.value.title else "";
      excerpt := if post.Some? then post.value.excerpt else "";
      date := if post.Some? && post.value.date != "" then post.value.date else today;
      slug := if post.Some? then post.value.slug else "";
      blocks := if post.Some? then post.value.blocks else [];
    }

    /** Appends one block of type `k` with its default data; earlier blocks stay. */
    method AddBlock(k: BlockKind, now: nat)
      modifies this
      ensures blocks == old(blocks) + [NewBlock(k, now)]
      ensures title == old(title) && excerpt == old(excerpt) && date == old(date) && slug == old(slug)
    {
      var newBlock := Block(NewBlockId(now), k, DefaultData(k));
      blocks := blocks + [newBlock];
    }

    method UpdateBlock(index: nat, d: BlockData)
      requires index < |blocks|
      modifies this
      ensures blocks == WithData(old(blocks), index, d)
      ensures title == old(title) && excerpt == old(excerpt) && date == old(date) && slug == old(slug)
    {
      var updated := blocks;
      updated := updated[index := updated[index].(data := d)];
      blocks := updated;
    }

    /** Removes position `index`; any other index leaves the list as it is. */
    method DeleteBlock(index: int)
      modifies this
      ensures blocks == if 0 <= index < |old(blocks)| then old(blocks)[..index] + old(blocks)[index + 1..] else old(blocks)
      ensures title == old(title) && excerpt == old(excerpt) && date == old(date) && slug == old(slug)
    {
      Seqs.WithoutIndexSlices(blocks, index);
      blocks := Seqs.WithoutIndex(blocks, index);
    }

    /** Swaps block `index` with its upper or lower neighbour in a copy of the list. */
    method MoveBlock(index: nat, up: bool)
      requires index < |blocks|
      modifies this
      ensures blocks == Moved(old(blocks), index, up)
      ensures title == old(title) && excerpt == old(excerpt) && date == old(date) && slug == old(slug)
    {
      var newIndex := if up then index as int - 1 else index + 1;
      if newIndex < 0 || newIndex >= |blocks| {
        return;
      }
      var current := blocks;
      var updated := new Block[|current|](i requires 0 <= i < |current| => current[i]);
      var temp := updated[index];
      updated[index] := updated[newIndex];
      updated[newIndex] := temp;
      blocks := updated[..];
      assert blocks == Seqs.Swap(current, index, newIndex as nat);
    }

    /** The slug field's change handler. */
    method SetSlug(input: string)
      modifies this
      ensures slug == Slug.Normalize(input)
      ensures Text.NoSpace(slug)
      ensures title == old(title) && excerpt == old(excerpt) && date == old(date) && blocks == old(blocks)
    {
      Slug.NormalizeNoSpace(input);
      slug := Slug.Normalize(input);
    }

    /** The post handed to `onSave`, or None when a required field is empty. */
    method HandleSave(now: nat) returns (saved: Option<BlogPost>)
      ensures saved.Some? <==> title != "" && excerpt != "" && slug != ""
      ensures saved.Some? ==> saved.value.id == SaveId(post, now)
      ensures saved.Some? ==>
        saved.value.title == title && saved.value.excerpt == excerpt && saved.value.date == date
        && saved.value.slug == slug && saved.value.blocks == blocks
      ensures saved.Some? ==>
        saved.value.metaTitle.None? && saved.value.metaDescription.None? && saved.value.metaImage.None?
        && saved.value.metaKeywords.None? && saved.value.createdAt.None? && saved.value.updatedAt.None?
    {
      if title == "" || excerpt == "" || slug == "" {
        return None;
      }
      var id := if post.Some? && post.value.id != "" then post.value.id else Text.NatToString(now);
      saved := Some(BlogPost(id, title, excerpt, date, slug, blocks, None, None, None, None, None, None));
    }
  }

  /** Saving a post that is being edited keeps its id; a new post, or one whose
      id is empty (falsy), gets the clock. */
  lemma SaveIdChoice(post: Option<BlogPost>, now: nat)
    ensures post.Some? && post.value.id != "" ==> SaveId(post, now) == post.value.id
    ensures !(post.Some? && post.value.id != "") ==> Text.DecimalValue(SaveId(post, now)) == now
  {
    Text.DecimalRoundTrip(now);
  }
}
