// The search-engine metadata of a blog post: title, description and image with
// their fallbacks, keywords (given, or generated from the title and the
// technologies the blocks mention), the page path and url, and the
// schema.org article body and word count extracted from the blocks.
// Two helpers are parameters: `imgSrc`, the first `src` a paragraph's
// `<img …>` markup carries (the regular expression match), and `stringify`,
// `JSON.stringify` of a block.
module BlogSeo {
  import opened Wrappers
  import Seqs
  import Text
  import Blocks
  import ApiClient

  const BaseUrl := "https://edwin-promise.vercel.app"
  const DefaultBlogImage := BaseUrl + "/images/blog-default.jpg"
  const BodyLimit := 500
  const KeywordLimit := 10
  const TitleWordLimit := 3
  const FixedKeywords: seq<string> := ["Blog Post", "Edwin Promise"]

  const TechStack: seq<string> := [
    "React", "TypeScript", "JavaScript", "Go", "Python", "Laravel",
    "PHP", "Node.js", "Express", "Next.js", "TailwindCSS", "CSS",
    "HTML", "MySQL", "PostgreSQL", "MongoDB", "Docker", "Kubernetes",
    "AWS", "Git", "API", "REST", "GraphQL"]

  /** Title words that never become keywords. */
  const CommonWords: seq<string> := [
    "the", "a", "an", "and", "or", "but", "in", "on", "at", "to", "for",
    "of", "with", "by", "from", "as", "is", "was", "are", "been", "be",
    "have", "has", "had", "do", "does", "did", "will", "would", "should",
    "could", "may", "might", "must", "can", "this", "that", "these", "those",
    "i", "you", "he", "she", "it", "we", "they", "what", "which", "who",
    "when", "where", "why", "how", "all", "each", "every", "both", "few",
    "more", "most", "other", "some", "such", "into", "through", "during",
    "before", "after", "above", "below", "between", "under", "again"]

  /** `s.slice(0, n)`. */
  function Take<T>(s: seq<T>, n: nat): (r: seq<T>)
    ensures r <= s && |r| <= n
    ensures |s| <= n ==> r == s
    ensures |s| > n ==> |r| == n
  {
    if |s| <= n then s else s[..n]
  }

  predicate NoDuplicates(s: seq<string>)
  {
    forall i, j :: 0 <= i < j < |s| ==> s[i] != s[j]
  }

  // ---------------------------------------------------------------- image

  /** The image one block offers: an image block's url, or the `src` of the
      markup in a paragraph's text. */
  function ImageOf(b: Blocks.Block, imgSrc: string -> Option<string>): Option<string>
  {
    if b.kind == Blocks.Other("image") && ApiClient.Truthy(b.data.url) then b.data.url
    else if b.kind == Blocks.Paragraph && ApiClient.Truthy(b.data.text) then imgSrc(b.data.text.value)
    else None
  }

  /** The first image in block order. */
  function FirstImage(blocks: seq<Blocks.Block>, imgSrc: string -> Option<string>): Option<string>
  {
    if blocks == [] then None
    else if ImageOf(blocks[0], imgSrc).Some? then ImageOf(blocks[0], imgSrc)
    else FirstImage(blocks[1..], imgSrc)
  }

  /** `FirstImage` is the image of the earliest block that offers one. */
  lemma {:induction false} FirstImageIsEarliest(blocks: seq<Blocks.Block>, imgSrc: string -> Option<string>)
    ensures FirstImage(blocks, imgSrc).None? <==>
      forall k :: 0 <= k < |blocks| ==> ImageOf(blocks[k], imgSrc).None?
    ensures FirstImage(blocks, imgSrc).Some? ==>
      exists k :: (0 <= k < |blocks| && FirstImage(blocks, imgSrc) == ImageOf(blocks[k], imgSrc)
                   && forall j :: 0 <= j < k ==> ImageOf(blocks[j], imgSrc).None?)
    decreases |blocks|
  {
    if blocks != [] {
      var rest := blocks[1..];
      FirstImageIsEarliest(rest, imgSrc);
      if ImageOf(blocks[0], imgSrc).None? {
        assert forall k :: 0 < k < |blocks| ==> blocks[k] == rest[k - 1];
        if FirstImage(rest, imgSrc).Some? {
          var k :| 0 <= k < |rest| && FirstImage(rest, imgSrc) == ImageOf(rest[k], imgSrc)
            && forall j :: 0 <= j < k ==> ImageOf(rest[j], imgSrc).None?;
          assert blocks[k + 1] == rest[k];
          assert forall j :: 0 <= j < k + 1 ==> ImageOf(blocks[j], imgSrc).None? by {
            forall j | 0 <= j < k + 1 ensures ImageOf(blocks[j], imgSrc).None? {
              if j > 0 { assert blocks[j] == rest[j - 1]; }
            }
          }
        }
      }
    }
  }

  /** `extractFirstImageFromBlocks`. */
  method ExtractFirstImage(blocks: seq<Blocks.Block>, imgSrc: string -> Option<string>)
    returns (image: Option<string>)
    ensures image == FirstImage(blocks, imgSrc)
  {
    var i := 0;
    while i < |blocks|
      invariant 0 <= i <= |blocks|
      invariant FirstImage(blocks[i..], imgSrc) == FirstImage(blocks, imgSrc)
    {
      var b := blocks[i];
      if b.kind == Blocks.Other("image") && ApiClient.Truthy(b.data.url) {
        return b.data.url;
      }
      if b.kind == Blocks.Paragraph && ApiClient.Truthy(b.data.text) {
        var found := imgSrc(b.data.text.value);
        if found.Some? {
          return found;
        }
      }
      assert blocks[i..][1..] == blocks[i + 1..];
      i := i + 1;
    }
    return None;
  }

  /** `meta_image || extractedImage || defaultBlogImage`. */
  function ImageChoice(metaImage: Option<string>, extracted: Option<string>): (r: string)
    ensures ApiClient.Truthy(metaImage) ==> r == metaImage.value
    ensures !ApiClient.Truthy(metaImage) && ApiClient.Truthy(extracted) ==> r == extracted.value
    ensures !ApiClient.Truthy(metaImage) && !ApiClient.Truthy(extracted) ==> r == DefaultBlogImage
    ensures r != ""
  {
    if ApiClient.Truthy(metaImage) then metaImage.value
    else if ApiClient.Truthy(extracted) then extracted.value
    else DefaultBlogImage
  }

  // ------------------------------------------------------------- keywords

  /** The tech-stack names found in one block's text, added after `acc` in
      tech-stack order unless already present (a `Set` keeps first insertion). */
  function Found(acc: seq<string>, text: string, techs: seq<string>): seq<string>
    decreases |techs|
  {
    if techs == [] then acc
    else
      var prev := Found(acc, text, techs[..|techs| - 1]);
      var t := techs[|techs| - 1];
      if Text.Contains(text, Text.Lower(t)) && t !in prev then prev + [t] else prev
  }

  /** The names of `techs` found in the blocks, in order of first discovery. */
  function Scan(blocks: seq<Blocks.Block>, stringify: Blocks.Block -> string, techs: seq<string>): seq<string>
    decreases |blocks|
  {
    if blocks == [] then []
    else
      Found(Scan(blocks[..|blocks| - 1], stringify, techs),
            Text.Lower(stringify(blocks[|blocks| - 1])), techs)
  }

  /** The technical keywords of a block list. */
  function TechKeywords(blocks: seq<Blocks.Block>, stringify: Blocks.Block -> string): seq<string>
  {
    Scan(blocks, stringify, TechStack)
  }

  lemma {:induction false} FoundFacts(acc: seq<string>, text: string, techs: seq<string>)
    ensures acc <= Found(acc, text, techs)
    ensures forall x :: x in Found(acc, text, techs) ==>
      x in acc || (x in techs && Text.Contains(text, Text.Lower(x)))
    ensures forall x :: x in techs && Text.Contains(text, Text.Lower(x)) ==> x in Found(acc, text, techs)
    ensures NoDuplicates(acc) ==> NoDuplicates(Found(acc, text, techs))
    decreases |techs|
  {
    if techs != [] {
      var init := techs[..|techs| - 1];
      FoundFacts(acc, text, init);
      assert techs == init + [techs[|techs| - 1]];
    }
  }

  /** Some block's text mentions `x`, case-insensitively. */
  predicate Mentioned(blocks: seq<Blocks.Block>, stringify: Blocks.Block -> string, x: string)
  {
    exists k :: 0 <= k < |blocks| && Text.Contains(Text.Lower(stringify(blocks[k])), Text.Lower(x))
  }

  lemma {:induction false} ScanFacts(blocks: seq<Blocks.Block>, stringify: Blocks.Block -> string, techs: seq<string>)
    ensures NoDuplicates(Scan(blocks, stringify, techs))
    ensures forall x :: x in Scan(blocks, stringify, techs) <==> x in techs && Mentioned(blocks, stringify, x)
    decreases |blocks|
  {
    if blocks != [] {
      var init := blocks[..|blocks| - 1];
      var last := blocks[|blocks| - 1];
      ScanFacts(init, stringify, techs);
      FoundFacts(Scan(init, stringify, techs), Text.Lower(stringify(last)), techs);
      forall x | x in techs && Mentioned(blocks, stringify, x)
        ensures x in Scan(blocks, stringify, techs)
      {
        var k :| 0 <= k < |blocks| && Text.Contains(Text.Lower(stringify(blocks[k])), Text.Lower(x));
        if k < |blocks| - 1 {
          assert init[k] == blocks[k];
        }
      }
      forall x | x in Scan(blocks, stringify, techs)
        ensures Mentioned(blocks, stringify, x)
      {
        if x in Scan(init, stringify, techs) {
          var k :| 0 <= k < |init| && Text.Contains(Text.Lower(stringify(init[k])), Text.Lower(x));
          assert blocks[k] == init[k];
        } else {
          assert blocks[|blocks| - 1] == last;
        }
      }
    }
  }

  /** The technical keywords are tech-stack names, without duplicates, and they
      are exactly the names some block's text mentions (case-insensitively). */
  lemma TechKeywordsFacts(blocks: seq<Blocks.Block>, stringify: Blocks.Block -> string)
    ensures NoDuplicates(TechKeywords(blocks, stringify))
    ensures forall x :: x in TechKeywords(blocks, stringify) <==> x in TechStack && Mentioned(blocks, stringify, x)
  {
    ScanFacts(blocks, stringify, TechStack);
  }

  /** The inner loop of `extractTechnicalKeywords`: one block's text against
      every name of `techs`. */
  method AddFound(keywords: seq<string>, blockText: string, techs: seq<string>)
    returns (r: seq<string>)
    ensures r == Found(keywords, blockText, techs)
  {
    r := keywords;
    var j := 0;
    while j < |techs|
      invariant 0 <= j <= |techs|
      invariant r == Found(keywords, blockText, techs[..j])
    {
      var tech := techs[j];
      assert techs[..j + 1][..j] == techs[..j];
      if Text.Contains(blockText, Text.Lower(tech)) && tech !in r {
        r := r + [tech];
      }
      j := j + 1;
    }
    assert techs[..|techs|] == techs;
  }

  /** The outer loop of `extractTechnicalKeywords`, over any list of names. */
  method ScanBlocks(blocks: seq<Blocks.Block>, stringify: Blocks.Block -> string, techs: seq<string>)
    returns (keywords: seq<string>)
    ensures keywords == Scan(blocks, stringify, techs)
  {
    keywords := [];
    var i := 0;
    while i < |blocks|
      invariant 0 <= i <= |blocks|
      invariant keywords == Scan(blocks[..i], stringify, techs)
    {
      var blockText := Text.Lower(stringify(blocks[i]));
      keywords := AddFound(keywords, blockText, techs);
      assert blocks[..i + 1][..i] == blocks[..i];
      i := i + 1;
    }
    assert blocks[..|blocks|] == blocks;
  }

  /** `extractTechnicalKeywords`. */
  method ExtractTechnicalKeywords(blocks: seq<Blocks.Block>, stringify: Blocks.Block -> string)
    returns (keywords: seq<string>)
    ensures keywords == TechKeywords(blocks, stringify)
  {
    keywords := ScanBlocks(blocks, stringify, TechStack);
  }

  /** `title.toLowerCase().split(' ')`, keeping words longer than three
      characters that are not common words. */
  function TitleWords(title: string): seq<string>
  {
    var long := Seqs.Filter(Text.Split(Text.Lower(title), " "), (w: string) => |w| > 3);
    Seqs.Filter(long, (w: string) => w !in CommonWords)
  }

  lemma TitleWordsFacts(title: string)
    ensures forall k :: 0 <= k < |TitleWords(title)| ==>
      |TitleWords(title)[k]| > 3 && TitleWords(title)[k] !in CommonWords
      && TitleWords(title)[k] in Text.Split(Text.Lower(title), " ")
  {
  }

  /** The keywords assembled from the two fixed ones, up to three title words and
      the technical keywords, capped at ten. */
  function GeneratedKeywords(title: string, techKeywords: seq<string>): seq<string>
  {
    Take(FixedKeywords + Take(TitleWords(title), TitleWordLimit) + techKeywords, KeywordLimit)
  }

  /** The assembled list: the two fixed keywords, then title words (at most
      three of them), then technical keywords, ten at most. */
  lemma AssembledFacts(words: seq<string>, tech: seq<string>)
    ensures var r := Take(FixedKeywords + Take(words, TitleWordLimit) + tech, KeywordLimit);
      && 2 <= |r| <= KeywordLimit
      && r[0] == "Blog Post" && r[1] == "Edwin Promise"
      && forall k :: 2 <= k < |r| ==> (k < 2 + TitleWordLimit && r[k] in words) || r[k] in tech
  {
    var w := Take(words, TitleWordLimit);
    var all := FixedKeywords + w + tech;
    var r := Take(all, KeywordLimit);
    forall k | 2 <= k < |r| ensures (k < 2 + TitleWordLimit && r[k] in words) || r[k] in tech {
      assert r[k] == all[k];
      if k < 2 + |w| {
        assert all[k] == w[k - 2] == words[k - 2];
      } else {
        assert all[k] == tech[k - 2 - |w|];
      }
    }
  }

  lemma GeneratedKeywordsFacts(title: string, blocks: seq<Blocks.Block>, stringify: Blocks.Block -> string)
    ensures var r := GeneratedKeywords(title, TechKeywords(blocks, stringify));
      && 2 <= |r| <= KeywordLimit
      && r[0] == "Blog Post" && r[1] == "Edwin Promise"
      && forall k :: 2 <= k < |r| ==>
        (k < 2 + TitleWordLimit && |r[k]| > 3 && r[k] !in CommonWords)
        || (r[k] in TechStack && Mentioned(blocks, stringify, r[k]))
  {
    AssembledFacts(TitleWords(title), TechKeywords(blocks, stringify));
    TitleWordsFacts(title);
    TechKeywordsFacts(blocks, stringify);
  }

  /** `generateKeywordsFromBlog`. */
  method GenerateKeywords(blog: Blocks.BlogPost, stringify: Blocks.Block -> string)
    returns (keywords: seq<string>)
    ensures keywords == GeneratedKeywords(blog.title, TechKeywords(blog.blocks, stringify))
  {
    var titleWords := TitleWords(blog.title);
    var technical := ExtractTechnicalKeywords(blog.blocks, stringify);
    keywords := Take(FixedKeywords + Take(titleWords, TitleWordLimit) + technical, KeywordLimit);
  }

  // ---------------------------------------------------------- article body

  /** The text pieces one block contributes: paragraph, heading and callout
      text when non-empty, every list item; code and other blocks nothing. */
  function PartsOf(b: Blocks.Block): seq<string>
  {
    match b.kind
    case Paragraph => if ApiClient.Truthy(b.data.text) then [b.data.text.value] else []
    case Heading => if ApiClient.Truthy(b.data.text) then [b.data.text.value] else []
    case List => if b.data.items.Some? then b.data.items.value else []
    case Callout => if ApiClient.Truthy(b.data.text) then [b.data.text.value] else []
    case Code => []
    case Other(_) => []
  }

  function TextParts(blocks: seq<Blocks.Block>): seq<string>
    decreases |blocks|
  {
    if blocks == [] then [] else TextParts(blocks[..|blocks| - 1]) + PartsOf(blocks[|blocks| - 1])
  }

  lemma TextPartsSnoc(s: seq<Blocks.Block>, x: Blocks.Block)
    ensures TextParts(s + [x]) == TextParts(s) + PartsOf(x)
  {
    Seqs.DropLastAppend(s, [x]);
  }

  /** The pieces follow block order. */
  lemma {:induction false} TextPartsAppend(a: seq<Blocks.Block>, b: seq<Blocks.Block>)
    ensures TextParts(a + b) == TextParts(a) + TextParts(b)
    decreases |b|
  {
    if b == [] {
      assert a + b == a;
    } else {
      var init := b[..|b| - 1];
      Seqs.DropLastAppend(a, b);
      TextPartsAppend(a, init);
      Seqs.Assoc(TextParts(a), TextParts(init), PartsOf(b[|b| - 1]));
    }
  }

  /** A code block adds nothing to the article body. */
  lemma CodeBlockSkipped(a: seq<Blocks.Block>, code: Blocks.Block, b: seq<Blocks.Block>)
    requires code.kind == Blocks.Code
    ensures TextParts(a + [code] + b) == TextParts(a + b)
  {
    TextPartsAppend(a + [code], b);
    TextPartsSnoc(a, code);
    TextPartsAppend(a, b);
  }

  /** The schema's `articleBody`: the pieces joined by spaces, cut at 500. */
  function ArticleBody(blocks: seq<Blocks.Block>): (body: string)
    ensures |body| <= BodyLimit
    ensures body <= Text.Join(TextParts(blocks), " ")
    ensures |Text.Join(TextParts(blocks), " ")| <= BodyLimit ==> body == Text.Join(TextParts(blocks), " ")
  {
    Take(Text.Join(TextParts(blocks), " "), BodyLimit)
  }

  /** `extractTextFromBlocks`. */
  method ExtractText(blocks: seq<Blocks.Block>) returns (body: string)
    ensures body == ArticleBody(blocks)
  {
    var parts: seq<string> := [];
    var i := 0;
    while i < |blocks|
      invariant 0 <= i <= |blocks|
      invariant parts == TextParts(blocks[..i])
    {
      var b := blocks[i];
      if b.kind == Blocks.Paragraph && ApiClient.Truthy(b.data.text) {
        parts := parts + [b.data.text.value];
      } else if b.kind == Blocks.Heading && ApiClient.Truthy(b.data.text) {
        parts := parts + [b.data.text.value];
      } else if b.kind == Blocks.List && b.data.items.Some? {
        parts := parts + b.data.items.value;
      } else if b.kind == Blocks.Callout && ApiClient.Truthy(b.data.text) {
        parts := parts + [b.data.text.value];
      }
      assert blocks[..i + 1][..i] == blocks[..i];
      i := i + 1;
    }
    assert blocks[..|blocks|] == blocks;
    body := Take(Text.Join(parts, " "), BodyLimit);
  }

  /** `text.split(/\s+/).filter(word => word.length > 0).length`. */
  function WordCount(text: string): nat
  {
    |Text.NonEmpty(Text.SplitSpaceRuns(text))|
  }

  /** Every counted word is a non-empty run without whitespace. */
  lemma CountedWordsAreTokens(text: string)
    ensures forall w :: w in Text.NonEmpty(Text.SplitSpaceRuns(text)) ==> w != "" && Text.NoSpace(w)
  {
  }

  /** Every whitespace-separated word is counted: words joined by a whitespace
      separator, with any whitespace before and after, count as many words as
      there are. */
  lemma WordCountOfWords(pre: string, ws: seq<string>, sep: string, post: string)
    requires Text.Words(ws)
    requires sep != [] && Text.AllSpace(sep) && Text.AllSpace(pre) && Text.AllSpace(post)
    ensures WordCount(pre + Text.Join(ws, sep) + post) == |ws|
  {
    if ws == [] {
      assert pre + Text.Join(ws, sep) + post == pre + post;
      assert Text.AllSpace(pre + post) by {
        forall k | 0 <= k < |pre + post| ensures Text.IsSpace((pre + post)[k]) {
          if k >= |pre| {
            assert (pre + post)[k] == post[k - |pre|];
          }
        }
      }
      WordCountBlank(pre + post);
    } else {
      var a: seq<string> := if pre == [] then [] else [[]];
      var b: seq<string> := if post == [] then [] else [[]];
      Text.SplitSpaceRunsPadded(pre, ws, sep, post);
      Text.NonEmptyAppend(a + ws, b);
      Text.NonEmptyAppend(a, ws);
      Text.NonEmptyAll(ws);
    }
  }

  /** Text made only of whitespace has no words. */
  lemma WordCountBlank(text: string)
    requires Text.AllSpace(text)
    ensures WordCount(text) == 0
  {
    Text.SplitSpaceRunsBlank(text);
    assert Text.NonEmpty([[]]) == [];
    assert Text.NonEmpty([[], []]) == [];
  }

  /** `calculateWordCount`: the words of the (truncated) article body. */
  method CalculateWordCount(blocks: seq<Blocks.Block>) returns (count: nat)
    ensures count == WordCount(ArticleBody(blocks))
  {
    var text := ExtractText(blocks);
    count := WordCount(text);
  }

  // ------------------------------------------------------------------ SEO

  function BlogPath(slug: string): (path: string)
    ensures |path| >= 6 && path[..6] == "/blog/" && path[6..] == slug
  {
    "/blog/" + slug
  }

  /** The page metadata and the schema.org `BlogPosting` fields derived from
      the post; the fixed author and publisher records are not modelled. */
  datatype Seo = Seo(
    title: string,
    description: string,
    keywords: seq<string>,
    path: string,
    image: string,
    headline: string,
    schemaDescription: string,
    schemaImage: string,
    datePublished: string,
    dateModified: Option<string>,
    pageId: string,
    url: string,
    keywordsText: string,
    articleBody: string,
    wordCount: nat)

  /** The keywords used: the post's own when it has some, otherwise generated. */
  function KeywordChoice(metaKeywords: Option<seq<string>>, generated: seq<string>): (r: seq<string>)
    ensures metaKeywords.Some? && |metaKeywords.value| > 0 ==> r == metaKeywords.value
    ensures metaKeywords.None? || metaKeywords.value == [] ==> r == generated
  {
    if metaKeywords.Some? && |metaKeywords.value| > 0 then metaKeywords.value else generated
  }

  /** `a || b` on a nullable string. */
  function OrElse(a: Option<string>, b: string): (r: string)
    ensures ApiClient.Truthy(a) ==> r == a.value
    ensures !ApiClient.Truthy(a) ==> r == b
  {
    if ApiClient.Truthy(a) then a.value else b
  }

  /** `generateBlogSEO`. */
  method GenerateBlogSeo(blog: Blocks.BlogPost, imgSrc: string -> Option<string>, stringify: Blocks.Block -> string)
    returns (seo: Seo)
    ensures seo.title == OrElse(blog.metaTitle, blog.title) && seo.headline == seo.title
    ensures seo.description == OrElse(blog.metaDescription, blog.excerpt) && seo.schemaDescription == seo.description
    ensures seo.image == ImageChoice(blog.metaImage, FirstImage(blog.blocks, imgSrc)) && seo.schemaImage == seo.image
    ensures seo.keywords == KeywordChoice(blog.metaKeywords, GeneratedKeywords(blog.title, TechKeywords(blog.blocks, stringify)))
    ensures seo.keywordsText == Text.Join(seo.keywords, ", ")
    ensures seo.path == BlogPath(blog.slug) && seo.url == BaseUrl + seo.path && seo.pageId == seo.url
    ensures seo.datePublished == blog.date && seo.dateModified == blog.updatedAt
    ensures seo.articleBody == ArticleBody(blog.blocks)
    ensures seo.wordCount == WordCount(ArticleBody(blog.blocks))
  {
    var extracted := ExtractFirstImage(blog.blocks, imgSrc);
    var image := ImageChoice(blog.metaImage, extracted);
    var keywords: seq<string>;
    if blog.metaKeywords.Some? && |blog.metaKeywords.value| > 0 {
      keywords := blog.metaKeywords.value;
    } else {
      keywords := GenerateKeywords(blog, stringify);
    }
    var title := OrElse(blog.metaTitle, blog.title);
    var description := OrElse(blog.metaDescription, blog.excerpt);
    var path := "/blog/" + blog.slug;
    var url := BaseUrl + path;
    var body := ExtractText(blog.blocks);
    var count := CalculateWordCount(blog.blocks);
    seo := Seo(title, description, keywords, path, image, title, description, image,
               blog.date, blog.updatedAt, url, url, Text.Join(keywords, ", "), body, count);
  }

  /** A post with its own image and keywords keeps them whatever its blocks hold. */
  lemma OwnMetadataWins(blog: Blocks.BlogPost, imgSrc: string -> Option<string>, stringify: Blocks.Block -> string)
    requires ApiClient.Truthy(blog.metaImage) && blog.metaKeywords.Some? && blog.metaKeywords.value != []
    ensures ImageChoice(blog.metaImage, FirstImage(blog.blocks, imgSrc)) == blog.metaImage.value
    ensures KeywordChoice(blog.metaKeywords, GeneratedKeywords(blog.title, TechKeywords(blog.blocks, stringify)))
      == blog.metaKeywords.value
  {
  }
}
