// The blog list of the admin dashboard: its search box keeps, in order, the
// posts whose title or excerpt contains the query, case-insensitively. The
// edit/create/save/cancel/delete handlers are `AdminManager.Manager`.
module BlogsManager {
  import Seqs
  import Blocks
  import AdminManager

  predicate BlogMatches(b: Blocks.BlogPost, query: string)
  {
    AdminManager.Mentions(b.title, query) || AdminManager.Mentions(b.excerpt, query)
  }

  function FilteredBlogs(blogs: seq<Blocks.BlogPost>, query: string): seq<Blocks.BlogPost>
  {
    Seqs.Filter(blogs, b => BlogMatches(b, query))
  }

  /** A post is listed exactly when it matches in its title or its excerpt. */
  lemma FilteredBlogsExact(blogs: seq<Blocks.BlogPost>, query: string, b: Blocks.BlogPost)
    ensures b in FilteredBlogs(blogs, query) <==>
      b in blogs && (AdminManager.Mentions(b.title, query) || AdminManager.Mentions(b.excerpt, query))
  {
    AdminManager.FilterExact(blogs, b => BlogMatches(b, query), b);
  }

  /** The search keeps the list's order: it works piece by piece. */
  lemma FilteredBlogsAppend(a: seq<Blocks.BlogPost>, b: seq<Blocks.BlogPost>, query: string)
    ensures FilteredBlogs(a + b, query) == FilteredBlogs(a, query) + FilteredBlogs(b, query)
  {
    Seqs.FilterAppend(a, b, b => BlogMatches(b, query));
  }

  /** An empty search box lists every post. */
  lemma EmptyQueryKeepsAllBlogs(blogs: seq<Blocks.BlogPost>)
    ensures FilteredBlogs(blogs, "") == blogs
  {
    forall k | 0 <= k < |blogs| ensures BlogMatches(blogs[k], "") {
      AdminManager.EmptyQueryMentioned(blogs[k].title);
    }
    Seqs.FilterAll(blogs, b => BlogMatches(b, ""));
  }
}
