/**
 * The search box of the blog listing. A blank query shows every post; any other
 * query keeps the posts whose title, description or one of whose tags contains the
 * lower-cased query. The query itself is lower-cased but not trimmed.
 *
 * A post without a title makes `post.title.toLowerCase()` throw, so a non-blank
 * search over such a list has no result (`None`).
 */
module BlogSearch {
  import opened Wrappers
  import opened Text
  import Seqs
  import opened BlogStore

  /** Every post has a title, so lower-casing the titles never throws. */
  predicate Titled(posts: seq<BlogPost>) {
    forall i :: 0 <= i < |posts| ==> posts[i].title.Some?
  }

  /** The lower-cased title, description or some lower-cased tag contains `q`. */
  predicate Matches(post: BlogPost, q: string)
    requires post.title.Some?
  {
    Contains(ToLower(post.title.value), q)
    || Contains(ToLower(post.description), q)
    || exists i :: 0 <= i < |post.tags| && Contains(ToLower(post.tags[i]), q)
  }

  /** The filter's callback for the lower-cased query `q`. */
  function Keeps(q: string): BlogPost -> bool {
    (p: BlogPost) => p.title.Some? && Matches(p, q)
  }

  /**
   * The posts the listing shows for `query`: all of them for a blank query,
   * otherwise exactly the matching ones, in their original order.
   */
  function Search(posts: seq<BlogPost>, query: string): (r: Option<seq<BlogPost>>)
    ensures Blank(query) ==> r == Some(posts)
    ensures !Blank(query) ==> (r.Some? <==> Titled(posts))
    ensures r.Some? && !Blank(query) ==>
      forall i :: 0 <= i < |r.value| ==> r.value[i] in posts && r.value[i].title.Some? && Matches(r.value[i], ToLower(query))
    ensures r.Some? && !Blank(query) ==>
      forall i :: 0 <= i < |posts| && Matches(posts[i], ToLower(query)) ==> posts[i] in r.value
  {
    if Blank(query) then Some(posts)
    else if !Titled(posts) then None
    else
      var kept := Seqs.Filter(posts, Keeps(ToLower(query)));
      assert forall i :: 0 <= i < |kept| ==> Keeps(ToLower(query))(kept[i]);
      Some(kept)
  }

  /** The result keeps the posts in the order the list had them. */
  lemma SearchIsSubseq(posts: seq<BlogPost>, query: string)
    ensures Search(posts, query).Some? ==> Seqs.IsSubseq(Search(posts, query).value, posts)
  {
    if Blank(query) {
      var all := (p: BlogPost) => true;
      Seqs.FilterIsSubseq(posts, all);
      assert Seqs.Filter(posts, all) == posts;
    } else if Titled(posts) {
      Seqs.FilterIsSubseq(posts, Keeps(ToLower(query)));
    }
  }

  /** Lower-casing a query does not change whether it is blank. */
  lemma BlankLower(query: string)
    ensures Blank(ToLower(query)) <==> Blank(query)
  {
    var lower := ToLower(query);
    forall i | 0 <= i < |query|
      ensures IsSpace(lower[i]) <==> IsSpace(query[i])
    {
      LowerKeepsSpace(query[i]);
    }
    assert AllSpace(lower) <==> AllSpace(query);
  }

  /** Queries that agree after lower-casing, such as "Rust" and "RUST", show the same posts. */
  lemma SearchCaseInsensitive(posts: seq<BlogPost>, q1: string, q2: string)
    requires ToLower(q1) == ToLower(q2)
    ensures Search(posts, q1) == Search(posts, q2)
  {
    BlankLower(q1);
    BlankLower(q2);
  }
}
