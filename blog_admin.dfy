/**
 * The blog admin page: the slug derived from a new post's title, the client-side
 * check before the create request, and the tag list editor shared by the new-post
 * form and the post being edited.
 */
module BlogAdmin {
  import opened Wrappers
  import opened Text
  import Seqs
  import BlogStore
  import BlogPostsApi

  // ------------------------------------------------------------ slugs

  /** A character that survives `.replace(/[^\w\s-]/g, '')`. */
  predicate Kept(c: char) {
    IsWordChar(c) || IsSpace(c) || c == '-'
  }

  /** A character a derived slug may contain: `[a-z0-9_-]`. */
  predicate SlugChar(c: char) {
    ('a' <= c <= 'z') || ('0' <= c <= '9') || c == '_' || c == '-'
  }

  predicate AllSlugChars(s: string) {
    forall i :: 0 <= i < |s| ==> SlugChar(s[i])
  }

  /** `.replace(/[^\w\s-]/g, '')`. */
  function KeepSlugText(s: string): (r: string)
    ensures forall i :: 0 <= i < |r| ==> Kept(r[i]) && r[i] in s
    ensures (forall i :: 0 <= i < |s| ==> Kept(s[i])) ==> r == s
  {
    Seqs.Filter(s, Kept)
  }

  /** `.replace(/\s+/g, '-')`: each maximal run of whitespace becomes a single `-`. */
  function DashRuns(s: string): (r: string)
    ensures forall i :: 0 <= i < |r| ==> !IsSpace(r[i]) && (r[i] in s || r[i] == '-')
    ensures (forall i :: 0 <= i < |s| ==> !IsSpace(s[i])) ==> r == s
    decreases |s|
  {
    if s == [] then []
    else if IsSpace(s[0]) then
      var rest := TrimStart(s);
      assert |rest| < |s|;
      var tail := DashRuns(rest);
      assert forall i :: 0 <= i < |tail| && tail[i] in rest ==> tail[i] in s by {
        forall i | 0 <= i < |tail| && tail[i] in rest ensures tail[i] in s {
          var k :| 0 <= k < |rest| && rest[k] == tail[i];
          assert s[|s| - |rest| + k] == rest[k];
        }
      }
      "-" + tail
    else
      var tail := DashRuns(s[1..]);
      assert forall i :: 0 <= i < |tail| && tail[i] in s[1..] ==> tail[i] in s;
      [s[0]] + tail
  }

  /**
   * The slug `handleCreatePost` derives from a title: `toLowerCase()`, then
   * `replace(/[^\w\s-]/g, '')`, then `replace(/\s+/g, '-')`, then `trim()`.
   */
  function Slugify(title: string): string {
    Trim(DashRuns(KeepSlugText(ToLower(title))))
  }

  /** What the last two steps leave: no whitespace, and only kept, lower-cased characters. */
  lemma DashedIsSlug(title: string)
    ensures AllSlugChars(DashRuns(KeepSlugText(ToLower(title))))
  {
    var lower := ToLower(title);
    var kept := KeepSlugText(lower);
    var dashed := DashRuns(kept);
    forall i | 0 <= i < |dashed| ensures SlugChar(dashed[i]) {
      if dashed[i] != '-' {
        var k :| 0 <= k < |kept| && kept[k] == dashed[i];
        var j :| 0 <= j < |lower| && lower[j] == kept[k];
        assert lower[j] == LowerChar(title[j]);
      }
    }
  }

  /** A derived slug holds only `[a-z0-9_-]`: underscores survive, whitespace and upper case do not. */
  lemma SlugifyChars(title: string)
    ensures AllSlugChars(Slugify(title))
  {
    DashedIsSlug(title);
    SlugTrimmed(DashRuns(KeepSlugText(ToLower(title))));
  }

  /** A string made of slug characters is its own slug. */
  lemma SlugifyFixed(s: string)
    requires AllSlugChars(s)
    ensures Slugify(s) == s
  {
    assert ToLower(s) == s;
    assert KeepSlugText(s) == s by {
      assert forall i :: 0 <= i < |s| ==> Kept(s[i]);
    }
    assert DashRuns(s) == s by {
      assert forall i :: 0 <= i < |s| ==> !IsSpace(s[i]);
    }
    assert Trimmed(s) by {
      if s != [] {
        assert SlugChar(s[0]) && SlugChar(s[|s| - 1]);
      }
    }
  }

  /** A title is left unchanged by slug derivation exactly when it already consists of slug characters. */
  lemma SlugifyFixedIff(s: string)
    ensures Slugify(s) == s <==> AllSlugChars(s)
  {
    SlugifyChars(s);
    if AllSlugChars(s) {
      SlugifyFixed(s);
    }
  }

  /** Deriving a slug from a slug changes nothing. */
  lemma SlugifyIdempotent(title: string)
    ensures Slugify(Slugify(title)) == Slugify(title)
  {
    SlugifyChars(title);
    SlugifyFixed(Slugify(title));
  }

  /** A string of slug characters has no surrounding whitespace to trim. */
  lemma SlugTrimmed(x: string)
    requires AllSlugChars(x)
    ensures Trim(x) == x
  {
    assert Trimmed(x) by {
      if x != [] {
        assert SlugChar(x[0]) && SlugChar(x[|x| - 1]);
      }
    }
  }

  lemma DashRunsWord(c: char, s: string)
    requires !IsSpace(c)
    ensures DashRuns([c] + s) == [c] + DashRuns(s)
  {
    assert ([c] + s)[1..] == s;
  }

  /** A whole run of whitespace, however long, turns into one dash. */
  lemma DashRunsRun(w: string, s: string)
    requires w != [] && AllSpace(w)
    requires s == [] || !IsSpace(s[0])
    ensures DashRuns(w + s) == "-" + DashRuns(s)
  {
    TrimStartOfRun(w, s);
    assert (w + s)[0] == w[0];
  }

  lemma TrimStartOfRun(w: string, s: string)
    requires AllSpace(w)
    requires s == [] || !IsSpace(s[0])
    ensures TrimStart(w + s) == s
  {
    assert (w + s)[|w|..] == s;
  }

  // ------------------------------------------------------------ the page state

  /** The new-post form. */
  datatype Draft = Draft(title: string, date: string, description: string, content: string, tags: seq<string>)

  /** The form after a reset: empty fields, today's date and no tags. */
  function EmptyDraft(today: string): Draft {
    Draft("", today, "", "", [])
  }

  /** How the create request ended: an ok response, a refusal (with the body's `error`, if any), or an exception. */
  datatype Reply = Ok | Rejected(error: Option<string>) | Thrown

  const RequiredMessage := "Title and content are required"

  /** `tags.filter(t => t !== tag)`. */
  function WithoutTag(tags: seq<string>, tag: string): (r: seq<string>)
    ensures tag !in r
    ensures forall i :: 0 <= i < |tags| && tags[i] != tag ==> tags[i] in r
    ensures forall i :: 0 <= i < |r| ==> r[i] in tags
    ensures tag !in tags ==> r == tags
  {
    Seqs.Filter(tags, t => t != tag)
  }

  class BlogAdminPage {
    var newPost: Draft
    var editingPost: Option<BlogStore.BlogPost>
    var newTag: string
    var error: string
    var isCreating: bool

    constructor(today: string)
      ensures newPost == EmptyDraft(today) && editingPost == None && newTag == "" && error == "" && !isCreating
    {
      newPost := EmptyDraft(today);
      editingPost := None;
      newTag := "";
      error := "";
      isCreating := false;
    }

    /**
     * `handleCreatePost`: without a title or content it only sets the error and
     * sends nothing; otherwise it sends the form with the derived slug, and resets
     * the form only when the reply is ok. `today` is the date the reset form gets.
     */
    method HandleCreatePost(reply: Reply, today: string) returns (sent: Option<BlogPostsApi.PostRequest>)
      modifies this
      ensures old(newPost.title) == "" || old(newPost.content) == "" ==>
        (sent == None && error == RequiredMessage
        && newPost == old(newPost) && isCreating == old(isCreating))
      ensures old(newPost.title) != "" && old(newPost.content) != "" ==>
        sent == Some(BlogPostsApi.PostRequest(
          Some(old(newPost.title)), Some(old(newPost.content)), Some(old(newPost.description)),
          Some(old(newPost.date)), Some(old(newPost.tags)), Some(Slugify(old(newPost.title)))))
      ensures sent.Some? && reply == Ok ==> newPost == EmptyDraft(today) && !isCreating && error == old(error)
      ensures sent.Some? && reply.Rejected? ==> (newPost == old(newPost) && isCreating == old(isCreating)
        && error == (if reply.error.Some? && reply.error.value != "" then reply.error.value else "Failed to create post"))
      ensures sent.Some? && reply == Thrown ==>
        newPost == old(newPost) && isCreating == old(isCreating) && error == "Error creating post"
      ensures editingPost == old(editingPost) && newTag == old(newTag)
    {
      if newPost.title == "" || newPost.content == "" {
        error := RequiredMessage;
        return None;
      }
      var slug := Slugify(newPost.title);
      sent := Some(BlogPostsApi.PostRequest(
        Some(newPost.title), Some(newPost.content), Some(newPost.description),
        Some(newPost.date), Some(newPost.tags), Some(slug)));
      match reply
      case Ok =>
        newPost := EmptyDraft(today);
        isCreating := false;
      case Rejected(message) =>
        error := if message.Some? && message.value != "" then message.value else "Failed to create post";
      case Thrown =>
        error := "Error creating post";
    }

    /**
     * `addTag`: a blank input is ignored; otherwise the trimmed input is appended
     * to the tags of the post being edited, or of the new post, and the input is cleared.
     */
    method AddTag()
      modifies this
      ensures Trim(old(newTag)) == "" ==>
        newTag == old(newTag) && newPost == old(newPost) && editingPost == old(editingPost)
      ensures Trim(old(newTag)) != "" && old(editingPost).Some? ==>
        (editingPost == Some(old(editingPost).value.(tags := old(editingPost).value.tags + [Trim(old(newTag))]))
        && newPost == old(newPost) && newTag == "")
      ensures Trim(old(newTag)) != "" && old(editingPost).None? ==>
        (newPost == old(newPost).(tags := old(newPost).tags + [Trim(old(newTag))])
        && editingPost == old(editingPost) && newTag == "")
      ensures error == old(error) && isCreating == old(isCreating)
    {
      var tag := Trim(newTag);
      if tag == "" {
        return;
      }
      if editingPost.Some? {
        editingPost := Some(editingPost.value.(tags := editingPost.value.tags + [tag]));
      } else {
        newPost := newPost.(tags := newPost.tags + [tag]);
      }
      newTag := "";
    }

    /** `removeTag`: drops every occurrence of `tag` from the edited post's tags, or the new post's. */
    method RemoveTag(tag: string)
      modifies this
      ensures old(editingPost).Some? ==>
        (editingPost == Some(old(editingPost).value.(tags := WithoutTag(old(editingPost).value.tags, tag)))
        && newPost == old(newPost))
      ensures old(editingPost).None? ==>
        newPost == old(newPost).(tags := WithoutTag(old(newPost).tags, tag)) && editingPost == None
      ensures newTag == old(newTag) && error == old(error) && isCreating == old(isCreating)
    {
      if editingPost.Some? {
        editingPost := Some(editingPost.value.(tags := WithoutTag(editingPost.value.tags, tag)));
      } else {
        newPost := newPost.(tags := WithoutTag(newPost.tags, tag));
      }
    }
  }

  /** Removing a tag just added (to a list without it) restores the list. */
  lemma RemoveAddedTag(tags: seq<string>, tag: string)
    requires tag !in tags
    ensures WithoutTag(tags + [tag], tag) == tags
  {
    FilterAppend(tags, [tag], t => t != tag);
    assert WithoutTag([tag], tag) == [];
  }

  lemma {:induction false} FilterAppend<T>(a: seq<T>, b: seq<T>, p: T -> bool)
    ensures Seqs.Filter(a + b, p) == Seqs.Filter(a, p) + Seqs.Filter(b, p)
  {
    if a != [] {
      FilterAppend(a[1..], b, p);
      assert (a + b)[1..] == a[1..] + b;
    } else {
      assert a + b == b;
    }
  }

  /** A title of punctuation alone passes the page's check but yields the empty slug, which the endpoint refuses. */
  lemma PunctuationTitleRefused()
    ensures Slugify("!!!") == ""
    ensures !BlogPostsApi.Complete(BlogPostsApi.PostRequest(Some("!!!"), Some("x"), None, None, None, Some(Slugify("!!!"))))
  {
    assert ToLower("!!!") == "!!!";
    assert KeepSlugText("!!!") == "";
  }
}
