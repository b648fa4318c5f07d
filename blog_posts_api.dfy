/**
 * The admin endpoint that creates a blog post, `POST /api/admin/blog/posts`. It
 * checks the required fields, fills in the front-matter defaults, and writes
 * `<slug>.md` into the posts directory, replacing any file of that name.
 *
 * Printing the front matter belongs to a foreign library and is the parameter
 * `stringify`. The current time `new Date().toISOString()` is the parameter `now`.
 */
module BlogPostsApi {
  import opened Wrappers
  import opened BlogStore

  /** The request body's fields; an absent field is `None`. */
  datatype PostRequest = PostRequest(
    title: Option<string>,
    content: Option<string>,
    description: Option<string>,
    date: Option<string>,
    tags: Option<seq<string>>,
    slug: Option<string>)

  datatype CreateReply = Created(slug: string) | Refused(status: int, message: string)

  const RequiredMessage := "Title, content, and slug are required"
  const CreateFailedMessage := "Failed to create blog post"

  /** JavaScript truthiness of an optional string field. */
  predicate Filled(x: Option<string>) {
    x.Some? && x.value != ""
  }

  /** The request passes the route's `!title || !content || !slug` check. */
  predicate Complete(req: PostRequest) {
    Filled(req.title) && Filled(req.content) && Filled(req.slug)
  }

  /**
   * The front matter written for a request: its title, `date || now`,
   * `description || ''` and `tags || []`.
   */
  function NewFrontMatter(req: PostRequest, now: string): (fm: FrontMatter)
    ensures fm.title == req.title && fm.image.None?
    ensures Filled(req.date) ==> fm.date == req.date
    ensures !Filled(req.date) ==> fm.date == Some(now)
    ensures Filled(req.description) ==> fm.description == req.description
    ensures !Filled(req.description) ==> fm.description == Some("")
    ensures fm.tags == Some(req.tags.GetOr([]))
  {
    FrontMatter(
      req.title,
      if Filled(req.date) then req.date else Some(now),
      if Filled(req.description) then req.description else Some(""),
      Some(req.tags.GetOr([])),
      None)
  }

  /** The name of the file a slug is stored under: a post file the listing reads back as the same slug. */
  function FileName(slug: string): (r: string)
    ensures IsPostFile(r) && StripExt(r) == slug
  {
    var name := slug + ".md";
    assert name[|name| - 3..] == ".md";
    assert name[|name| - 1] != ".mdx"[3];
    assert name[..|name| - 3] == slug;
    name
  }

  /** The posts directory; its initialisation creates it when missing, so it always exists here. */
  class PostsFolder {
    var names: seq<string>
    var files: map<string, string>

    constructor(names0: seq<string>, files0: map<string, string>)
      ensures names == names0 && files == files0
    {
      names := names0;
      files := files0;
    }

    /** The folder as the loader sees it. */
    function Dir(): PostsDir
      reads this
    {
      Present(names, files)
    }

    /**
     * POST with the parsed request body (`None` when `req.json()` fails). Only a
     * complete request writes, and it writes exactly `<slug>.md`.
     */
    method Create(body: Option<PostRequest>, now: string, stringify: (string, FrontMatter) -> string)
      returns (reply: CreateReply)
      modifies this
      ensures body.None? ==> reply == Refused(500, CreateFailedMessage) && files == old(files) && names == old(names)
      ensures body.Some? && !Complete(body.value) ==>
        reply == Refused(400, RequiredMessage) && files == old(files) && names == old(names)
      ensures body.Some? && Complete(body.value) ==>
        (reply == Created(body.value.slug.value)
        && files == old(files)[FileName(body.value.slug.value) :=
             stringify(body.value.content.value, NewFrontMatter(body.value, now))]
        && (FileName(body.value.slug.value) in old(names) ==> names == old(names))
        && (FileName(body.value.slug.value) !in old(names) ==> names == old(names) + [FileName(body.value.slug.value)]))
    {
      if body.None? {
        return Refused(500, CreateFailedMessage);
      }
      var req := body.value;
      if !Complete(req) {
        return Refused(400, RequiredMessage);
      }
      var name := FileName(req.slug.value);
      files := files[name := stringify(req.content.value, NewFrontMatter(req, now))];
      if name !in names {
        names := names + [name];
      }
      reply := Created(req.slug.value);
    }
  }

  /**
   * Reading back what was created: when the parser recovers what the printer wrote,
   * the slug's post has the request's title, content and the defaulted fields.
   */
  lemma CreateThenRead(names: seq<string>, files: map<string, string>, req: PostRequest, now: string,
                       stringify: (string, FrontMatter) -> string, parse: string -> Option<Matter>)
    requires Complete(req)
    requires parse(stringify(req.content.value, NewFrontMatter(req, now)))
      == Some(Matter(NewFrontMatter(req, now), req.content.value))
    ensures var after := files[FileName(req.slug.value) := stringify(req.content.value, NewFrontMatter(req, now))];
      var post := GetPostBySlug(Present(names, after), req.slug.value, parse);
      post.Some? && post.value.slug == req.slug.value && post.value.title == req.title
      && post.value.content == req.content.value && post.value.tags == req.tags.GetOr([])
      && post.value.date == NewFrontMatter(req, now).date && post.value.image.None?
  {
    var fm := NewFrontMatter(req, now);
    var after := files[FileName(req.slug.value) := stringify(req.content.value, fm)];
    assert ReadPost(after, req.slug.value + ".md", parse).Some?;
  }
}
