/**
 * The blog post loader: posts are Markdown files `<slug>.md` or `<slug>.mdx` in the
 * posts directory, each a front-matter block followed by the body.
 *
 * The directory is a value here: absent, or a listing (in the order the file system
 * returns it) with the text of each file. Front-matter parsing belongs to a foreign
 * library and is the parameter `parse`, which answers `None` where the library throws.
 */
module BlogStore {
  import opened Wrappers
  import opened Text
  import Seqs

  /** The front-matter fields the blog reads; an absent field is `None`. */
  datatype FrontMatter = FrontMatter(
    title: Option<string>,
    date: Option<string>,
    description: Option<string>,
    tags: Option<seq<string>>,
    image: Option<string>)

  /** What the front-matter parser returns: the fields and the body after them. */
  datatype Matter = Matter(data: FrontMatter, content: string)

  datatype BlogPost = BlogPost(
    slug: string,
    title: Option<string>,
    date: Option<string>,
    description: string,
    content: string,
    tags: seq<string>,
    image: Option<string>)

  datatype PostsDir = Missing | Present(names: seq<string>, files: map<string, string>)

  // ------------------------------------------------------------ file names

  /** `fileName.endsWith('.md') || fileName.endsWith('.mdx')`. */
  predicate IsPostFile(name: string) {
    EndsWith(name, ".md") || EndsWith(name, ".mdx")
  }

  /** `fileName.replace(/\.mdx?$/, '')`: removes one trailing `.md` or `.mdx`. */
  function StripExt(name: string): (r: string)
    ensures EndsWith(name, ".mdx") ==> r + ".mdx" == name
    ensures !EndsWith(name, ".mdx") && EndsWith(name, ".md") ==> r + ".md" == name
    ensures !IsPostFile(name) ==> r == name
  {
    if EndsWith(name, ".mdx") then name[..|name| - 4]
    else if EndsWith(name, ".md") then name[..|name| - 3]
    else name
  }

  /** Every post file is its slug followed by one of the two extensions. */
  lemma SlugPlusExtension(name: string)
    requires IsPostFile(name)
    ensures StripExt(name) + ".md" == name || StripExt(name) + ".mdx" == name
  {
  }

  /** The post files of a listing, in listing order. */
  function PostFiles(names: seq<string>): (r: seq<string>)
    ensures forall i :: 0 <= i < |r| ==> IsPostFile(r[i]) && r[i] in names
    ensures forall i :: 0 <= i < |names| && IsPostFile(names[i]) ==> names[i] in r
  {
    Seqs.Filter(names, IsPostFile)
  }

  /** `getAllPostSlugs`: the slug of every post file; nothing when the directory is missing. */
  function GetAllPostSlugs(dir: PostsDir): (r: seq<string>)
    ensures dir.Missing? ==> r == []
    ensures dir.Present? ==> |r| == |PostFiles(dir.names)|
    ensures dir.Present? ==> forall i :: 0 <= i < |r| ==>
      (r[i] + ".md" == PostFiles(dir.names)[i] || r[i] + ".mdx" == PostFiles(dir.names)[i])
  {
    match dir
    case Missing => []
    case Present(names, _) =>
      var kept := PostFiles(names);
      forall i | 0 <= i < |kept| ensures StripExt(kept[i]) + ".md" == kept[i] || StripExt(kept[i]) + ".mdx" == kept[i] {
        SlugPlusExtension(kept[i]);
      }
      seq(|kept|, i requires 0 <= i < |kept| => StripExt(kept[i]))
  }

  // ------------------------------------------------------------ loading

  /** The post built from a parsed file, with `description || ''`, `tags || []` and `image || null`. */
  function ToPost(slug: string, m: Matter): (p: BlogPost)
    ensures p.slug == slug && p.title == m.data.title && p.date == m.data.date && p.content == m.content
    ensures p.description == "" <==> m.data.description in {None, Some("")}
    ensures m.data.description.Some? && m.data.description.value != "" ==> p.description == m.data.description.value
    ensures m.data.tags.None? ==> p.tags == []
    ensures m.data.tags.Some? ==> p.tags == m.data.tags.value
    ensures p.image.None? <==> m.data.image in {None, Some("")}
    ensures p.image.Some? ==> p.image == m.data.image
  {
    BlogPost(
      slug,
      m.data.title,
      m.data.date,
      m.data.description.GetOr(""),
      m.content,
      m.data.tags.GetOr([]),
      if m.data.image == Some("") then None else m.data.image)
  }

  /** Reads and parses one file; `None` when it cannot be read or parsed. */
  function ReadPost(files: map<string, string>, name: string, parse: string -> Option<Matter>): (r: Option<BlogPost>)
    ensures r.Some? <==> name in files && parse(files[name]).Some?
    ensures r.Some? ==> r.value == ToPost(StripExt(name), parse(files[name]).value)
  {
    if name in files && parse(files[name]).Some? then Some(ToPost(StripExt(name), parse(files[name]).value)) else None
  }

  /** Loads every listed post file in order; one failure fails the whole listing, as an exception would. */
  function LoadAll(files: map<string, string>, kept: seq<string>, parse: string -> Option<Matter>): (r: Option<seq<BlogPost>>)
    ensures r.Some? <==> forall i :: 0 <= i < |kept| ==> ReadPost(files, kept[i], parse).Some?
    ensures r.Some? ==> |r.value| == |kept|
    ensures r.Some? ==> forall i :: 0 <= i < |kept| ==> r.value[i] == ReadPost(files, kept[i], parse).value
  {
    if kept == [] then Some([])
    else
      match ReadPost(files, kept[0], parse)
      case None => None
      case Some(p) =>
        match LoadAll(files, kept[1..], parse)
        case None =>
          assert forall i :: 1 <= i < |kept| ==> kept[1..][i - 1] == kept[i];
          None
        case Some(ps) => Some([p] + ps)
  }

  // ------------------------------------------------------------ the date sort

  /** JavaScript `a.date < b.date`: string order when both dates are present; `undefined` compares false. */
  predicate DateLess(a: Option<string>, b: Option<string>) {
    a.Some? && b.Some? && LexLess(a.value, b.value)
  }

  /** Newest first: no post is followed by a post with a later date. */
  predicate NewestFirst(ps: seq<BlogPost>) {
    forall i, j :: 0 <= i < j < |ps| ==> !DateLess(ps[i].date, ps[j].date)
  }

  predicate AllDated(ps: seq<BlogPost>) {
    forall i :: 0 <= i < |ps| ==> ps[i].date.Some?
  }

  /**
   * Places `p` in front of the first post it is not earlier than, as a sort with
   * comparator `(a, b) => a.date < b.date ? 1 : -1` does.
   */
  function Insert(p: BlogPost, ps: seq<BlogPost>): (r: seq<BlogPost>)
    ensures multiset(r) == multiset(ps) + multiset{p}
    ensures |r| == |ps| + 1
    ensures forall i :: 0 <= i < |r| ==> r[i] == p || r[i] in ps
  {
    if ps == [] || !DateLess(p.date, ps[0].date) then [p] + ps
    else
      assert ps == [ps[0]] + ps[1..];
      [ps[0]] + Insert(p, ps[1..])
  }

  /** The date sort of `getAllPosts`. */
  function SortByDate(ps: seq<BlogPost>): (r: seq<BlogPost>)
    ensures multiset(r) == multiset(ps)
    ensures |r| == |ps|
  {
    if ps == [] then []
    else
      assert ps == [ps[0]] + ps[1..];
      Insert(ps[0], SortByDate(ps[1..]))
  }

  /** With both dates present, "not earlier" is transitive. */
  lemma NotEarlierTransitive(a: string, b: string, c: string)
    requires !LexLess(a, b) && !LexLess(b, c)
    ensures !LexLess(a, c)
  {
    LexTotal(a, b);
    LexTotal(b, c);
    if a != b && b != c {
      LexTransitive(c, b, a);
      LexAsymmetric(c, a);
    } else if a != b {
      LexAsymmetric(b, a);
    } else if b != c {
      LexAsymmetric(c, b);
    }
  }

  /** A post not earlier than the head of a newest-first list may go in front of it. */
  lemma InsertAtFront(p: BlogPost, ps: seq<BlogPost>)
    requires AllDated(ps) && p.date.Some? && NewestFirst(ps)
    requires ps == [] || !DateLess(p.date, ps[0].date)
    ensures NewestFirst([p] + ps)
  {
    var r := [p] + ps;
    forall i, j | 0 <= i < j < |r| ensures !DateLess(r[i].date, r[j].date) {
      if i == 0 && j > 1 {
        NotEarlierTransitive(p.date.value, ps[0].date.value, ps[j - 1].date.value);
      }
    }
  }

  /** The head of a newest-first list is not earlier than `p` when `p` is earlier, nor than any later post. */
  lemma HeadNotEarlier(p: BlogPost, ps: seq<BlogPost>, t: BlogPost)
    requires NewestFirst(ps) && ps != []
    requires DateLess(p.date, ps[0].date)
    requires t == p || t in ps[1..]
    ensures !DateLess(ps[0].date, t.date)
  {
    if t == p {
      LexAsymmetric(p.date.value, ps[0].date.value);
    } else {
      var k :| 0 <= k < |ps[1..]| && ps[1..][k] == t;
      assert ps[k + 1] == t;
    }
  }

  /** A head later than `p` stays in front of the list `p` was inserted into. */
  lemma InsertBehind(p: BlogPost, ps: seq<BlogPost>)
    requires AllDated(ps) && p.date.Some? && NewestFirst(ps) && ps != []
    requires DateLess(p.date, ps[0].date)
    requires NewestFirst(Insert(p, ps[1..]))
    ensures NewestFirst([ps[0]] + Insert(p, ps[1..]))
  {
    var tail := Insert(p, ps[1..]);
    var r := [ps[0]] + tail;
    forall i, j | 0 <= i < j < |r| ensures !DateLess(r[i].date, r[j].date) {
      if i == 0 {
        HeadNotEarlier(p, ps, tail[j - 1]);
      } else {
        assert r[i] == tail[i - 1] && r[j] == tail[j - 1];
      }
    }
  }

  lemma {:induction false} InsertKeepsOrder(p: BlogPost, ps: seq<BlogPost>)
    requires AllDated(ps) && p.date.Some? && NewestFirst(ps)
    ensures NewestFirst(Insert(p, ps))
    ensures AllDated(Insert(p, ps))
  {
    if ps == [] || !DateLess(p.date, ps[0].date) {
      InsertAtFront(p, ps);
    } else {
      InsertKeepsOrder(p, ps[1..]);
      InsertBehind(p, ps);
    }
  }

  /** When every post has a date, the sort puts them newest first. */
  lemma {:induction false} SortedNewestFirst(ps: seq<BlogPost>)
    requires AllDated(ps)
    ensures NewestFirst(SortByDate(ps))
    ensures AllDated(SortByDate(ps))
  {
    if ps != [] {
      SortedNewestFirst(ps[1..]);
      InsertKeepsOrder(ps[0], SortByDate(ps[1..]));
    }
  }

  /**
   * `getAllPosts`: every post file loaded with its defaults, then sorted by date;
   * `Some([])` when the directory is missing, `None` when a file fails to load.
   */
  function GetAllPosts(dir: PostsDir, parse: string -> Option<Matter>): (r: Option<seq<BlogPost>>)
    ensures dir.Missing? ==> r == Some([])
    ensures dir.Present? ==> (r.Some? <==> LoadAll(dir.files, PostFiles(dir.names), parse).Some?)
    ensures dir.Present? && r.Some? ==> multiset(r.value) == multiset(LoadAll(dir.files, PostFiles(dir.names), parse).value)
    ensures r.Some? && AllDated(r.value) ==> NewestFirst(r.value)
  {
    match dir
    case Missing => Some([])
    case Present(names, files) =>
      match LoadAll(files, PostFiles(names), parse)
      case None => None
      case Some(ps) =>
        var sorted := SortByDate(ps);
        AllDatedAfterSort(ps);
        Some(sorted)
  }

  /** Sorting neither adds nor removes dates. */
  lemma AllDatedAfterSort(ps: seq<BlogPost>)
    ensures AllDated(SortByDate(ps)) ==> AllDated(ps)
    ensures AllDated(ps) ==> NewestFirst(SortByDate(ps))
  {
    var r := SortByDate(ps);
    if AllDated(r) {
      forall i | 0 <= i < |ps| ensures ps[i].date.Some? {
        assert ps[i] in multiset(r);
      }
    }
    if AllDated(ps) {
      SortedNewestFirst(ps);
    }
  }

  /** Every loaded post comes from a post file of the listing and carries that file's slug. */
  lemma LoadedSlugs(dir: PostsDir, parse: string -> Option<Matter>)
    requires GetAllPosts(dir, parse).Some?
    ensures forall p :: p in GetAllPosts(dir, parse).value ==>
      dir.Present? && exists name :: name in dir.names && IsPostFile(name) && p.slug == StripExt(name)
  {
    if dir.Present? {
      var kept := PostFiles(dir.names);
      var loaded := LoadAll(dir.files, kept, parse).value;
      forall p | p in GetAllPosts(dir, parse).value
        ensures exists name :: name in dir.names && IsPostFile(name) && p.slug == StripExt(name)
      {
        assert p in multiset(loaded);
        var i :| 0 <= i < |loaded| && loaded[i] == p;
        assert kept[i] in dir.names && IsPostFile(kept[i]);
      }
    }
  }

  // ------------------------------------------------------------ one post

  /**
   * `getPostBySlug`: `<slug>.md` if it reads and parses, otherwise `<slug>.mdx`,
   * otherwise `None`. The post keeps the slug it was asked for.
   */
  function GetPostBySlug(dir: PostsDir, slug: string, parse: string -> Option<Matter>): (r: Option<BlogPost>)
    ensures r.Some? ==> r.value.slug == slug && dir.Present?
    ensures dir.Present? && ReadPost(dir.files, slug + ".md", parse).Some? ==>
      r == Some(ToPost(slug, parse(dir.files[slug + ".md"]).value))
    ensures dir.Present? && ReadPost(dir.files, slug + ".md", parse).None? ==>
      (r.Some? <==> ReadPost(dir.files, slug + ".mdx", parse).Some?)
    ensures dir.Present? && ReadPost(dir.files, slug + ".md", parse).None? && r.Some? ==>
      r.value == ToPost(slug, parse(dir.files[slug + ".mdx"]).value)
  {
    match dir
    case Missing => None
    case Present(_, files) =>
      var md := slug + ".md";
      var mdx := slug + ".mdx";
      if md in files && parse(files[md]).Some? then Some(ToPost(slug, parse(files[md]).value))
      else if mdx in files && parse(files[mdx]).Some? then Some(ToPost(slug, parse(files[mdx]).value))
      else None
  }
}
