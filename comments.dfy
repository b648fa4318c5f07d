/**
 * The comment section under a blog post: how a comment's author is shown, who may
 * edit or delete it, and the form state of posting, editing and deleting comments.
 *
 * The replies of the comment API are parameters: `None` or `false` is a failed
 * request, whether the server refused it or the request threw. The list is fetched
 * again after every change. That fetch is not awaited and is `FetchComments` here.
 */
module Comments {
  import opened Wrappers
  import opened Text

  /** The author's account, when the comment was written by a signed-in user. */
  datatype Account = Account(name: Option<string>)

  datatype Comment = Comment(
    id: string,
    content: string,
    userId: Option<string>,
    authorName: Option<string>,
    ipAddress: Option<string>,
    user: Option<Account>)

  /** JavaScript truthiness of an optional string. */
  predicate Filled(x: Option<string>) {
    x.Some? && x.value != ""
  }

  const AnonymousLabel := "\U{533F}\U{540D}"
  const GuestPrefix := "\U{8A2A}\U{5BA2} ("

  /** `ipParts[i]` in a template string: the part, or `"undefined"` past the end. */
  function Part(parts: seq<string>, i: nat): string {
    if i < |parts| then parts[i] else "undefined"
  }

  /** The guest label for an address: its first, second and fourth dot-separated parts, the third masked. */
  function MaskedAddress(ip: string): (r: string)
    ensures StartsWith(r, GuestPrefix) && EndsWith(r, ")")
  {
    var parts := SplitOn(ip, '.');
    GuestPrefix + Part(parts, 0) + "." + Part(parts, 1) + ".***." + Part(parts, 3) + ")"
  }

  /**
   * `displayAuthor`: the account name, else the name given with the comment, else
   * the masked address, else the anonymous label. An empty name counts as missing.
   */
  function DisplayAuthor(c: Comment): (r: string)
    ensures c.user.Some? && Filled(c.user.value.name) ==> r == c.user.value.name.value
    ensures !(c.user.Some? && Filled(c.user.value.name)) && Filled(c.authorName) ==> r == c.authorName.value
    ensures !(c.user.Some? && Filled(c.user.value.name)) && !Filled(c.authorName) ==>
      (Filled(c.ipAddress) ==> r == MaskedAddress(c.ipAddress.value))
      && (!Filled(c.ipAddress) ==> r == AnonymousLabel)
  {
    if c.user.Some? && Filled(c.user.value.name) then c.user.value.name.value
    else if Filled(c.authorName) then c.authorName.value
    else if Filled(c.ipAddress) then MaskedAddress(c.ipAddress.value)
    else AnonymousLabel
  }

  /** A dotted address `a.b.c.d`. */
  function Dotted(a: string, b: string, c: string, d: string): string {
    a + "." + b + "." + c + "." + d
  }

  /** A dotted address splits back into its four parts. */
  lemma SplitDotted(a: string, b: string, c: string, d: string)
    requires '.' !in a && '.' !in b && '.' !in c && '.' !in d
    ensures SplitOn(Dotted(a, b, c, d), '.') == [a, b, c, d]
  {
    var t3 := c + ['.'] + d;
    var t2 := b + ['.'] + t3;
    assert Dotted(a, b, c, d) == a + ['.'] + t2;
    SplitCons(a, '.', t2);
    SplitCons(b, '.', t3);
    SplitCons(c, '.', d);
    SplitNoSep(d, '.');
  }

  /** An IPv4 address is shown with its third part masked: "1.2.3.4" as "1.2.***.4". */
  lemma MaskedDotted(a: string, b: string, c: string, d: string)
    requires '.' !in a && '.' !in b && '.' !in c && '.' !in d
    ensures MaskedAddress(Dotted(a, b, c, d)) == GuestPrefix + a + "." + b + ".***." + d + ")"
  {
    SplitDotted(a, b, c, d);
  }

  /** The third part never shows: two addresses that differ only there look the same. */
  lemma ThirdPartHidden(a: string, b: string, c: string, c': string, d: string)
    requires '.' !in a && '.' !in b && '.' !in c && '.' !in c' && '.' !in d
    ensures MaskedAddress(Dotted(a, b, c, d)) == MaskedAddress(Dotted(a, b, c', d))
  {
    MaskedDotted(a, b, c, d);
    MaskedDotted(a, b, c', d);
  }

  /**
   * An address without dots, such as an IPv6 address, is shown whole, followed by
   * the text of the missing parts.
   */
  lemma UndottedAddressShown(ip: string)
    requires '.' !in ip
    ensures MaskedAddress(ip) == GuestPrefix + ip + "." + "undefined" + ".***." + "undefined" + ")"
  {
    SplitNoSep(ip, '.');
    var parts := SplitOn(ip, '.');
    assert Part(parts, 0) == ip;
    assert Part(parts, 1) == "undefined" && Part(parts, 3) == "undefined";
  }

  /**
   * The edit and delete controls of a comment: shown only to the signed-in user
   * who wrote it. `viewer` is the session user's id, `None` when signed out.
   */
  predicate CanModify(viewer: Option<string>, c: Comment) {
    viewer.Some? && c.userId == viewer
  }

  /** Nobody may modify a comment written without an account, and at most one user may modify any other. */
  lemma OnlyTheAuthorModifies(v1: Option<string>, v2: Option<string>, c: Comment)
    ensures c.userId.None? ==> !CanModify(v1, c)
    ensures CanModify(v1, c) && CanModify(v2, c) ==> v1 == v2
  {
  }

  const LoadError := "\U{7121}\U{6CD5}\U{8F09}\U{5165}\U{8A55}\U{8AD6}"
  const SubmitError := "\U{8A55}\U{8AD6}\U{767C}\U{4F48}\U{5931}\U{6557}"
  const UpdateError := "\U{66F4}\U{65B0}\U{8A55}\U{8AD6}\U{5931}\U{6557}"
  const DeleteError := "\U{522A}\U{9664}\U{8A55}\U{8AD6}\U{5931}\U{6557}"

  class CommentSection {
    var comments: seq<Comment>
    var isLoading: bool
    var commentText: string
    var submitting: bool
    var error: string
    var editingCommentId: Option<string>
    var editText: string

    constructor()
      ensures comments == [] && isLoading && commentText == "" && !submitting
      ensures error == "" && editingCommentId.None? && editText == ""
    {
      comments := [];
      isLoading := true;
      commentText := "";
      submitting := false;
      error := "";
      editingCommentId := None;
      editText := "";
    }

    /** `fetchComments` with the list the server answered, `None` when the request failed. */
    method FetchComments(reply: Option<seq<Comment>>)
      modifies this
      ensures reply.Some? ==> comments == reply.value && error == old(error)
      ensures reply.None? ==> comments == old(comments) && error == LoadError
      ensures !isLoading
      ensures commentText == old(commentText) && submitting == old(submitting)
      ensures editingCommentId == old(editingCommentId) && editText == old(editText)
    {
      isLoading := true;
      if reply.Some? {
        comments := reply.value;
      } else {
        error := LoadError;
      }
      isLoading := false;
    }

    /**
     * `handleSubmitComment`: a blank comment is not sent. Otherwise the text is sent;
     * success clears the input, failure keeps it and shows the error.
     */
    method SubmitComment(ok: bool) returns (sent: Option<string>)
      modifies this
      ensures Blank(old(commentText)) ==>
        sent.None? && commentText == old(commentText) && error == old(error) && submitting == old(submitting)
      ensures !Blank(old(commentText)) ==> sent == Some(old(commentText)) && !submitting
      ensures !Blank(old(commentText)) && ok ==> commentText == "" && error == ""
      ensures !Blank(old(commentText)) && !ok ==> commentText == old(commentText) && error == SubmitError
      ensures comments == old(comments) && isLoading == old(isLoading)
      ensures editingCommentId == old(editingCommentId) && editText == old(editText)
    {
      if Blank(commentText) {
        return None;
      }
      submitting := true;
      error := "";
      sent := Some(commentText);
      if ok {
        commentText := "";
      } else {
        error := SubmitError;
      }
      submitting := false;
    }

    /** `handleEditComment`: the comment's text goes into the edit box. */
    method EditComment(c: Comment)
      modifies this
      ensures editingCommentId == Some(c.id) && editText == c.content
      ensures comments == old(comments) && commentText == old(commentText) && error == old(error)
      ensures isLoading == old(isLoading) && submitting == old(submitting)
    {
      editingCommentId := Some(c.id);
      editText := c.content;
    }

    /** The cancel button of the edit box. */
    method CancelEdit()
      modifies this
      ensures editingCommentId.None? && editText == old(editText)
      ensures comments == old(comments) && commentText == old(commentText) && error == old(error)
      ensures isLoading == old(isLoading) && submitting == old(submitting)
    {
      editingCommentId := None;
    }

    /**
     * `handleUpdateComment`: a blank edit is not sent. Otherwise the edit is sent for
     * `id`; success closes the edit box, failure keeps it open and shows the error.
     */
    method UpdateComment(id: string, ok: bool) returns (sent: Option<(string, string)>)
      modifies this
      ensures Blank(old(editText)) ==>
        sent.None? && editingCommentId == old(editingCommentId) && error == old(error) && submitting == old(submitting)
      ensures !Blank(old(editText)) ==> sent == Some((id, old(editText))) && !submitting
      ensures !Blank(old(editText)) && ok ==> editingCommentId.None? && error == ""
      ensures !Blank(old(editText)) && !ok ==> editingCommentId == old(editingCommentId) && error == UpdateError
      ensures editText == old(editText) && comments == old(comments)
      ensures commentText == old(commentText) && isLoading == old(isLoading)
    {
      if Blank(editText) {
        return None;
      }
      submitting := true;
      error := "";
      sent := Some((id, editText));
      if ok {
        editingCommentId := None;
      } else {
        error := UpdateError;
      }
      submitting := false;
    }

    /**
     * `handleDeleteComment`: nothing happens unless the user confirms; then the
     * delete is sent and only a failure leaves a message.
     */
    method DeleteComment(id: string, confirmed: bool, ok: bool) returns (sent: Option<string>)
      modifies this
      ensures !confirmed ==> sent.None? && error == old(error)
      ensures confirmed ==> sent == Some(id) && error == (if ok then "" else DeleteError)
      ensures comments == old(comments) && commentText == old(commentText) && submitting == old(submitting)
      ensures editingCommentId == old(editingCommentId) && editText == old(editText) && isLoading == old(isLoading)
    {
      if !confirmed {
        return None;
      }
      error := "";
      sent := Some(id);
      if !ok {
        error := DeleteError;
      }
    }
  }
}
