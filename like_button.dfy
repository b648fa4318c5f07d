/**
 * The like button under a blog post: the post's like count and whether the
 * signed-in reader has liked it. Pressing the button toggles the like on the
 * server and, when the server agrees, on the page.
 *
 * The replies of the like API are parameters: `None` is a request that threw, and
 * a boolean `ok` is the response's `ok` flag.
 */
module LikeButtons {
  import opened Wrappers

  /** What the button shows: liked or not, and the count. */
  datatype Likes = Likes(liked: bool, count: int)

  /** The page's update after a successful toggle: the flag flips and the count follows it. */
  function Toggled(s: Likes): (r: Likes)
    ensures r.liked == !s.liked
    ensures r.liked ==> r.count == s.count + 1
    ensures !r.liked ==> r.count == s.count - 1
  {
    var newLiked := !s.liked;
    Likes(newLiked, if newLiked then s.count + 1 else s.count - 1)
  }

  /** Two successful toggles give back the liked flag and the count the reader started from. */
  lemma {:induction false} TwoTogglesRestore(s: Likes)
    ensures Toggled(Toggled(s)) == s
  {
    var once := Toggled(s);
    var twice := Toggled(once);
    assert twice.liked == s.liked;
    if s.liked {
      assert once.count == s.count - 1 && twice.count == once.count + 1;
    } else {
      assert once.count == s.count + 1 && twice.count == once.count - 1;
    }
  }

  /**
   * The count stays in step with the flag: when it is the count of the other
   * readers plus one for a liked post, a toggle keeps it so.
   */
  lemma ToggleKeepsOthers(s: Likes, others: int)
    requires s.count == others + (if s.liked then 1 else 0)
    ensures Toggled(s).count == others + (if Toggled(s).liked then 1 else 0)
  {
  }

  class LikeButton {
    var liked: bool
    var likesCount: int
    var isLoading: bool

    constructor()
      ensures !liked && likesCount == 0 && isLoading
    {
      liked := false;
      likesCount := 0;
      isLoading := true;
    }

    function State(): Likes
      reads this
    {
      Likes(liked, likesCount)
    }

    /**
     * `fetchLikes`: the post's count, then, for a signed-in reader, whether they
     * liked it (`userLiked` is the truthiness of the reply's `liked`). A request
     * that throws ends the fetch; loading ends in every case.
     */
    method FetchLikes(count: Option<int>, signedIn: bool, userLiked: Option<bool>)
      modifies this
      ensures count.Some? ==> likesCount == count.value
      ensures count.None? ==> likesCount == old(likesCount)
      ensures count.Some? && signedIn && userLiked.Some? ==> liked == userLiked.value
      ensures !(count.Some? && signedIn && userLiked.Some?) ==> liked == old(liked)
      ensures !isLoading
    {
      if count.Some? {
        likesCount := count.value;
        if signedIn && userLiked.Some? {
          liked := userLiked.value;
        }
      }
      isLoading := false;
    }

    /**
     * `handleLike`: a signed-out reader changes nothing. Otherwise the toggle is
     * sent, and only an ok response toggles what the button shows.
     */
    method HandleLike(signedIn: bool, ok: bool) returns (sent: bool)
      modifies this
      ensures sent == signedIn
      ensures signedIn && ok ==> State() == Toggled(old(State()))
      ensures !(signedIn && ok) ==> State() == old(State())
      ensures isLoading == old(isLoading)
    {
      if !signedIn {
        return false;
      }
      sent := true;
      if ok {
        var next := Toggled(State());
        liked := next.liked;
        likesCount := next.count;
      }
    }
  }
}
