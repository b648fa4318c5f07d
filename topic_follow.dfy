/**
 * The follow button of a blog topic: whether the signed-in reader follows it.
 * The replies of the follow API are parameters.
 */
module TopicFollow {
  import opened Wrappers

  class TopicFollowButton {
    var following: bool
    var isLoading: bool

    constructor()
      ensures !following && isLoading
    {
      following := false;
      isLoading := true;
    }

    /**
     * `checkFollowStatus`: a signed-out reader only ends loading. For a signed-in
     * reader, `reply` is `None` when the request threw, and otherwise the reply's
     * `following`, itself `None` when absent (an `undefined` that shows as not
     * following). Loading ends in every case.
     */
    method CheckFollowStatus(signedIn: bool, reply: Option<Option<bool>>)
      modifies this
      ensures signedIn && reply.Some? ==> following == reply.value.GetOr(false)
      ensures !(signedIn && reply.Some?) ==> following == old(following)
      ensures !isLoading
    {
      if signedIn && reply.Some? {
        following := reply.value.GetOr(false);
      }
      isLoading := false;
    }

    /**
     * `toggleFollow`: a signed-out reader changes nothing. Otherwise the toggle is
     * sent, and only an ok response flips the flag.
     */
    method ToggleFollow(signedIn: bool, ok: bool) returns (sent: bool)
      modifies this
      ensures sent == signedIn
      ensures signedIn && ok ==> following == !old(following)
      ensures !(signedIn && ok) ==> following == old(following)
      ensures isLoading == old(isLoading)
    {
      if !signedIn {
        return false;
      }
      sent := true;
      if ok {
        following := !following;
      }
    }
  }

  /** A signed-out reader of a fresh button ends with loading done and the topic shown as not followed. */
  method SignedOutView() returns (b: TopicFollowButton)
    ensures !b.following && !b.isLoading
  {
    b := new TopicFollowButton();
    b.CheckFollowStatus(false, None);
    var _ := b.ToggleFollow(false, true);
  }
}
