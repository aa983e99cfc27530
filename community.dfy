/** The user's community page: removing a follower, a followed user or a
    close friend, the close-friend list and count that a removal updates, and
    the texts of the remove button and its confirmation. */
module Community {
  import opened Options
  import opened JsList
  import JsText

  /** A user card's data. */
  datatype Member = Member(id: string, name: string)

  function IdOf(m: Member): string {
    m.id
  }

  /** The three kinds of removal the page knows. */
  predicate KnownType(removeType: string) {
    removeType == "follower" || removeType == "following" || removeType == "closefriend"
  }

  /** The endpoint and success message for a removal type; an unknown type
      has none, and the handler throws before any request. */
  function RemovalTarget(removeType: string, userId: string): (r: Option<(string, string)>)
    ensures r.Some? <==> KnownType(removeType)
    ensures removeType == "follower" ==>
              r == Some(("/api/myprofile/community/followers/" + userId, "Follower removed successfully"))
    ensures removeType == "following" ==>
              r == Some(("/api/myprofile/community/following/" + userId, "User unfollowed successfully"))
    ensures removeType == "closefriend" ==>
              r == Some(("/api/myprofile/community/closefriends/" + userId, "Removed from close friends successfully"))
  {
    if removeType == "follower" then
      Some(("/api/myprofile/community/followers/" + userId, "Follower removed successfully"))
    else if removeType == "following" then
      Some(("/api/myprofile/community/following/" + userId, "User unfollowed successfully"))
    else if removeType == "closefriend" then
      Some(("/api/myprofile/community/closefriends/" + userId, "Removed from close friends successfully"))
    else None
  }

  /** The reply to the DELETE: success, or a failure with the server's
      `message` if it gave one. */
  datatype DeleteReply = Deleted | DeleteFailed(serverMessage: Option<string>)

  datatype Toast = Toast(title: string, description: string, status: string)

  /** The toast of a failed removal. */
  function FailureToast(serverMessage: Option<string>): (t: Toast)
    ensures t.title == "Error" && t.status == "error"
    ensures serverMessage.Some? && serverMessage.value != [] ==> t.description == serverMessage.value
    ensures serverMessage.None? || serverMessage.value == [] ==> t.description == "Failed to remove user"
  {
    Toast("Error", JsText.OrElse(serverMessage, "Failed to remove user"), "error")
  }

  class CommunityPage {
    var closeFriends: seq<Member>
    var closeFriendsCount: int
    var removingUser: Option<string>

    constructor ()
      ensures closeFriends == [] && closeFriendsCount == 0 && removingUser == None
    {
      closeFriends := [];
      closeFriendsCount := 0;
      removingUser := None;
    }

    /** The start of `handleRemoveUser`: the card shows its removal running. */
    method BeginRemove(userId: string)
      modifies this
      ensures removingUser == Some(userId)
      ensures closeFriends == old(closeFriends) && closeFriendsCount == old(closeFriendsCount)
    {
      removingUser := Some(userId);
    }

    /** The rest of `handleRemoveUser`: an unknown type fails before any
        request; a successful close-friend removal drops that friend and
        decrements the count; other removals and failures leave both alone.
        The removal ends on every path. */
    method FinishRemove(userId: string, removeType: string, reply: DeleteReply)
      returns (requested: Option<string>, toast: Toast)
      modifies this
      ensures RemovalTarget(removeType, userId).None? ==> requested == None && toast == FailureToast(None)
      ensures RemovalTarget(removeType, userId).Some? ==> requested == Some(RemovalTarget(removeType, userId).value.0)
      ensures requested.Some? && reply.Deleted? ==>
                toast == Toast("Success", RemovalTarget(removeType, userId).value.1, "success")
      ensures requested.Some? && reply.DeleteFailed? ==> toast == FailureToast(reply.serverMessage)
      ensures requested.Some? && reply.Deleted? && removeType == "closefriend" ==>
                closeFriends == RemoveId(old(closeFriends), IdOf, userId)
                && closeFriendsCount == old(closeFriendsCount) - 1
      ensures !(requested.Some? && reply.Deleted? && removeType == "closefriend") ==>
                closeFriends == old(closeFriends) && closeFriendsCount == old(closeFriendsCount)
      ensures removingUser == None
    {
      var target := RemovalTarget(removeType, userId);
      if target.None? {
        removingUser := None;
        return None, FailureToast(None);
      }
      requested := Some(target.value.0);
      match reply {
      case Deleted =>
        if removeType == "closefriend" {
          closeFriends := RemoveId(closeFriends, IdOf, userId);
          closeFriendsCount := closeFriendsCount - 1;
        }
        toast := Toast("Success", target.value.1, "success");
      case DeleteFailed(message) =>
        toast := FailureToast(message);
      }
      removingUser := None;
    }

    /** A whole removal. */
    method HandleRemoveUser(userId: string, removeType: string, reply: DeleteReply)
      returns (requested: Option<string>, toast: Toast)
      modifies this
      ensures RemovalTarget(removeType, userId).None? ==> requested == None && toast == FailureToast(None)
      ensures RemovalTarget(removeType, userId).Some? ==> requested == Some(RemovalTarget(removeType, userId).value.0)
      ensures requested.Some? && reply.Deleted? ==>
                toast == Toast("Success", RemovalTarget(removeType, userId).value.1, "success")
      ensures requested.Some? && reply.DeleteFailed? ==> toast == FailureToast(reply.serverMessage)
      ensures requested.Some? && reply.Deleted? && removeType == "closefriend" ==>
                closeFriends == RemoveId(old(closeFriends), IdOf, userId)
                && closeFriendsCount == old(closeFriendsCount) - 1
      ensures !(requested.Some? && reply.Deleted? && removeType == "closefriend") ==>
                closeFriends == old(closeFriends) && closeFriendsCount == old(closeFriendsCount)
      ensures removingUser == None
    {
      BeginRemove(userId);
      requested, toast := FinishRemove(userId, removeType, reply);
    }
  }

  /** A close-friend removal takes out exactly the friends with that id; when
      the list held that friend once, it shrinks by one, like the count. */
  lemma {:induction false} RemovalShrinksByOne(friends: seq<Member>, userId: string, k: nat)
    requires k < |friends| && friends[k].id == userId
    requires forall i :: 0 <= i < |friends| && i != k ==> friends[i].id != userId
    ensures |RemoveId(friends, IdOf, userId)| == |friends| - 1
    decreases |friends|
  {
    var rest := friends[1..];
    if k == 0 {
      RemoveAbsentId(rest, IdOf, userId);
    } else {
      assert friends[0].id != userId;
      RemovalShrinksByOne(rest, userId, k - 1);
    }
  }

  /** `getRemoveText`. */
  function RemoveText(removeType: string): (text: string)
    ensures removeType == "follower" ==> text == "Remove Follower"
    ensures removeType == "following" ==> text == "Unfollow"
    ensures removeType == "closefriend" ==> text == "Remove from Close Friends"
    ensures !KnownType(removeType) ==> text == "Remove"
  {
    if removeType == "follower" then "Remove Follower"
    else if removeType == "following" then "Unfollow"
    else if removeType == "closefriend" then "Remove from Close Friends"
    else "Remove"
  }

  /** `getConfirmText` for a user named `name`. */
  function ConfirmText(removeType: string, name: string): (text: string)
    ensures removeType == "follower" ==>
              text == "Are you sure you want to remove " + name
                      + " from your followers? They will no longer see your updates in their feed."
    ensures removeType == "following" ==>
              text == "Are you sure you want to unfollow " + name + "? You will no longer see their updates in your feed."
    ensures !KnownType(removeType) ==>
              text == "Are you sure you want to remove this user?"
    ensures removeType == "closefriend" ==>
              text == "Are you sure you want to remove " + name + " from your close friends circle?"
  {
    if removeType == "follower" then
      "Are you sure you want to remove " + name
      + " from your followers? They will no longer see your updates in their feed."
    else if removeType == "following" then
      "Are you sure you want to unfollow " + name + "? You will no longer see their updates in your feed."
    else if removeType == "closefriend" then
      "Are you sure you want to remove " + name + " from your close friends circle?"
    else "Are you sure you want to remove this user?"
  }

  /** The button and the handler agree: the types with their own remove
      text are exactly the types that can be removed. */
  lemma RemoveTextMatchesTarget(removeType: string, userId: string)
    ensures RemoveText(removeType) != "Remove" <==> RemovalTarget(removeType, userId).Some?
  {
  }
}
