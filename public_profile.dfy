/** Another user's public profile page: loading the profile named by the
    route's user id, checking the reply's shape, the suggested users without
    the one being viewed, what the page shows, and the name and username
    fallbacks. The token's presence and the server's replies are
    parameters. */
module PublicProfile {
  import opened Options
  import opened JsList
  import JsText

  /** The fields of a profile the page reads. */
  datatype Profile = Profile(name: Option<string>, fullName: Option<string>, username: Option<string>,
                             bio: Option<string>)

  /** A suggested user; only its `id` matters to the page's logic. */
  datatype Suggested = Suggested(id: Option<string>, username: Option<string>)

  function IdOf(u: Suggested): Option<string> {
    u.id
  }

  /** The reply to the profile request: a body with its `success` flag and
      `user`, or a failed request with the server's `message` if it gave
      one. */
  datatype ProfileReply = ProfileBody(success: bool, user: Option<Profile>) | ProfileFailed(serverMessage: Option<string>)

  /** The reply to the suggested-users request. */
  datatype SuggestedReply = SuggestedBody(success: bool, users: Option<seq<Suggested>>) | SuggestedFailed

  const NoUserIdError: string := "No user ID provided"
  const NoTokenError: string := "No authentication token found"
  const InvalidFormatError: string := "Invalid response format from server"

  /** The error of a failed profile request. */
  function LoadFailedError(serverMessage: Option<string>): (e: string)
    ensures serverMessage.Some? && serverMessage.value != [] ==> e == serverMessage.value
    ensures serverMessage.None? || serverMessage.value == [] ==> e == "Failed to load user profile"
  {
    JsText.OrElse(serverMessage, "Failed to load user profile")
  }

  /** `users.filter(u => u.id !== userId)`: the user being viewed is never
      suggested, and every other user keeps its place. */
  function WithoutViewed(users: seq<Suggested>, userId: Option<string>): (r: seq<Suggested>)
    ensures forall i :: 0 <= i < |r| ==> r[i].id != userId
    ensures forall i :: 0 <= i < |users| && users[i].id != userId ==> users[i] in r
    ensures IsSubsequence(r, users)
    ensures forall u :: multiset(r)[u] == if u.id != userId then multiset(users)[u] else 0
  {
    var r := RemoveId(users, IdOf, userId);
    assert forall i :: 0 <= i < |r| ==> IdOf(r[i]) != userId;
    assert forall i :: 0 <= i < |users| && IdOf(users[i]) != userId ==> users[i] in r;
    r
  }

  /** Filtering the suggestions again changes nothing. */
  lemma WithoutViewedIdempotent(users: seq<Suggested>, userId: Option<string>)
    ensures WithoutViewed(WithoutViewed(users, userId), userId) == WithoutViewed(users, userId)
  {
    RemoveIdIdempotent(users, IdOf, userId);
  }

  class PublicPage {
    const userId: Option<string>
    var user: Option<Profile>
    var loading: bool
    var error: Option<string>
    var suggestedUsers: seq<Suggested>
    var suggestedUsersLoading: bool

    constructor (userId: Option<string>)
      ensures this.userId == userId
      ensures user == None && loading && error == None && suggestedUsers == [] && suggestedUsersLoading
    {
      this.userId := userId;
      user := None;
      loading := true;
      error := None;
      suggestedUsers := [];
      suggestedUsersLoading := true;
    }

    /** The profile effect: without a route user id, or without a token, an
        error and no request; otherwise the user of a well-formed reply, or
        the error of a malformed or failed one. Loading ends false on every
        path. Returns whether the profile was requested. */
    method FetchUserData(hasToken: bool, reply: ProfileReply) returns (requested: bool)
      modifies this
      ensures !loading
      ensures requested <==> userId.Some? && userId.value != [] && hasToken
      ensures (userId.None? || userId.value == []) ==> error == Some(NoUserIdError) && user == old(user)
      ensures userId.Some? && userId.value != [] && !hasToken ==> error == Some(NoTokenError) && user == old(user)
      ensures requested && reply.ProfileBody? && reply.success && reply.user.Some? ==>
                user == reply.user && error == None
      ensures requested && reply.ProfileBody? && !(reply.success && reply.user.Some?) ==>
                user == old(user) && error == Some(InvalidFormatError)
      ensures requested && reply.ProfileFailed? ==>
                user == old(user) && error == Some(LoadFailedError(reply.serverMessage))
      ensures suggestedUsers == old(suggestedUsers) && suggestedUsersLoading == old(suggestedUsersLoading)
    {
      if userId.None? || userId.value == [] {
        error := Some(NoUserIdError);
        loading := false;
        return false;
      }
      if !hasToken {
        error := Some(NoTokenError);
        loading := false;
        return false;
      }
      requested := true;
      loading := true;
      match reply {
      case ProfileBody(success, found) =>
        if success && found.Some? {
          user := found;
          error := None;
        } else {
          error := Some(InvalidFormatError);
        }
      case ProfileFailed(message) =>
        error := Some(LoadFailedError(message));
      }
      loading := false;
    }

    /** `fetchSuggestedUsers`: a well-formed reply replaces the suggestions
        with its users, the viewed one taken out; anything else keeps them.
        Loading ends false on every path. */
    method FetchSuggestedUsers(hasToken: bool, reply: SuggestedReply) returns (requested: bool)
      modifies this
      ensures !suggestedUsersLoading
      ensures requested == hasToken
      ensures hasToken && reply.SuggestedBody? && reply.success && reply.users.Some? ==>
                suggestedUsers == WithoutViewed(reply.users.value, userId)
      ensures !(hasToken && reply.SuggestedBody? && reply.success && reply.users.Some?) ==>
                suggestedUsers == old(suggestedUsers)
      ensures user == old(user) && loading == old(loading) && error == old(error)
    {
      if !hasToken {
        suggestedUsersLoading := false;
        return false;
      }
      requested := true;
      suggestedUsersLoading := true;
      match reply {
      case SuggestedBody(success, users) =>
        if success && users.Some? {
          suggestedUsers := WithoutViewed(users.value, userId);
        }
      case SuggestedFailed =>
      }
      suggestedUsersLoading := false;
    }
  }

  /** What the page shows, in the order it tests: the skeleton while loading,
      then the error, then the no-data warning, then the profile. */
  datatype PageView = Skeleton | ErrorAlert(message: string) | NoUserData | ProfileView(user: Profile)

  function ShownPage(loading: bool, error: Option<string>, user: Option<Profile>): (v: PageView)
    ensures v == Skeleton <==> loading
    ensures v.ErrorAlert? <==> !loading && error.Some? && error.value != []
    ensures v.ErrorAlert? ==> v.message == error.value
    ensures v == NoUserData <==> !loading && (error.None? || error.value == []) && user.None?
    ensures v.ProfileView? ==> user == Some(v.user)
  {
    if loading then Skeleton
    else if error.Some? && error.value != [] then ErrorAlert(error.value)
    else if user.None? then NoUserData
    else ProfileView(user.value)
  }

  /** `user.name || user.fullName || 'Unknown User'`. */
  function DisplayName(u: Profile): (name: string)
    ensures name != []
    ensures u.name.Some? && u.name.value != [] ==> name == u.name.value
    ensures (u.name.None? || u.name.value == []) && u.fullName.Some? && u.fullName.value != [] ==>
              name == u.fullName.value
    ensures (u.name.None? || u.name.value == []) && (u.fullName.None? || u.fullName.value == []) ==>
              name == "Unknown User"
  {
    if u.name.Some? && u.name.value != [] then u.name.value
    else if u.fullName.Some? && u.fullName.value != [] then u.fullName.value
    else "Unknown User"
  }

  /** `'@' + (user.username || 'unknown')`. */
  function Handle(u: Profile): (handle: string)
    ensures |handle| > 1 && handle[0] == '@'
    ensures u.username.Some? && u.username.value != [] ==> handle == "@" + u.username.value
    ensures u.username.None? || u.username.value == [] ==> handle == "@unknown"
  {
    "@" + JsText.OrElse(u.username, "unknown")
  }

  /** A successful load always shows the profile: after it, the page is past
      the skeleton and the error and shows exactly the user received. */
  lemma WellFormedReplyShowsProfile(u: Profile)
    ensures ShownPage(false, None, Some(u)) == ProfileView(u)
  {
  }

  /** Every early exit of the profile effect lands on the error alert with its
      message. */
  lemma EarlyExitsShowError(message: string)
    requires message == NoUserIdError || message == NoTokenError || message == InvalidFormatError
    ensures forall u :: ShownPage(false, Some(message), u) == ErrorAlert(message)
  {
  }
}
