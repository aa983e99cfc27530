/** The friend-request button on another user's profile: it learns the
    request's status from the server, sends or cancels a request, and offers
    the action the status allows. The token's presence and the server's
    replies are parameters. */
module FriendRequest {
  import opened Options
  import JsText

  /** The reply to the status check: an answer with its `success` flag and
      `status`, or a failed request. */
  datatype StatusReply = StatusAnswer(success: bool, status: string) | StatusError

  /** The reply to a send or cancel: an answer with its `success` flag, or a
      failed request with the server's `message` if it gave one. */
  datatype ActionReply = Answered(success: bool) | ActionError(serverMessage: Option<string>)

  datatype Toast = Toast(title: string, description: string, status: string)

  const AuthToast: Toast := Toast("Authentication required", "Please log in to send friend requests", "error")
  const CancelledToast: Toast := Toast("Friend request cancelled", "Your friend request has been cancelled", "info")
  const CancelFailedToast: Toast := Toast("Error", "Failed to cancel friend request", "error")

  /** The toast of a successful send. */
  function SentToast(targetUserName: string): Toast {
    Toast("Friend request sent!", "Your friend request has been sent to "
          + (if targetUserName != [] then targetUserName else "the user"), "success")
  }

  /** The toast of a failed send: the server's message when there is one. */
  function SendFailedToast(serverMessage: Option<string>): (t: Toast)
    ensures t.title == "Error"
    ensures serverMessage.Some? && serverMessage.value != [] ==> t.description == serverMessage.value
    ensures serverMessage.None? || serverMessage.value == [] ==> t.description == "Failed to send friend request"
  {
    Toast("Error", JsText.OrElse(serverMessage, "Failed to send friend request"), "error")
  }

  /** The status after the check: the server's status on success, 'none' on
      an error, unchanged when the answer says no success. */
  function StatusAfterCheck(status: string, reply: StatusReply): (r: string)
    ensures reply.StatusError? ==> r == "none"
    ensures reply.StatusAnswer? && reply.success ==> r == reply.status
    ensures reply.StatusAnswer? && !reply.success ==> r == status
  {
    match reply
    case StatusAnswer(success, s) => if success then s else status
    case StatusError => "none"
  }

  /** The status after a send that was made. */
  function StatusAfterSend(status: string, reply: ActionReply): (r: string)
    ensures reply == Answered(true) ==> r == "pending"
    ensures reply != Answered(true) ==> r == status
  {
    if reply == Answered(true) then "pending" else status
  }

  /** The status after a cancel that was made. */
  function StatusAfterCancel(status: string, reply: ActionReply): (r: string)
    ensures reply == Answered(true) ==> r == "none"
    ensures reply != Answered(true) ==> r == status
  {
    if reply == Answered(true) then "none" else status
  }

  /** A successful send followed by a successful cancel returns to 'none'
      from any status, and a failed send followed by a failed cancel changes
      nothing. */
  lemma SendThenCancel(status: string, send: ActionReply, cancel: ActionReply)
    ensures send == Answered(true) && cancel == Answered(true) ==>
              StatusAfterCancel(StatusAfterSend(status, send), cancel) == "none"
    ensures send != Answered(true) && cancel != Answered(true) ==>
              StatusAfterCancel(StatusAfterSend(status, send), cancel) == status
  {
  }

  class FriendRequestButton {
    const targetUserId: string
    var requestStatus: string
    var loading: bool
    var checkingStatus: bool

    constructor (targetUserId: string)
      ensures this.targetUserId == targetUserId
      ensures requestStatus == "none" && !loading && checkingStatus
    {
      this.targetUserId := targetUserId;
      requestStatus := "none";
      loading := false;
      checkingStatus := true;
    }

    /** The status effect. It runs only for a target user; without a token it
        stops checking and asks nothing. Returns the path requested. */
    method CheckStatus(hasToken: bool, reply: StatusReply) returns (requested: Option<string>)
      modifies this
      ensures targetUserId == [] ==>
                requested == None && checkingStatus == old(checkingStatus) && requestStatus == old(requestStatus)
      ensures targetUserId != [] ==> !checkingStatus
      ensures targetUserId != [] && !hasToken ==> requested == None && requestStatus == old(requestStatus)
      ensures targetUserId != [] && hasToken ==>
                requested == Some("/api/friend-requests/status/" + targetUserId)
                && requestStatus == StatusAfterCheck(old(requestStatus), reply)
      ensures loading == old(loading)
    {
      if targetUserId == [] {
        return None;
      }
      if !hasToken {
        checkingStatus := false;
        return None;
      }
      requested := Some("/api/friend-requests/status/" + targetUserId);
      requestStatus := StatusAfterCheck(requestStatus, reply);
      checkingStatus := false;
    }

    /** `handleSendFriendRequest`: without a token, a toast and no request;
        otherwise the send, the status after it, and its toast. Loading ends
        false on every path. */
    method HandleSend(hasToken: bool, reply: ActionReply, targetUserName: string)
      returns (requested: Option<string>, toast: Option<Toast>)
      modifies this
      ensures !hasToken ==> requested == None && toast == Some(AuthToast) && requestStatus == old(requestStatus)
      ensures hasToken ==> requested == Some("/api/friend-requests/send")
                           && requestStatus == StatusAfterSend(old(requestStatus), reply)
      ensures hasToken && reply == Answered(true) ==> toast == Some(SentToast(targetUserName))
      ensures hasToken && reply == Answered(false) ==> toast == None
      ensures hasToken && reply.ActionError? ==> toast == Some(SendFailedToast(reply.serverMessage))
      ensures !loading && checkingStatus == old(checkingStatus)
    {
      if !hasToken {
        loading := false;
        return None, Some(AuthToast);
      }
      loading := true;
      requested := Some("/api/friend-requests/send");
      requestStatus := StatusAfterSend(requestStatus, reply);
      match reply {
      case Answered(success) =>
        toast := if success then Some(SentToast(targetUserName)) else None;
      case ActionError(message) =>
        toast := Some(SendFailedToast(message));
      }
      loading := false;
    }

    /** `handleCancelFriendRequest`: without a token it returns silently;
        otherwise the cancel, the status after it, and its toast. Loading
        ends false on every path. */
    method HandleCancel(hasToken: bool, reply: ActionReply) returns (requested: Option<string>, toast: Option<Toast>)
      modifies this
      ensures !hasToken ==> requested == None && toast == None && requestStatus == old(requestStatus)
      ensures hasToken ==> requested == Some("/api/friend-requests/cancel/" + targetUserId)
                           && requestStatus == StatusAfterCancel(old(requestStatus), reply)
      ensures hasToken && reply == Answered(true) ==> toast == Some(CancelledToast)
      ensures hasToken && reply == Answered(false) ==> toast == None
      ensures hasToken && reply.ActionError? ==> toast == Some(CancelFailedToast)
      ensures !loading && checkingStatus == old(checkingStatus)
    {
      if !hasToken {
        loading := false;
        return None, None;
      }
      loading := true;
      requested := Some("/api/friend-requests/cancel/" + targetUserId);
      requestStatus := StatusAfterCancel(requestStatus, reply);
      match reply {
      case Answered(success) =>
        toast := if success then Some(CancelledToast) else None;
      case ActionError(_) =>
        toast := Some(CancelFailedToast);
      }
      loading := false;
    }
  }

  /** What the button offers. */
  datatype ButtonAction = Checking | OfferCancel | NoAction | OfferSend

  /** `renderButton`: a spinner while checking; cancel for 'pending'; a
      disabled button for 'accepted'; send for anything else. */
  function RenderButton(checkingStatus: bool, status: string): (a: ButtonAction)
    ensures checkingStatus <==> a == Checking
    ensures !checkingStatus ==> (a == OfferCancel <==> status == "pending")
    ensures !checkingStatus ==> (a == NoAction <==> status == "accepted")
    ensures !checkingStatus ==> (a == OfferSend <==> status != "pending" && status != "accepted")
  {
    if checkingStatus then Checking
    else if status == "pending" then OfferCancel
    else if status == "accepted" then NoAction
    else OfferSend
  }

  /** Offering send is what sending leads away from: after a successful
      send the button offers cancel. */
  lemma SendLeadsToCancel(status: string)
    requires RenderButton(false, status) == OfferSend
    ensures RenderButton(false, StatusAfterSend(status, Answered(true))) == OfferCancel
  {
  }
}
