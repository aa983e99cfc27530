/** The notifications popup: the pending friend requests, the set of
    requests being answered, accepting or rejecting one, and the "time ago"
    label of each. The server's replies and the clock are parameters. */
module Notifications {
  import opened Options
  import opened JsText
  import opened JsList

  /** A pending friend request: its `_id`, the sender's name, and when it
      was sent (a time value in milliseconds). */
  datatype Notification = Notification(id: string, fromName: string, sentAt: int)

  function IdOf(n: Notification): string {
    n.id
  }

  datatype Answer = Accept | Reject

  /** The toast a handler raises. */
  datatype Toast = Toast(title: string, description: string, status: string)

  /** The endpoint an answer posts to. */
  function AnswerPath(answer: Answer, requestId: string): string {
    match answer
    case Accept => "/api/friend-requests/accept/" + requestId
    case Reject => "/api/friend-requests/reject/" + requestId
  }

  /** The toast after an answer, for success or failure. */
  function AnswerToast(answer: Answer, succeeded: bool, fromName: string): (t: Toast)
    ensures t.status == "error" <==> !succeeded
  {
    match (answer, succeeded)
    case (Accept, true) => Toast("Friend Request Accepted", "You are now friends with " + fromName, "success")
    case (Reject, true) => Toast("Friend Request Rejected", "Rejected friend request from " + fromName, "info")
    case (Accept, false) => Toast("Error", "Failed to accept friend request", "error")
    case (Reject, false) => Toast("Error", "Failed to reject friend request", "error")
  }

  /** The toast of a failed load. */
  const LoadFailedToast: Toast := Toast("Error", "Failed to load notifications", "error")

  class NotificationsPopup {
    var notifications: seq<Notification>
    var loading: bool
    var processingIds: set<string>

    constructor ()
      ensures notifications == [] && !loading && processingIds == {}
    {
      notifications := [];
      loading := false;
      processingIds := {};
    }

    /** `fetchNotifications`; `reply` is `response.data.data`, or None when the
        request fails, which raises the error toast. Without a user id nothing
        is requested. */
    method FetchNotifications(userId: Option<string>, reply: Option<seq<Notification>>)
      returns (requested: bool, toast: Option<Toast>)
      modifies this
      ensures requested <==> userId.Some? && userId.value != []
      ensures !requested ==> notifications == old(notifications) && loading == old(loading)
      ensures requested ==> !loading
      ensures requested && reply.Some? ==> notifications == reply.value
      ensures requested && reply.None? ==> notifications == old(notifications)
      ensures toast == if requested && reply.None? then Some(LoadFailedToast) else None
      ensures processingIds == old(processingIds)
    {
      if userId.None? || userId.value == [] {
        return false, None;
      }
      requested := true;
      loading := true;
      toast := None;
      if reply.Some? {
        notifications := reply.value;
      } else {
        toast := Some(LoadFailedToast);
      }
      loading := false;
    }

    /** The start of `handleAccept`/`handleReject`: the request is marked as
        being processed. */
    method BeginAnswer(requestId: string)
      modifies this
      ensures processingIds == old(processingIds) + {requestId}
      ensures notifications == old(notifications) && loading == old(loading)
    {
      processingIds := processingIds + {requestId};
    }

    /** The end of `handleAccept`/`handleReject`: on success the request leaves
        the list; then, whatever happened, it is no longer processed. */
    method FinishAnswer(answer: Answer, requestId: string, fromName: string, succeeded: bool) returns (toast: Toast)
      modifies this
      ensures succeeded ==> notifications == RemoveId(old(notifications), IdOf, requestId)
      ensures !succeeded ==> notifications == old(notifications)
      ensures processingIds == old(processingIds) - {requestId}
      ensures toast == AnswerToast(answer, succeeded, fromName)
      ensures loading == old(loading)
    {
      if succeeded {
        notifications := RemoveId(notifications, IdOf, requestId);
      }
      toast := AnswerToast(answer, succeeded, fromName);
      processingIds := processingIds - {requestId};
    }

    /** A whole answer: the post to the answer's endpoint, then its outcome. */
    method HandleAnswer(answer: Answer, requestId: string, fromName: string, succeeded: bool)
      returns (path: string, toast: Toast)
      modifies this
      ensures path == AnswerPath(answer, requestId)
      ensures succeeded ==> notifications == RemoveId(old(notifications), IdOf, requestId)
      ensures !succeeded ==> notifications == old(notifications)
      ensures requestId !in processingIds && processingIds == old(processingIds) - {requestId}
      ensures toast == AnswerToast(answer, succeeded, fromName)
      ensures loading == old(loading)
    {
      BeginAnswer(requestId);
      path := AnswerPath(answer, requestId);
      toast := FinishAnswer(answer, requestId, fromName, succeeded);
    }

    /** Accept and Reject are disabled while their request is processed. */
    function ButtonsDisabled(requestId: string): (disabled: bool)
      reads this
      ensures disabled <==> requestId in processingIds
    {
      requestId in processingIds
    }
  }

  /** A successful answer removes exactly that request and keeps the others
      in their order. */
  lemma AnswerRemovesExactlyOne(notifications: seq<Notification>, requestId: string)
    ensures var r := RemoveId(notifications, IdOf, requestId);
            && (forall i :: 0 <= i < |r| ==> r[i].id != requestId)
            && (forall n :: n in notifications && n.id != requestId ==> n in r)
            && IsSubsequence(r, notifications)
            && (forall n :: multiset(r)[n] == if n.id != requestId then multiset(notifications)[n] else 0)
  {
    var r := RemoveId(notifications, IdOf, requestId);
    assert forall i :: 0 <= i < |r| ==> IdOf(r[i]) != requestId;
    forall n | n in notifications && n.id != requestId ensures n in r {
      var i :| 0 <= i < |notifications| && notifications[i] == n;
      assert IdOf(notifications[i]) != requestId;
    }
  }

  // ---------------------------------------------------------------------------
  // Time ago

  const MsPerHour: int := 1000 * 60 * 60

  /** The label `getTimeAgo` returns: a text, or the date in the locale's
      format (the locale formatting itself is not modelled). */
  datatype TimeAgo = Text(text: string) | LocaleDate(sentAt: int)

  /** The bucket bounds of `getTimeAgo`, in milliseconds. */
  lemma HourBounds(diff: int)
    ensures diff / MsPerHour < 1 <==> diff < MsPerHour
    ensures diff / MsPerHour < 24 <==> diff < 24 * MsPerHour
    ensures diff / MsPerHour / 24 < 7 <==> diff < 7 * 24 * MsPerHour
  {
    var h := diff / MsPerHour;
    assert diff == MsPerHour * h + diff % MsPerHour;
    var d := h / 24;
    assert h == 24 * d + h % 24;
  }

  /** `getTimeAgo(date)` at time `now`: floored hours and days. */
  function GetTimeAgo(now: int, sentAt: int): (r: TimeAgo)
    ensures r == Text("Just now") <==> now - sentAt < MsPerHour
    ensures MsPerHour <= now - sentAt < 24 * MsPerHour ==>
              r == Text(NatToString((now - sentAt) / MsPerHour) + "h ago")
    ensures 24 * MsPerHour <= now - sentAt < 7 * 24 * MsPerHour ==>
              r == Text(NatToString((now - sentAt) / MsPerHour / 24) + "d ago")
    ensures r.LocaleDate? <==> now - sentAt >= 7 * 24 * MsPerHour
  {
    var diffInHours := (now - sentAt) / MsPerHour;
    HourBounds(now - sentAt);
    if diffInHours < 1 then Text("Just now")
    else if diffInHours < 24 then
      var t := NatToString(diffInHours) + "h ago";
      assert t[0] != 'J' by { assert IsDigit(t[0]); }
      Text(t)
    else
      var diffInDays := diffInHours / 24;
      if diffInDays < 7 then
        var t := NatToString(diffInDays) + "d ago";
        assert t[0] != 'J' by { assert IsDigit(t[0]); }
        Text(t)
      else LocaleDate(sentAt)
  }

  /** The hours label reads back a whole number of hours from 1 to 23. */
  lemma HoursLabelValue(now: int, sentAt: int)
    requires MsPerHour <= now - sentAt < 24 * MsPerHour
    ensures var t := GetTimeAgo(now, sentAt).text;
            var h := (now - sentAt) / MsPerHour;
            1 <= h <= 23 && t[|t| - 5..] == "h ago" && ParseInt(t[..|t| - 5]) == Some(h)
  {
    var h := (now - sentAt) / MsPerHour;
    var t := NatToString(h) + "h ago";
    assert t[..|t| - 5] == NatToString(h);
    ParseNatural(h);
  }

  /** The days label reads back a whole number of days from 1 to 6. */
  lemma DaysLabelValue(now: int, sentAt: int)
    requires 24 * MsPerHour <= now - sentAt < 7 * 24 * MsPerHour
    ensures var t := GetTimeAgo(now, sentAt).text;
            var d := (now - sentAt) / MsPerHour / 24;
            1 <= d <= 6 && t[|t| - 5..] == "d ago" && ParseInt(t[..|t| - 5]) == Some(d)
  {
    var d := (now - sentAt) / MsPerHour / 24;
    var t := NatToString(d) + "d ago";
    assert t[..|t| - 5] == NatToString(d);
    ParseNatural(d);
  }
}
