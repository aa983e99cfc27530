/** The navigation bar: its four items, which of them is highlighted, the
    pending-request count and its badge on the Notifications item, and the
    popup the bell opens. The signed-in user's id, the server's reply and the
    current pathname are parameters; the 30-second polling is not modelled. */
module Navbar {
  import opened Options
  import opened JsText

  /** An entry of `navItems`. */
  datatype NavItem = NavItem(caption: string, path: string, isNotification: bool)

  const NavItems: seq<NavItem> := [
    NavItem("My Friends", "/close-circle", false),
    NavItem("My Diary", "/my-diary", false),
    NavItem("Notifications", "/notifications", true),
    NavItem("Me", "/me", false)
  ]

  /** An item is highlighted exactly when the pathname is its path. */
  predicate IsActive(pathname: string, item: NavItem) {
    pathname == item.path
  }

  /** The items' paths differ, so at most one item is highlighted, and only
      the Notifications item carries the badge. */
  lemma AtMostOneActive(pathname: string)
    ensures forall i, j :: 0 <= i < j < |NavItems| ==>
              !(IsActive(pathname, NavItems[i]) && IsActive(pathname, NavItems[j]))
    ensures forall i :: 0 <= i < |NavItems| ==> (NavItems[i].isNotification <==> i == 2)
  {
  }

  /** The body of the pending-requests reply: an array, or an object with a
      `success` flag and a `data` array (the length of that array, or None
      when it is missing). */
  datatype PendingBody = ArrayBody(length: nat) | ObjectBody(success: bool, data: Option<nat>)

  /** `(success ? data.data : data || []).length`. A successful object counts
      its `data`, a missing one counting 0; an array counts itself; an object
      without success has no `length`, and the count becomes undefined
      (None). */
  function CountOf(body: PendingBody): (count: Option<nat>)
    ensures body.ArrayBody? ==> count == Some(body.length)
    ensures body.ObjectBody? && body.success ==> count == Some(body.data.GetOr(0))
    ensures body.ObjectBody? && !body.success ==> count == None
  {
    match body
    case ArrayBody(n) => Some(n)
    case ObjectBody(success, data) => if success then Some(data.GetOr(0)) else None
  }

  /** The text of the Notifications badge, when it shows: only above 0, and
      '99+' above 99. An undefined count shows none. */
  function BadgeText(count: Option<nat>): (text: Option<string>)
    ensures text.Some? <==> count.Some? && count.value > 0
    ensures text == Some("99+") <==> count.Some? && count.value > 99
    ensures text.Some? ==> 1 <= |text.value| <= 3
  {
    match count
    case None => None
    case Some(n) =>
      if n == 0 then None
      else if n > 99 then Some("99+")
      else
        NatToStringLength(n);
        Some(NatToString(n))
  }

  /** Below the cap the badge reads back the exact count. */
  lemma BadgeReadsCount(n: nat)
    requires 0 < n <= 99
    ensures BadgeText(Some(n)).Some? && ParseInt(BadgeText(Some(n)).value) == Some(n)
  {
    ParseNatural(n);
  }

  /** A count of one or two decimal digits. */
  lemma NatToStringLength(n: nat)
    requires n <= 99
    ensures 1 <= |NatToString(n)| <= 2
  {
    if n >= 10 {
      assert NatToString(n) == NatToString(n / 10) + [DigitChar(n % 10)];
    }
  }

  class NavbarState {
    var userId: Option<string>
    var isNotificationsOpen: bool
    var notificationCount: Option<nat>

    constructor (userId: Option<string>)
      ensures this.userId == userId && !isNotificationsOpen && notificationCount == Some(0)
    {
      this.userId := userId;
      isNotificationsOpen := false;
      notificationCount := Some(0);
    }

    /** `fetchNotificationCount`; `reply` is the body, or None when the
        request fails, which leaves the count alone. Without a user id
        nothing is requested. */
    method FetchNotificationCount(reply: Option<PendingBody>) returns (requested: bool)
      modifies this
      ensures requested <==> userId.Some? && userId.value != []
      ensures requested && reply.Some? ==> notificationCount == CountOf(reply.value)
      ensures !(requested && reply.Some?) ==> notificationCount == old(notificationCount)
      ensures userId == old(userId) && isNotificationsOpen == old(isNotificationsOpen)
    {
      if userId.None? || userId.value == [] {
        return false;
      }
      requested := true;
      if reply.Some? {
        notificationCount := CountOf(reply.value);
      }
    }

    /** The bell: the popup opens or closes. */
    method ToggleNotifications()
      modifies this
      ensures isNotificationsOpen == !old(isNotificationsOpen)
      ensures userId == old(userId) && notificationCount == old(notificationCount)
    {
      isNotificationsOpen := !isNotificationsOpen;
    }

    /** `handleNotificationsClose`: the popup closes and the count is fetched
        again. */
    method HandleNotificationsClose(reply: Option<PendingBody>) returns (requested: bool)
      modifies this
      ensures !isNotificationsOpen
      ensures requested <==> userId.Some? && userId.value != []
      ensures requested && reply.Some? ==> notificationCount == CountOf(reply.value)
      ensures !(requested && reply.Some?) ==> notificationCount == old(notificationCount)
      ensures userId == old(userId)
    {
      isNotificationsOpen := false;
      requested := FetchNotificationCount(reply);
    }
  }
}
