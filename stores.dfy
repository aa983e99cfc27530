/** The two global stores: the signed-in user's id, and the day picked on
    the diary's calendar. Each holds a single field that its actions
    overwrite. */
module Stores {
  import opened Options
  import opened Calendar

  /** A value `setUserId` may be given: JavaScript's `null` and `undefined`
      are distinct from every id, and from each other. */
  datatype StoredId = Null | Undefined | Id(id: string)

  /** `userId !== null`: a strict test, under which `undefined` and even an
      empty id count as signed in. */
  function LoggedIn(userId: StoredId): (r: bool)
    ensures r <==> userId != Null
  {
    !userId.Null?
  }

  /** Only `null` is signed out: `undefined` and any id, empty or not, are
      signed in. */
  lemma OnlyNullIsSignedOut(id: string)
    ensures !LoggedIn(Null) && LoggedIn(Undefined) && LoggedIn(Id(id))
  {
  }

  class UserStore {
    var userId: StoredId

    constructor ()
      ensures userId == Null && !IsLoggedIn()
    {
      userId := Null;
    }

    /** `setUserId`: the store holds exactly the value given. */
    method SetUserId(id: StoredId)
      modifies this
      ensures userId == id && GetUserId() == id
      ensures IsLoggedIn() <==> id != Null
    {
      userId := id;
    }

    /** `clearUserId`: back to `null`, signed out. */
    method ClearUserId()
      modifies this
      ensures userId == Null && !IsLoggedIn()
    {
      userId := Null;
    }

    /** `getUserId`. */
    function GetUserId(): (id: StoredId)
      reads this
      ensures id == userId
    {
      userId
    }

    /** `isLoggedIn`. */
    function IsLoggedIn(): (r: bool)
      reads this
      ensures r == LoggedIn(userId)
    {
      userId != Null
    }
  }

  class SelectedDayStore {
    var selectedDay: Option<Date>

    constructor ()
      ensures selectedDay == None
    {
      selectedDay := None;
    }

    /** `setSelectedDay`: the store holds exactly that day, or `null`. */
    method SetSelectedDay(day: Option<Date>)
      modifies this
      ensures selectedDay == day
    {
      selectedDay := day;
    }

    /** `clearSelectedDay`: back to the initial `null`. */
    method ClearSelectedDay()
      modifies this
      ensures selectedDay == None
    {
      selectedDay := None;
    }
  }
}
