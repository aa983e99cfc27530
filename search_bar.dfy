/** The user search box: the query, the users the server finds for its
    trimmed text, the dropdown that lists them, and selecting one. The token's
    presence and the server's reply are parameters; the 300 ms debounce is
    not modelled, each query change is followed by its search. */
module SearchBar {
  import opened Options
  import opened JsText

  /** A found user: `_id` and `id` (either may be missing), `fullName`,
      `name` and `username`. */
  datatype User = User(mongoId: Option<string>, id: Option<string>, fullName: Option<string>,
                       name: Option<string>, username: string)

  /** The reply to the search request: `response.data.users`, possibly
      missing, or a failed request. */
  datatype SearchReply = Found(users: Option<seq<User>>) | SearchFailed

  /** `searchUsers`: the users of the reply; a missing token, a failed request
      and a reply without `users` all give the empty list. */
  function SearchUsers(hasToken: bool, reply: SearchReply): (users: seq<User>)
    ensures !hasToken || reply.SearchFailed? ==> users == []
    ensures hasToken && reply.Found? && reply.users.Some? ==> users == reply.users.value
    ensures hasToken && reply.Found? && reply.users.None? ==> users == []
  {
    if !hasToken then []
    else match reply
      case Found(found) => found.GetOr([])
      case SearchFailed => []
  }

  /** `user._id || user.id`, as it appears in the profile path: the second
      operand is taken whenever the first is falsy, and a missing one prints
      as "undefined". */
  function UserKey(u: User): (key: string)
    ensures u.mongoId.Some? && u.mongoId.value != [] ==> key == u.mongoId.value
    ensures (u.mongoId.None? || u.mongoId.value == []) && u.id.Some? ==> key == u.id.value
    ensures (u.mongoId.None? || u.mongoId.value == []) && u.id.None? ==> key == "undefined"
  {
    if u.mongoId.Some? && u.mongoId.value != [] then u.mongoId.value
    else match u.id
      case Some(id) => id
      case None => "undefined"
  }

  /** `user.fullName || user.name` (a missing name shows nothing). */
  function DisplayName(u: User): (name: string)
    ensures u.fullName.Some? && u.fullName.value != [] ==> name == u.fullName.value
    ensures (u.fullName.None? || u.fullName.value == []) && u.name.Some? ==> name == u.name.value
  {
    if u.fullName.Some? && u.fullName.value != [] then u.fullName.value
    else u.name.GetOr([])
  }

  /** What the dropdown shows. */
  datatype Dropdown = Closed | Searching | Results(users: seq<User>) | NoUsersFound

  function ShownDropdown(isOpen: bool, isLoading: bool, users: seq<User>): (d: Dropdown)
    ensures d == Closed <==> !isOpen
    ensures d == Searching <==> isOpen && isLoading
    ensures d.Results? <==> isOpen && !isLoading && |users| > 0
    ensures d.Results? ==> d.users == users
    ensures d == NoUsersFound <==> isOpen && !isLoading && users == []
  {
    if !isOpen then Closed
    else if isLoading then Searching
    else if |users| > 0 then Results(users)
    else NoUsersFound
  }

  class SearchBox {
    var searchQuery: string
    var filteredUsers: seq<User>
    var isOpen: bool
    var isLoading: bool

    /** The dropdown is open only over some results. */
    predicate Valid()
      reads this
    {
      isOpen ==> |filteredUsers| > 0
    }

    constructor ()
      ensures Valid()
      ensures searchQuery == [] && filteredUsers == [] && !isOpen && !isLoading
    {
      searchQuery := [];
      filteredUsers := [];
      isOpen := false;
      isLoading := false;
    }

    /** Typing into the input. */
    method HandleInput(value: string)
      modifies this
      ensures searchQuery == value
      ensures filteredUsers == old(filteredUsers) && isOpen == old(isOpen) && isLoading == old(isLoading)
    {
      searchQuery := value;
    }

    /** The effect on `searchQuery`: a blank query clears the results and
        closes the dropdown without a search; any other query searches its
        trimmed text, keeps what is found, and opens the dropdown exactly
        when something was. Returns the query handed to `searchUsers`, if
        any (which sends it only with a token). */
    method SearchEffect(hasToken: bool, reply: SearchReply) returns (searched: Option<string>)
      modifies this
      ensures Valid()
      ensures searchQuery == old(searchQuery)
      ensures IsBlank(searchQuery) ==>
                searched == None && filteredUsers == [] && !isOpen && isLoading == old(isLoading)
      ensures !IsBlank(searchQuery) ==>
                searched == Some(Trim(searchQuery)) && searched.value != [] && !isLoading
                && filteredUsers == SearchUsers(hasToken, reply)
                && (isOpen <==> |filteredUsers| > 0)
    {
      if Trim(searchQuery) == [] {
        filteredUsers := [];
        isOpen := false;
        return None;
      }
      isLoading := true;
      searched := Some(Trim(searchQuery));
      var users := SearchUsers(hasToken, reply);
      filteredUsers := users;
      isOpen := |users| > 0;
      isLoading := false;
    }

    /** `handleUserSelect`: the query is cleared, the dropdown closed, and the
        user's public profile is opened. */
    method HandleUserSelect(user: User) returns (path: string)
      modifies this
      ensures Valid()
      ensures searchQuery == [] && !isOpen
      ensures path == "/public/" + UserKey(user)
      ensures filteredUsers == old(filteredUsers) && isLoading == old(isLoading)
    {
      searchQuery := [];
      isOpen := false;
      path := "/public/" + UserKey(user);
    }

    /** `handleInputFocus`: the dropdown reopens only over earlier results. */
    method HandleInputFocus()
      requires Valid()
      modifies this
      ensures Valid()
      ensures isOpen <==> old(isOpen) || |filteredUsers| > 0
      ensures searchQuery == old(searchQuery) && filteredUsers == old(filteredUsers)
      ensures isLoading == old(isLoading)
    {
      if |filteredUsers| > 0 {
        isOpen := true;
      }
    }

    /** A click outside the box closes the dropdown. */
    method HandleOutsideClick()
      modifies this
      ensures Valid()
      ensures !isOpen
      ensures searchQuery == old(searchQuery) && filteredUsers == old(filteredUsers)
      ensures isLoading == old(isLoading)
    {
      isOpen := false;
    }
  }

  /** Whether the dropdown is open after the search for `query`. */
  function OpenAfterSearch(query: string, hasToken: bool, reply: SearchReply): (open: bool)
    ensures open ==> !IsBlank(query) && hasToken && reply.Found? && reply.users.Some?
  {
    !IsBlank(query) && |SearchUsers(hasToken, reply)| > 0
  }

  /** Selecting a user leaves a blank query, so the search that follows finds
      nothing and keeps the dropdown closed. */
  lemma SelectThenSearchClears(hasToken: bool, reply: SearchReply)
    ensures IsBlank([]) && !OpenAfterSearch([], hasToken, reply)
  {
  }
}
