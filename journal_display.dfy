/** The diary's view of one saved journal: the local like counter, the
    visibility badge, the content split into lines, the title and content
    fallbacks, the statistics line and the Edit and Delete buttons. The
    journal itself may be absent. */
module JournalDisplay {
  import opened Options
  import opened JsText
  import opened JsList
  import opened Visibility

  /** The fields of the displayed journal the view reads; each may be
      missing, and an empty string is as falsy as a missing one. */
  datatype ShownJournal = ShownJournal(id: Option<string>, title: Option<string>, content: Option<string>,
                                       visibility: Option<string>, isAnonymous: bool)

  /** `journal?._id || 'mock-id'`: the key the local like set uses. */
  function LikeKey(journal: Option<ShownJournal>): (key: string)
    ensures key != []
    ensures journal.Some? && journal.value.id.Some? && journal.value.id.value != [] ==> key == journal.value.id.value
  {
    if journal.Some? && journal.value.id.Some? && journal.value.id.value != [] then journal.value.id.value
    else "mock-id"
  }

  /** One click of the local like button: the key leaves or joins the liked
      set, and the count moves down or up by one with it. */
  function LikeStep(liked: set<string>, likes: int, key: string): (r: (set<string>, int))
    ensures r.0 == Toggle(liked, key)
    ensures key in liked ==> r.1 == likes - 1
    ensures key !in liked ==> r.1 == likes + 1
  {
    if key in liked then (liked - {key}, likes - 1) else (liked + {key}, likes + 1)
  }

  /** Two clicks restore both the liked set and the count. */
  lemma LikeStepTwice(liked: set<string>, likes: int, key: string)
    ensures var once := LikeStep(liked, likes, key);
            LikeStep(once.0, once.1, key) == (liked, likes)
  {
    var once := LikeStep(liked, likes, key);
    assert once.0 == Toggle(liked, key);
    ToggleTwice(liked, key);
  }

  /** Whatever the clicks, the count is the starting count plus one for
      being liked now and minus one for having been liked at the start. */
  lemma {:induction false} LikeStepsCount(liked: set<string>, likes: int, key: string, clicks: nat)
    ensures var r := LikeSteps(liked, likes, key, clicks);
            r.1 == likes + (if key in r.0 then 1 else 0) - (if key in liked then 1 else 0)
    decreases clicks
  {
    if clicks > 0 {
      var once := LikeStep(liked, likes, key);
      LikeStepsCount(once.0, once.1, key, clicks - 1);
    }
  }

  /** `clicks` successive clicks. */
  function LikeSteps(liked: set<string>, likes: int, key: string, clicks: nat): (set<string>, int)
    decreases clicks
  {
    if clicks == 0 then (liked, likes)
    else
      var once := LikeStep(liked, likes, key);
      LikeSteps(once.0, once.1, key, clicks - 1)
  }

  /** The view's local state: the liked set and the shown like count. The
      count's first value comes from the journal or from a random mock and is
      a constructor argument here. */
  class JournalView {
    var likedPosts: set<string>
    var likes: int
    var readsCount: int

    constructor (initialLikes: int, initialReads: int)
      ensures likedPosts == {} && likes == initialLikes && readsCount == initialReads
    {
      likedPosts := {};
      likes := initialLikes;
      readsCount := initialReads;
    }

    /** The mock `handleLike`. */
    method HandleLike(journal: Option<ShownJournal>)
      modifies this
      ensures (likedPosts, likes) == LikeStep(old(likedPosts), old(likes), LikeKey(journal))
      ensures readsCount == old(readsCount)
    {
      var key := LikeKey(journal);
      var isLiked := key in likedPosts;
      if isLiked {
        likedPosts := likedPosts - {key};
      } else {
        likedPosts := likedPosts + {key};
      }
      likes := if isLiked then likes - 1 else likes + 1;
    }

    /** Whether the heart shows as liked. */
    function IsLiked(journal: Option<ShownJournal>): (liked: bool)
      reads this
      ensures liked <==> LikeKey(journal) in likedPosts
    {
      LikeKey(journal) in likedPosts
    }
  }

  /** The badge: `visibilityOptions?.find(...)` with the private fallback; no
      options at all behaves as an empty list. */
  function Badge(options: Option<seq<VisibilityOption>>, journal: Option<ShownJournal>): (badge: (string, string))
    ensures options.None? || journal.None? ==> badge == PrivateBadge
    ensures options.Some? && journal.Some? ==> badge == VisibilityDisplay(options.value, journal.value.visibility)
  {
    var value := if journal.Some? then journal.value.visibility else None;
    VisibilityDisplay(options.GetOr([]), value)
  }

  const UntitledText: string := "Untitled Entry"
  const NoContentText: string := "No content available."
  const NonBreakingSpace: string := "\U{00A0}"

  function TitleShown(journal: Option<ShownJournal>): (title: string)
    ensures title != []
    ensures journal.Some? ==> title == OrElse(journal.value.title, UntitledText)
    ensures journal.None? ==> title == UntitledText
  {
    if journal.Some? then OrElse(journal.value.title, UntitledText) else UntitledText
  }

  /** The text `formatContent` receives: the content, or the fallback. */
  function ContentShown(journal: Option<ShownJournal>): (text: string)
    ensures text != []
    ensures journal.Some? ==> text == OrElse(journal.value.content, NoContentText)
    ensures journal.None? ==> text == NoContentText
  {
    if journal.Some? then OrElse(journal.value.content, NoContentText) else NoContentText
  }

  /** `formatContent`: nothing for empty content, otherwise one line per
      newline-separated piece, an empty piece shown as a non-breaking space. */
  function FormatContent(content: string): (lines: seq<string>)
    ensures content == [] ==> lines == []
    ensures content != [] ==> |lines| == multiset(content)['\n'] + 1
    ensures forall i :: 0 <= i < |lines| ==> lines[i] != [] && '\n' !in lines[i]
    ensures content != [] ==> |lines| == |Split(content, '\n')| && forall i :: 0 <= i < |lines| ==>
              lines[i] == if Split(content, '\n')[i] == [] then NonBreakingSpace else Split(content, '\n')[i]
  {
    if content == [] then []
    else
      var pieces := Split(content, '\n');
      SplitCount(content, '\n');
      seq(|pieces|, i requires 0 <= i < |pieces| => if pieces[i] == [] then NonBreakingSpace else pieces[i])
  }

  /** What the view shows is never empty: at least one line, none of them blank. */
  lemma ShownContentHasLines(journal: Option<ShownJournal>)
    ensures |FormatContent(ContentShown(journal))| >= 1
  {
  }

  /** `journal?.content?.length || 0` and the word count, 0 without content. */
  function ContentStats(journal: Option<ShownJournal>): (r: (nat, nat))
    ensures journal.None? || journal.value.content.None? ==> r == (0, 0)
    ensures journal.Some? && journal.value.content.Some? ==>
              r == (JsLength(journal.value.content.value), RunCount(journal.value.content.value))
  {
    if journal.None? || journal.value.content.None? then (0, 0)
    else
      var c := journal.value.content.value;
      WordCountIsRunCount(c);
      (JsLength(c), WordCount(c))
  }

  /** `journal?.isAnonymous && ...`: the anonymous badge shows exactly for a
      journal that is there and anonymous; no journal shows none. */
  function ShowsAnonymousBadge(journal: Option<ShownJournal>): (shown: bool)
    ensures shown <==> journal.Some? && journal.value.isAnonymous
    ensures journal.None? ==> !shown
  {
    journal.Some? && journal.value.isAnonymous
  }

  datatype Action = Edit | Delete

  /** `{onEdit && ...}{onDelete && ...}`: each button exactly when its
      callback is given, Edit first. */
  function Actions(hasOnEdit: bool, hasOnDelete: bool): (actions: seq<Action>)
    ensures Edit in actions <==> hasOnEdit
    ensures Delete in actions <==> hasOnDelete
    ensures |actions| == (if hasOnEdit then 1 else 0) + (if hasOnDelete then 1 else 0)
    ensures hasOnEdit ==> actions[0] == Edit
  {
    (if hasOnEdit then [Edit] else []) + (if hasOnDelete then [Delete] else [])
  }
}
