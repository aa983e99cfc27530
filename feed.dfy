/** The two journal feeds, the public one and the close circle: a page-by-page
    list of journals, the set of journals the reader has liked (toggled before
    the server answers), the like counts the server reports back, and how each
    card shows its author, hearts and reads. Server replies are parameters. */
module Feed {
  import opened Options
  import opened JsText
  import opened JsList

  /** Which page the state belongs to. */
  datatype FeedKind = Everyone | CloseCircle

  /** The list endpoint of each feed. */
  function ListPath(kind: FeedKind): string {
    match kind
    case Everyone => "/api/journal/public"
    case CloseCircle => "/api/journal/close-circle"
  }

  /** `?page=${page}&limit=10` on the feed's endpoint. */
  function PagePath(kind: FeedKind, page: int): string {
    ListPath(kind) + "?page=" + IntToString(page) + "&limit=10"
  }

  /** Different pages are requested under different paths: the page number
      reads back from the path. */
  lemma PagePathInjective(kind: FeedKind, p: int, q: int)
    requires PagePath(kind, p) == PagePath(kind, q)
    ensures p == q
  {
    var prefix := ListPath(kind) + "?page=";
    var a := IntToString(p);
    var b := IntToString(q);
    var x := prefix + a + "&limit=10";
    var y := prefix + b + "&limit=10";
    assert |a| == |b|;
    assert x[|prefix|..|prefix| + |a|] == a;
    assert y[|prefix|..|prefix| + |b|] == b;
    IntToStringInjective(p, q);
  }

  datatype Author = Author(name: string, location: string, profileImage: string)

  /** A journal card's data; `likes` and `reads` (here `readCount`) may be missing. */
  datatype FeedJournal = FeedJournal(id: string, title: string, content: string, isAnonymous: bool,
                                     author: Option<Author>, likes: Option<int>, readCount: Option<int>)

  /** The reply to a page request: `journals`, `hasMore` and `currentPage`, or
      a failure with its message. */
  datatype PageReply = Page(journals: seq<FeedJournal>, hasMore: bool, currentPage: int)
                     | PageFailed(message: string)

  /** The reply to a like or unlike: the `likesCount` it carries, or a failure. */
  datatype LikeReply = Counted(likesCount: Option<int>) | LikeFailed

  /** The request a like click sends: DELETE when it was liked, POST otherwise. */
  datatype LikeRequest = Unlike(journalId: string) | Like(journalId: string)

  /** The reply to `GET /api/journal/user/likes`: an ok body with the optional
      `likedJournals`, a non-ok status, or a failure. */
  datatype LikesReply = LikesOk(likedJournals: Option<seq<string>>) | LikesNotOk | LikesError

  /** `prev.map(j => j._id === id ? { ...j, likes: count } : j)`. */
  function SetLikes(journals: seq<FeedJournal>, id: string, count: Option<int>): (r: seq<FeedJournal>)
    ensures |r| == |journals|
    ensures forall i :: 0 <= i < |r| && journals[i].id == id ==> r[i] == journals[i].(likes := count)
    ensures forall i :: 0 <= i < |r| && journals[i].id != id ==> r[i] == journals[i]
  {
    if journals == [] then []
    else
      var j := journals[0];
      var rest := SetLikes(journals[1..], id, count);
      [if j.id == id then j.(likes := count) else j] + rest
  }

  /** A later count for the same journal replaces the earlier one. */
  lemma SetLikesTwice(journals: seq<FeedJournal>, id: string, a: Option<int>, b: Option<int>)
    ensures SetLikes(SetLikes(journals, id, a), id, b) == SetLikes(journals, id, b)
  {
    var s1 := SetLikes(journals, id, a);
    var s2 := SetLikes(s1, id, b);
    var s3 := SetLikes(journals, id, b);
    assert |s2| == |s3|;
    forall i | 0 <= i < |s2| ensures s2[i] == s3[i] {
      assert s1[i].id == journals[i].id;
    }
  }

  /** An id no journal has changes nothing. */
  lemma SetLikesAbsent(journals: seq<FeedJournal>, id: string, count: Option<int>)
    requires forall i :: 0 <= i < |journals| ==> journals[i].id != id
    ensures SetLikes(journals, id, count) == journals
  {
    var r := SetLikes(journals, id, count);
    assert |r| == |journals|;
    forall i | 0 <= i < |r| ensures r[i] == journals[i] {
    }
  }

  /** The feed's state. */
  class FeedState {
    const kind: FeedKind
    var journals: seq<FeedJournal>
    var likedPosts: set<string>
    var loading: bool
    var loadingMore: bool
    var currentPage: int
    var hasMore: bool
    var error: Option<string>

    /** The state before the first load. */
    constructor (kind: FeedKind)
      ensures this.kind == kind && journals == [] && likedPosts == {}
      ensures loading && !loadingMore && currentPage == 1 && !hasMore && error == None
    {
      this.kind := kind;
      journals := [];
      likedPosts := {};
      loading := true;
      loadingMore := false;
      currentPage := 1;
      hasMore := false;
      error := None;
    }

    /** `fetchUserLikes`: an ok reply replaces the liked set with
        `likedJournals || []`; a non-ok status or a failure leaves it. */
    method FetchUserLikes(reply: LikesReply)
      modifies this
      ensures reply.LikesOk? ==> forall x :: x in likedPosts <==> x in reply.likedJournals.GetOr([])
      ensures !reply.LikesOk? ==> likedPosts == old(likedPosts)
      ensures journals == old(journals) && currentPage == old(currentPage) && hasMore == old(hasMore)
      ensures loading == old(loading) && loadingMore == old(loadingMore) && error == old(error)
    {
      if reply.LikesOk? {
        var ids := reply.likedJournals.GetOr([]);
        likedPosts := set x | x in ids;
      }
    }

    /** `fetchJournals(page, append)`: returns the path requested. A page
        appends to or replaces the list and sets `hasMore` and `currentPage`
        from the reply; a failure keeps them and records its message. Both
        loading flags end false. */
    method FetchJournals(page: int, append: bool, reply: PageReply) returns (path: string)
      modifies this
      ensures path == PagePath(kind, page)
      ensures reply.Page? ==> journals == (if append then old(journals) + reply.journals else reply.journals)
      ensures reply.Page? ==> hasMore == reply.hasMore && currentPage == reply.currentPage && error == None
      ensures reply.PageFailed? ==> journals == old(journals) && hasMore == old(hasMore)
      ensures reply.PageFailed? ==> currentPage == old(currentPage) && error == Some(reply.message)
      ensures !loading && !loadingMore && likedPosts == old(likedPosts)
    {
      if !append {
        loading := true;
      } else {
        loadingMore := true;
      }
      path := PagePath(kind, page);
      match reply {
      case Page(items, more, current) =>
        if append {
          journals := journals + items;
        } else {
          journals := items;
        }
        hasMore := more;
        currentPage := current;
        error := None;
      case PageFailed(message) =>
        error := Some(message);
      }
      loading := false;
      loadingMore := false;
    }

    /** `loadMore`: asks for the next page, appended, only when there is more
        and no page is already loading; returns the page asked for. */
    method LoadMore(reply: PageReply) returns (requested: Option<int>)
      modifies this
      ensures old(hasMore && !loadingMore) ==> requested == Some(old(currentPage) + 1)
      ensures old(hasMore && !loadingMore) && reply.Page? ==>
                journals == old(journals) + reply.journals
                && hasMore == reply.hasMore && currentPage == reply.currentPage && error == None
      ensures old(hasMore && !loadingMore) && reply.PageFailed? ==>
                journals == old(journals) && hasMore == old(hasMore) && currentPage == old(currentPage)
                && error == Some(reply.message)
      ensures old(hasMore && !loadingMore) ==> !loading && !loadingMore
      ensures !old(hasMore && !loadingMore) ==>
                requested == None && journals == old(journals) && currentPage == old(currentPage)
                && hasMore == old(hasMore) && loadingMore == old(loadingMore) && error == old(error)
                && loading == old(loading)
      ensures likedPosts == old(likedPosts)
    {
      if hasMore && !loadingMore {
        var next := currentPage + 1;
        var _ := FetchJournals(next, true, reply);
        requested := Some(next);
      } else {
        requested := None;
      }
    }

    /** `handleLike(id)`: flips the id in the liked set at once, sends the
        matching request, and on a reply sets that journal's `likes` to the
        reported count; a failure keeps the flipped set and the list. */
    method HandleLike(id: string, reply: LikeReply) returns (request: LikeRequest)
      modifies this
      ensures request == if id in old(likedPosts) then Unlike(id) else Like(id)
      ensures likedPosts == Toggle(old(likedPosts), id)
      ensures reply.Counted? ==> journals == SetLikes(old(journals), id, reply.likesCount)
      ensures reply.LikeFailed? ==> journals == old(journals)
      ensures currentPage == old(currentPage) && hasMore == old(hasMore) && error == old(error)
      ensures loading == old(loading) && loadingMore == old(loadingMore)
    {
      var isLiked := id in likedPosts;
      likedPosts := Toggle(likedPosts, id);
      request := if isLiked then Unlike(id) else Like(id);
      if reply.Counted? {
        journals := SetLikes(journals, id, reply.likesCount);
      }
    }
  }

  // ---------------------------------------------------------------------------
  // The card

  /** `journal.likes || 0`. */
  function LikesShown(likes: Option<int>): (n: int)
    ensures likes.None? ==> n == 0
    ensures likes.Some? ==> n == likes.value
  {
    likes.GetOr(0)
  }

  /** `Math.round(journal.reads/2) || 0`: half the reads, halves rounded up,
      and 0 when reads is missing. */
  function ReadsShown(readCount: Option<int>): (n: int)
    ensures readCount.None? ==> n == 0
    ensures readCount.Some? ==> 2 * n - 1 <= readCount.value <= 2 * n
  {
    if readCount.None? then 0 else (readCount.value + 1) / 2
  }

  /** The shown reads never exceed the count and are never negative for a
      count that is not. */
  lemma ReadsShownBounds(readCount: int)
    requires readCount >= 0
    ensures 0 <= ReadsShown(Some(readCount)) <= readCount
  {
  }

  /** The label shown instead of a hidden author. */
  function HiddenAuthorLabel(kind: FeedKind): string {
    match kind
    case Everyone => "Anonymous Writer"
    case CloseCircle => "A Friend"
  }

  /** The author line of a card: the name shown and the location, if shown. */
  datatype AuthorLine = AuthorLine(name: string, location: Option<string>, showsAvatar: bool)

  /** `journal.isAnonymous || !journal.author`: the author is hidden behind
      the feed's label, with the location and avatar hidden too; otherwise the
      name shows, and the location when it is not empty. */
  function AuthorShown(kind: FeedKind, j: FeedJournal): (r: AuthorLine)
    ensures (j.isAnonymous || j.author.None?) ==> r == AuthorLine(HiddenAuthorLabel(kind), None, false)
    ensures !j.isAnonymous && j.author.Some? ==> r.name == j.author.value.name && r.showsAvatar
    ensures r.location.Some? <==> !j.isAnonymous && j.author.Some? && j.author.value.location != []
    ensures r.location.Some? ==> r.location.value == j.author.value.location
  {
    if j.isAnonymous || j.author.None? then AuthorLine(HiddenAuthorLabel(kind), None, false)
    else
      var a := j.author.value;
      AuthorLine(a.name, if a.location != [] then Some(a.location) else None, true)
  }

  /** A line of close-circle content: its text and whether a break follows. */
  datatype Span = Span(text: string, breakAfter: bool)

  /** Closecircle's `formatContent`: nothing for empty content, otherwise one
      span per line with a break after every line but the last. */
  function FormatContent(content: string): (spans: seq<Span>)
    ensures content == [] ==> spans == []
    ensures content != [] ==> |spans| == |Split(content, '\n')|
    ensures forall i :: 0 <= i < |spans| ==> spans[i].text == Split(content, '\n')[i]
    ensures forall i :: 0 <= i < |spans| ==> (spans[i].breakAfter <==> i < |spans| - 1)
  {
    if content == [] then []
    else
      var lines := Split(content, '\n');
      seq(|lines|, i requires 0 <= i < |lines| => Span(lines[i], i < |lines| - 1))
  }

  /** The text of the spans, one break per `breakAfter`. */
  function SpansText(spans: seq<Span>): string
    decreases |spans|
  {
    if spans == [] then []
    else spans[0].text + (if spans[0].breakAfter then "\n" else []) + SpansText(spans[1..])
  }

  lemma {:induction false} SpansTextIsJoin(spans: seq<Span>)
    requires spans != []
    requires forall i :: 0 <= i < |spans| ==> (spans[i].breakAfter <==> i < |spans| - 1)
    ensures SpansText(spans) == Join(TextsOf(spans), '\n')
    decreases |spans|
  {
    if |spans| > 1 {
      var rest := spans[1..];
      assert forall i :: 0 <= i < |rest| ==> rest[i] == spans[i + 1];
      SpansTextIsJoin(rest);
      assert TextsOf(spans) == [spans[0].text] + TextsOf(rest);
    } else {
      assert SpansText(spans[1..]) == [];
    }
  }

  function TextsOf(spans: seq<Span>): (r: seq<string>)
    ensures |r| == |spans| && forall i :: 0 <= i < |r| ==> r[i] == spans[i].text
  {
    seq(|spans|, i requires 0 <= i < |spans| => spans[i].text)
  }

  /** The spans, with their breaks, read back as the content: line breaks are
      kept and nothing else is added. */
  lemma FormatContentKeepsText(content: string)
    ensures SpansText(FormatContent(content)) == content
  {
    if content != [] {
      var spans := FormatContent(content);
      SpansTextIsJoin(spans);
      assert TextsOf(spans) == Split(content, '\n');
      JoinSplit(content, '\n');
    }
  }
}
