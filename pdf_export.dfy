/** The PDF export of a user's journals: the journals are fetched for the
    user, sorted newest first in place, and turned into a printable document
    whose header totals the entries' characters and words. Only the data the
    document shows is modelled, not its markup. */
module PdfExport {
  import opened Options
  import opened JsText
  import opened Visibility

  /** A journal as the export reads it. Dates are time values in
      milliseconds; `journaldate` is missing or empty for some entries. */
  datatype PdfJournal = PdfJournal(title: Option<string>, content: Option<string>, visibility: Option<string>,
                                   isAnonymous: bool, journaldate: Option<int>, createdAt: int,
                                   likesCount: Option<int>, readsCount: Option<int>)

  /** The options used when the caller passes none. */
  const DefaultVisibilityOptions: seq<VisibilityOption> := [
    VisibilityOption("private", "\U{1F512}", "Private"),
    VisibilityOption("close-circle", "\U{1F465}", "Close Circle")
  ]

  /** `currentVisibilityOptions`: the caller's options unless there are none. */
  function CurrentVisibilityOptions(options: seq<VisibilityOption>): (r: seq<VisibilityOption>)
    ensures options != [] ==> r == options
    ensures options == [] ==> r == DefaultVisibilityOptions
  {
    if |options| > 0 then options else DefaultVisibilityOptions
  }

  /** With the default options, a value other than the two they name shows
      the private badge. */
  lemma UnknownValueShowsPrivate(value: string)
    requires value != "private" && value != "close-circle"
    ensures VisibilityDisplay(CurrentVisibilityOptions([]), Some(value)) == PrivateBadge
  {
    var d := DefaultVisibilityOptions;
    assert forall i :: 0 <= i < |d| ==> d[i].value != value;
  }

  // ---------------------------------------------------------------------------
  // Newest first

  /** The date an entry sorts by: `journaldate || createdAt`. */
  function SortKey(j: PdfJournal): int {
    if j.journaldate.Some? then j.journaldate.value else j.createdAt
  }

  /** Every entry is at least as new as every entry after it. */
  ghost predicate NewestFirst(s: seq<PdfJournal>) {
    forall p, q :: 0 <= p < q < |s| ==> SortKey(s[p]) >= SortKey(s[q])
  }

  /** Exchanging neighbours keeps the multiset of entries. */
  lemma SwapKeepsEntries(s: seq<PdfJournal>, j: nat)
    requires 0 < j < |s|
    ensures multiset(s[j - 1 := s[j]][j := s[j - 1]]) == multiset(s)
  {
    var t := s[j - 1 := s[j]][j := s[j - 1]];
    assert s == s[..j - 1] + [s[j - 1], s[j]] + s[j + 1..];
    assert t == s[..j - 1] + [s[j], s[j - 1]] + s[j + 1..];
  }

  /** The entries dated `k`, in their order. */
  function WithKey(s: seq<PdfJournal>, k: int): seq<PdfJournal> {
    if s == [] then []
    else (if SortKey(s[0]) == k then [s[0]] else []) + WithKey(s[1..], k)
  }

  lemma {:induction false} WithKeyAppend(s: seq<PdfJournal>, t: seq<PdfJournal>, k: int)
    ensures WithKey(s + t, k) == WithKey(s, k) + WithKey(t, k)
  {
    if s != [] {
      assert (s + t)[1..] == s[1..] + t;
      WithKeyAppend(s[1..], t, k);
    } else {
      assert s + t == t;
    }
  }

  /** Two neighbours with different dates contribute to each date's list in
      either order alike. */
  lemma PairWithKey(x: PdfJournal, y: PdfJournal, post: seq<PdfJournal>, k: int)
    requires SortKey(x) != SortKey(y)
    ensures WithKey([x, y] + post, k) == WithKey([y, x] + post, k)
  {
    assert ([x, y] + post)[1..] == [y] + post;
    assert ([y, x] + post)[1..] == [x] + post;
    assert ([y] + post)[1..] == post;
    assert ([x] + post)[1..] == post;
  }

  /** Exchanging neighbours with different dates keeps the order of the
      entries dated `k`. */
  lemma SwapKeepsKey(s: seq<PdfJournal>, j: nat, k: int)
    requires 0 < j < |s| && SortKey(s[j - 1]) != SortKey(s[j])
    ensures WithKey(s[j - 1 := s[j]][j := s[j - 1]], k) == WithKey(s, k)
  {
    var pre, post := s[..j - 1], s[j + 1..];
    assert s == pre + ([s[j - 1], s[j]] + post);
    assert s[j - 1 := s[j]][j := s[j - 1]] == pre + ([s[j], s[j - 1]] + post);
    WithKeyAppend(pre, [s[j - 1], s[j]] + post, k);
    WithKeyAppend(pre, [s[j], s[j - 1]] + post, k);
    PairWithKey(s[j - 1], s[j], post, k);
  }

  /** Exchanging neighbours with different dates keeps, for every date, the
      order of the entries with that date. */
  lemma SwapKeepsDateOrder(s: seq<PdfJournal>, j: nat)
    requires 0 < j < |s| && SortKey(s[j - 1]) != SortKey(s[j])
    ensures forall k :: WithKey(s[j - 1 := s[j]][j := s[j - 1]], k) == WithKey(s, k)
  {
    forall k
      ensures WithKey(s[j - 1 := s[j]][j := s[j - 1]], k) == WithKey(s, k)
    {
      SwapKeepsKey(s, j, k);
    }
  }

  /** The first `n` entries are newest first. */
  ghost predicate NewestFirstUpTo(s: seq<PdfJournal>, n: nat) {
    forall p, q :: 0 <= p < q < n && q < |s| ==> SortKey(s[p]) >= SortKey(s[q])
  }

  /** `data.sort((a, b) => date(b) - date(a))`, as an insertion sort that
      moves each entry left past the older ones. The sort is stable, as
      `Array.prototype.sort` must be: entries with the same date keep their
      order. */
  method SortNewestFirst(a: array<PdfJournal>)
    modifies a
    ensures NewestFirst(a[..])
    ensures multiset(a[..]) == multiset(old(a[..]))
    ensures forall k :: WithKey(a[..], k) == WithKey(old(a[..]), k)
  {
    var i := 0;
    while i < a.Length
      invariant 0 <= i <= a.Length
      invariant NewestFirstUpTo(a[..], i)
      invariant multiset(a[..]) == multiset(old(a[..]))
      invariant forall k :: WithKey(a[..], k) == WithKey(old(a[..]), k)
    {
      InsertNewest(a, i);
      i := i + 1;
    }
  }

  /** While `s[j]` moves left: the first `i + 1` entries other than the one
      at `j` are newest first, and the moving one is newer than those it passed. */
  ghost predicate Inserting(s: seq<PdfJournal>, j: nat, i: nat) {
    && j <= i < |s|
    && (forall p, q :: 0 <= p < q <= i && p != j && q != j ==> SortKey(s[p]) >= SortKey(s[q]))
    && (forall q :: j < q <= i ==> SortKey(s[j]) > SortKey(s[q]))
  }

  /** One exchange keeps `Inserting`, one place further left. */
  lemma InsertingStep(s: seq<PdfJournal>, j: nat, i: nat)
    requires Inserting(s, j, i) && j > 0 && SortKey(s[j - 1]) < SortKey(s[j])
    ensures Inserting(s[j - 1 := s[j]][j := s[j - 1]], j - 1, i)
    ensures multiset(s[j - 1 := s[j]][j := s[j - 1]]) == multiset(s)
  {
    SwapKeepsEntries(s, j);
  }

  /** Where the moving entry stops, the first `i + 1` entries are newest first. */
  lemma InsertingDone(s: seq<PdfJournal>, j: nat, i: nat)
    requires Inserting(s, j, i) && (j == 0 || SortKey(s[j - 1]) >= SortKey(s[j]))
    ensures NewestFirstUpTo(s, i + 1)
  {
  }

  /** Moves `a[i]` left past the older entries before it, so that the first
      `i + 1` entries are newest first. */
  method InsertNewest(a: array<PdfJournal>, i: nat)
    requires i < a.Length && NewestFirstUpTo(a[..], i)
    modifies a
    ensures NewestFirstUpTo(a[..], i + 1)
    ensures multiset(a[..]) == multiset(old(a[..]))
    ensures forall k :: WithKey(a[..], k) == WithKey(old(a[..]), k)
  {
    var j: nat := i;
    while j > 0 && SortKey(a[j - 1]) < SortKey(a[j])
      invariant Inserting(a[..], j, i)
      invariant multiset(a[..]) == multiset(old(a[..]))
      invariant forall k :: WithKey(a[..], k) == WithKey(old(a[..]), k)
    {
      InsertingStep(a[..], j, i);
      SwapKeepsDateOrder(a[..], j);
      a[j - 1], a[j] := a[j], a[j - 1];
      j := j - 1;
    }
    InsertingDone(a[..], j, i);
  }

  // ---------------------------------------------------------------------------
  // The document

  /** `content?.length || 0` and the word count, both 0 without content. */
  function EntryStats(j: PdfJournal): (r: (nat, nat))
    ensures j.content.None? ==> r == (0, 0)
    ensures j.content.Some? ==> r == (JsLength(j.content.value), RunCount(j.content.value))
  {
    if j.content.None? then (0, 0)
    else
      WordCountIsRunCount(j.content.value);
      (JsLength(j.content.value), WordCount(j.content.value))
  }

  /** An entry's text: one line per newline-separated piece with empty pieces
      written as `&nbsp;`, or the fallback when there is no content. */
  datatype EntryBody = Lines(lines: seq<string>) | NoContentAvailable

  const NonBreakingSpaceEntity: string := "&nbsp;"

  function EntryLines(content: Option<string>): (body: EntryBody)
    ensures content.None? || content.value == [] ==> body == NoContentAvailable
    ensures content.Some? && content.value != [] ==>
              && body.Lines?
              && |body.lines| == multiset(content.value)['\n'] + 1
              && |body.lines| == |Split(content.value, '\n')|
              && forall i :: 0 <= i < |body.lines| ==>
                   body.lines[i] == if Split(content.value, '\n')[i] == [] then NonBreakingSpaceEntity
                                    else Split(content.value, '\n')[i]
  {
    if content.None? || content.value == [] then NoContentAvailable
    else
      var pieces := Split(content.value, '\n');
      SplitCount(content.value, '\n');
      Lines(seq(|pieces|, i requires 0 <= i < |pieces| =>
        if pieces[i] == [] then NonBreakingSpaceEntity else pieces[i]))
  }

  /** What one entry of the document shows. */
  datatype EntryView = EntryView(badge: (string, string), anonymous: bool, title: string, body: EntryBody,
                                 chars: nat, words: nat, likes: int, readCount: int)

  function ViewOf(options: seq<VisibilityOption>, j: PdfJournal): (v: EntryView)
    ensures v.badge == VisibilityDisplay(CurrentVisibilityOptions(options), j.visibility)
    ensures (v.chars, v.words) == EntryStats(j)
    ensures j.title.Some? && j.title.value != [] ==> v.title == j.title.value
    ensures j.title.None? || j.title.value == [] ==> v.title == "Untitled Entry"
    ensures v.body == EntryLines(j.content) && v.anonymous == j.isAnonymous
    ensures v.likes == j.likesCount.GetOr(0) && v.readCount == j.readsCount.GetOr(0)
  {
    var stats := EntryStats(j);
    EntryView(VisibilityDisplay(CurrentVisibilityOptions(options), j.visibility), j.isAnonymous,
              OrElse(j.title, "Untitled Entry"),
              EntryLines(j.content), stats.0, stats.1,
              j.likesCount.GetOr(0), j.readsCount.GetOr(0))
  }

  /** Each entry's (characters, words). */
  function StatsOf(journals: seq<PdfJournal>): (r: seq<(nat, nat)>)
    ensures |r| == |journals| && forall i :: 0 <= i < |r| ==> r[i] == EntryStats(journals[i])
  {
    seq(|journals|, i requires 0 <= i < |journals| => EntryStats(journals[i]))
  }

  /** The header's two `reduce` calls, as one left fold from `acc`. */
  function ReduceTotals(stats: seq<(nat, nat)>, acc: (nat, nat)): (nat, nat)
    decreases |stats|
  {
    if stats == [] then acc
    else ReduceTotals(stats[1..], (acc.0 + stats[0].0, acc.1 + stats[0].1))
  }

  /** The entries' own counts, added up. */
  function SumStats(stats: seq<(nat, nat)>): (nat, nat)
    decreases |stats|
  {
    if stats == [] then (0, 0)
    else
      var rest := SumStats(stats[1..]);
      (stats[0].0 + rest.0, stats[0].1 + rest.1)
  }

  /** The document: its title, the number of entries, the header totals and
      one view per entry, in order. */
  datatype Document = Document(title: string, entries: nat, chars: nat, words: nat, views: seq<EntryView>)

  /** The `userName` prop with its default: a prop that is not passed
      (`undefined`, here `None`) reads "Anonymous User"; any passed string,
      the empty one included, is used as it is. */
  function PropUserName(userName: Option<string>): (n: string)
    ensures userName.None? ==> n == "Anonymous User"
    ensures userName.Some? ==> n == userName.value
  {
    if userName.Some? then userName.value else "Anonymous User"
  }

  function BuildDocument(userName: string, options: seq<VisibilityOption>, journals: seq<PdfJournal>): (d: Document)
    ensures d.title == userName + "'s Journal Entries"
    ensures d.entries == |journals| == |d.views|
    ensures forall i :: 0 <= i < |d.views| ==> d.views[i] == ViewOf(options, journals[i])
    ensures (d.chars, d.words) == ReduceTotals(StatsOf(journals), (0, 0))
  {
    var totals := ReduceTotals(StatsOf(journals), (0, 0));
    Document(userName + "'s Journal Entries", |journals|, totals.0, totals.1,
             seq(|journals|, i requires 0 <= i < |journals| => ViewOf(options, journals[i])))
  }

  /** The fold from `acc` adds the entries' counts to `acc`. */
  lemma {:induction false} ReduceIsSum(stats: seq<(nat, nat)>, acc: (nat, nat))
    ensures ReduceTotals(stats, acc) == (acc.0 + SumStats(stats).0, acc.1 + SumStats(stats).1)
    decreases |stats|
  {
    if stats != [] {
      ReduceIsSum(stats[1..], (acc.0 + stats[0].0, acc.1 + stats[0].1));
    }
  }

  /** The header totals are the sums of the counts each entry shows. */
  lemma HeaderMatchesEntries(userName: string, options: seq<VisibilityOption>, journals: seq<PdfJournal>)
    ensures var d := BuildDocument(userName, options, journals);
            (d.chars, d.words) == SumStats(StatsOf(journals))
  {
    var d := BuildDocument(userName, options, journals);
    ReduceIsSum(StatsOf(journals), (0, 0));
    assert (d.chars, d.words) == ReduceTotals(StatsOf(journals), (0, 0));
  }

  // ---------------------------------------------------------------------------
  // The component

  /** The reply to `GET /api/journals/users/{userId}`. */
  datatype JournalsReply = Entries(journals: seq<PdfJournal>) | FetchFailed(message: string)

  /** The alert an export of no entries raises. */
  const NoEntriesAlert: string := "No journal entries found to download."

  class PdfExporter {
    var journals: seq<PdfJournal>
    var loading: bool
    var error: Option<string>
    var isGenerating: bool

    constructor ()
      ensures journals == [] && loading && error == None && !isGenerating
    {
      journals := [];
      loading := true;
      error := None;
      isGenerating := false;
    }

    /** The mount effect: with a user id, fetch that user's journals and keep
        them newest first; without one, request nothing and change nothing. */
    method LoadJournals(userId: Option<string>, reply: JournalsReply) returns (requested: Option<string>)
      modifies this
      ensures userId.None? || userId.value == [] ==>
                requested == None && journals == old(journals) && loading == old(loading) && error == old(error)
      ensures userId.Some? && userId.value != [] ==>
                requested == Some("/api/journals/users/" + userId.value) && !loading
      ensures userId.Some? && userId.value != [] && reply.Entries? ==>
                NewestFirst(journals) && multiset(journals) == multiset(reply.journals) && error == None
      ensures userId.Some? && userId.value != [] && reply.Entries? ==>
                forall k :: WithKey(journals, k) == WithKey(reply.journals, k)
      ensures userId.Some? && userId.value != [] && reply.FetchFailed? ==>
                journals == old(journals) && error == Some(reply.message)
      ensures isGenerating == old(isGenerating)
    {
      if userId.None? || userId.value == [] {
        return None;
      }
      requested := Some("/api/journals/users/" + userId.value);
      loading := true;
      error := None;
      match reply {
      case Entries(data) =>
        var a := new PdfJournal[|data|](i requires 0 <= i < |data| => data[i]);
        assert a[..] == data;
        SortNewestFirst(a);
        journals := a[..];
      case FetchFailed(message) =>
        error := Some(message);
      }
      loading := false;
    }

    /** `generatePDF`: no entries means no document, the alert and no
        generating flag; otherwise the flag is raised and the document built. */
    method GeneratePdf(userName: Option<string>, options: seq<VisibilityOption>)
      returns (doc: Option<Document>, alert: Option<string>)
      modifies this
      ensures old(journals) == [] ==>
                doc == None && alert == Some(NoEntriesAlert) && isGenerating == old(isGenerating)
      ensures old(journals) != [] ==>
                doc == Some(BuildDocument(PropUserName(userName), options, old(journals))) && alert == None && isGenerating
      ensures journals == old(journals) && loading == old(loading) && error == old(error)
    {
      if |journals| == 0 {
        return None, Some(NoEntriesAlert);
      }
      isGenerating := true;
      doc := Some(BuildDocument(PropUserName(userName), options, journals));
      alert := None;
    }
  }
}
