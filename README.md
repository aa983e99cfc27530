# Jurnabl client logic in Dafny

Jurnabl is a journaling web client written in React. A signed-in user keeps a
diary: a calendar shows the month, and a dot marks each day that has an entry.
For the chosen day the user writes a titled entry of at most 500 characters,
can attach a photo, and picks who sees it (private, or the close circle), with
an optional anonymous flag. Beside the diary are:

- two feeds of other people's entries ("everyone" and "close circle"), with
  likes and paging;
- a PDF export of the user's own entries;
- friend requests and a notifications popup;
- a community page that removes followers, followings and close friends;
- a user search box;
- the user's own profile with an edit dialog;
- other users' public profiles;
- a navigation bar with a pending-request badge.

Two small global stores hold the signed-in user's id and the chosen day.

This project models the deterministic logic under the rendering:

- the calendar's date arithmetic and date keys;
- the editor's length and height gates and its word count;
- the validation and the multipart form of a save;
- the like toggles and page merges of the feeds;
- the export's ordering and totals;
- the state machines of the social components.

Each component is a Dafny `class` whose fields are its React state, and whose
methods are its handlers. Each handler's contract states the whole new state:
the fields it sets, and that the others keep their values. The diary page
states this through a snapshot of all its fields.
Pure helpers and render conditions are Dafny functions. The properties are
proved as lemmas. Some inputs become parameters:

- every server reply;
- whether a token is stored;
- the current moment;
- the textarea's measured heights.

JavaScript built-ins the code relies on live in two shared modules:

- `JsText` has `trim`, `\s`, `split`, `join`, UTF-16 `length`, `String(n)` and
  `padStart`;
- `JsList` has filter-by-id and the liked-set toggle.

Dates are `(year, monthIndex 0..11, day)` triples in the proleptic Gregorian
calendar. `new Date(y, m, d)` is modelled with its two-digit-year rule (a year
from 0 to 99 means 1900+y) and its overflow normalisation, so that "day 0 of
the next month" and month navigation are the code's own formulas. For years
of 100 and later the rule changes nothing; below that, the lemmas say how the
month shown and the round trip of navigation differ.

## Model

| member | source | states |
|---|---|---|
| Calendar.DaysInMonth | src/components/Mydiary/calendar.js:76-78 | a month has 28 to 31 days, with February 29 in leap years |
| Calendar.MakeDate | src/components/Mydiary/calendar.js:75-76 | within the time-value range, `new Date(y, m, d)` yields a valid date: a year in 0..99 is read as 1900+y, an out-of-range month is carried into the year and an out-of-range day into the months |
| Calendar.FullYear | src/components/Mydiary/calendar.js:75-76 | the year `new Date(y, m, d)` uses: 1900+y for y in 0..99, y otherwise |
| Calendar.MakeDateInMonth | src/components/Mydiary/calendar.js:89 | a day within the month of the year `new Date` reads is not carried |
| Calendar.MakeDateOfValid | src/components/Mydiary/calendar.js:89 | components that already form a date are kept outside the years 0..99; in 1..99 the year becomes 1900+y, and in year 0 February 29 becomes March 1 1900 |
| Calendar.LastDayOfMonth | src/components/Mydiary/calendar.js:76-78 | day 0 of the next month is the last day of this month in the year `new Date` reads, so `lastDay.getDate()` is that year's Gregorian month length |
| Calendar.Weekday | src/components/Mydiary/calendar.js:77 | `getDay()` lies in 0..6 |
| Calendar.EpochIsThursday | src/components/Mydiary/calendar.js:77 | the weekday numbering matches JavaScript's: 1970-01-01 is day 4, Thursday, and every date's weekday is 4 plus its days since then, modulo 7 |
| Calendar.NextDay | src/components/Mydiary/calendar.js:88-89 | the day after a valid date is a valid date |
| Calendar.NextDayNumber | src/components/Mydiary/calendar.js:88-89 | the day after is exactly one day number later |
| Calendar.WeekdayOfNextDay | src/components/Mydiary/calendar.js:83-89 | weekdays cycle: the next day has the next weekday modulo 7 |
| Calendar.DayNumberOrder | src/components/Mydiary/calendar.js:92 | day numbers order valid dates exactly as the calendar does, in both directions |
| Calendar.FutureIffAfterToday | src/components/Mydiary/calendar.js:92 | `currentDate > today` holds iff the day is strictly after today's date, whatever the time of day, so today is never future |
| Calendar.Navigate | src/components/Mydiary/calendar.js:118-125 | month navigation always lands on day 1 of a valid month |
| Calendar.NavigateForward | src/components/Mydiary/calendar.js:118-125 | +1 gives the next month, or January of the next year from December, in the year `new Date` reads |
| Calendar.NavigateBackward | src/components/Mydiary/calendar.js:118-125 | -1 gives the previous month, or December of the previous year from January, in the year `new Date` reads |
| Calendar.NavigateRoundTrip | src/components/Mydiary/calendar.js:118-125 | going any number of months and back returns to the first of the month viewed, whenever neither year involved lies in 0..99 |
| Calendar.NavigateAcrossYear100 | src/components/Mydiary/calendar.js:118-125 | back from January 100 reaches December 99, and forward from there reaches January 2000, since `new Date` reads 99 as 1999 |
| Calendar.HandleToday | src/components/Mydiary/calendar.js:54-58 | "Jump to Today" sets both the selected and the shown date to today's date, which is never future |
| Calendar.DateKeyInjective | src/components/Mydiary/calendar.js:35 | distinct days have distinct zero-padded `YYYY-MM-DD` keys |
| Calendar.InvalidKeyIsNoDay | src/components/Mydiary/calendar.js:34-35 | no day's key equals the key an unparseable `journaldate` produces |
| Calendar.MarkedIffListed | src/components/Mydiary/calendar.js:33-36 | a day carries a dot iff some journal of the listing is dated that day, because the key is built identically when added and when looked up |
| Calendar.CalendarWidget.constructor | src/components/Mydiary/calendar.js:5-7 | no marks, not loading, no warning |
| Calendar.CalendarWidget.FetchJournalDatesForMonth | src/components/Mydiary/calendar.js:10-48 | no token: no request and the marks stay; a failure or a non-array body gives no marks; otherwise exactly the listing's keys; loading ends false on every path |
| Calendar.CalendarWidget.ListingKeys | src/components/Mydiary/calendar.js:29-38 | the loop collects exactly the keys of the journals that have a `journaldate` |
| Calendar.CalendarWidget.DayButton | src/components/Mydiary/calendar.js:89-111 | a day's button shows its number and its today, selected, future and has-journal flags |
| Calendar.CalendarWidget.HandleDateClick | src/components/Mydiary/calendar.js:60-67 | a future day raises the warning and selects nothing; any other day is passed to `onDateSelect` |
| Calendar.CalendarWidget.MonthLayout | src/components/Mydiary/calendar.js:75-78 | the grid starts at the weekday of the first of the month and spans the month's length, in the year `new Date` reads |
| Calendar.CalendarWidget.RenderCalendarDays | src/components/Mydiary/calendar.js:74-116 | exactly `firstWeekday` blanks, then exactly `daysInMonth` buttons for days 1..n in order, each for the date `new Date` builds |
| Calendar.CalendarWidget.BlankCells | src/components/Mydiary/calendar.js:83-85 | `count` blank cells |
| Calendar.CalendarWidget.AppendDayCells | src/components/Mydiary/calendar.js:88-113 | keeps the cells before it, then adds one button per day, the k-th showing day k of the month in the year `new Date` reads |
| JournalForm.ContentChange | src/components/Mydiary/journalForm.js:83-87 | new content is forwarded unchanged iff its length is at most 500 |
| JournalForm.TextareaDecision | src/components/Mydiary/journalForm.js:107-126 | a non-lengthening edit is forwarded iff it fits the limit; at the height limit a lengthening edit is dropped; below it the edit goes to the length gate |
| JournalForm.EditsStayWithinLimit | src/components/Mydiary/journalForm.js:60 | any series of edits keeps content that starts within 500 characters within 500 (with lines 83-87) |
| JournalForm.FullSpaceNeverGrows | src/components/Mydiary/journalForm.js:119-121 | while the height limit is reached, no series of edits makes the content longer |
| JournalForm.KeyDecision | src/components/Mydiary/journalForm.js:97-105 | below the height limit no key is prevented; at it, exactly the keys outside the allowed list without Ctrl or Meta are prevented |
| JournalForm.Editor.constructor | src/components/Mydiary/journalForm.js:61 | the height flag starts false |
| JournalForm.Editor.CheckHeightLimit | src/components/Mydiary/journalForm.js:89-95 | with a mounted textarea the flag becomes `scrollHeight > clientHeight`; without one it stays |
| JournalForm.Editor.HandleTextareaChange | src/components/Mydiary/journalForm.js:107-126 | the textarea handler decides by the current flag, and never forwards more than 500 characters |
| JournalForm.Editor.HandleKeyPress | src/components/Mydiary/journalForm.js:97-105 | a key is prevented only when the height limit is reached |
| JournalForm.RemainingChars | src/components/Mydiary/journalForm.js:133 | the remaining count is at most 500 |
| JournalForm.NearLimitIffLong | src/components/Mydiary/journalForm.js:133-134 | near-limit holds iff the content is at least 450 UTF-16 units long |
| JournalForm.LimitMessage | src/components/Mydiary/journalForm.js:229-233 | the warning shows iff near the limit and reads "Character limit reached!" iff nothing remains |
| JournalForm.LimitMessageCount | src/components/Mydiary/journalForm.js:231 | otherwise the remaining count in the warning reads back as `remainingChars` |
| JournalForm.Stats | src/components/Mydiary/journalForm.js:228 | the character count is the UTF-16 length, 0 iff the content is empty; the word count is the number of whitespace-separated runs, 0 iff the content is blank |
| JournalForm.PrivateHidesCheckbox | src/components/Mydiary/journalForm.js:21-26 | among the mock selector's choices, the anonymous checkbox shows for every one except "private" |
| ActionButtons.SaveDisabled | src/components/Mydiary/actionbuttons.js:17 | Save is disabled iff the trimmed title or the trimmed content is empty, or a save is loading |
| ActionButtons.EnabledSaveValidates | src/components/Mydiary/actionbuttons.js:17-20 | a clickable Save always passes the save handlers' validation and looks enabled |
| ActionButtons.WhitespaceLooksEnabled | src/components/Mydiary/actionbuttons.js:17-20 | the style tests the untrimmed fields: with no save running, the button looks enabled yet is disabled exactly when both fields are non-empty and one is all whitespace |
| ActionButtons.SaveLabel | src/components/Mydiary/actionbuttons.js:25 | the label priority is "Saved!", then "Saving...", then "Update Journal", then "Save Entry", each iff the earlier ones do not apply |
| ActionButtons.ShowsCancel | src/components/Mydiary/actionbuttons.js:29-34 | the Cancel Edit button shows iff editing |
| ActionButtons.CancelMatchesUpdateLabel | src/components/Mydiary/actionbuttons.js:25-34 | with nothing saved or saving, Cancel Edit shows iff the save button reads "Update Journal" |
| Visibility.OptionButtons | src/components/Mydiary/visibilitySelector.js:15-28 | one button per option, in order, marked selected iff its value is the current visibility |
| Visibility.SelectedIsUnique | src/components/Mydiary/visibilitySelector.js:22 | with distinct values at most one option is selected, and one is iff the visibility is among them |
| Visibility.PrivateShowsNoHint | src/components/Mydiary/visibilitySelector.js:33 | the hint shows only inside the anonymous section, which never shows for "private" (with lines 47-51) |
| Visibility.FindOption | src/components/Mydiary/journalDisplay.js:49 | `find` gives the first option with the value, and nothing when none matches or the value is missing |
| Visibility.VisibilityDisplay | src/components/Mydiary/journalDisplay.js:48-51 | the matching option's icon and label, or the lock/"Private" fallback |
| Diary.LookupAppend | src/components/Mydiary.js:149-159 | appending a field keeps every earlier `formData.get` and adds the new one |
| Diary.LookupAppendAll | src/components/Mydiary.js:149-159 | the same for every field name at once |
| Diary.Validate | src/components/Mydiary.js:138-140 | the save is refused, with the "required" message, iff the trimmed title or the trimmed content is empty |
| Diary.CaughtMessage | src/components/Mydiary.js:186 | the shown error is the server's message if any, else the error's, else the fallback, and never empty |
| Diary.TextFields | src/components/Mydiary.js:150-153 | the four appended text fields read back as given, with no image, removeImage or date |
| Diary.CommonFieldsLookup | src/components/Mydiary.js:150-153 | both save paths send the trimmed title and content, the visibility and the anonymity flag (with lines 206-209) |
| Diary.UpdateFormFields | src/components/Mydiary.js:149-159 | an update sends `removeImage` iff there is no image and the journal had images, sends the file iff that is not so and one was chosen, never both, and no date |
| Diary.CreateFormFields | src/components/Mydiary.js:205-220 | a create sends the trimmed fields, `journaldate` as the selected day's zero-padded key, the file iff one was chosen, and no `removeImage` |
| Diary.UpdateOutcome | src/components/Mydiary.js:138-170 | the update checks, in order (fields, journal, token), each with its message; otherwise the PUT of the update form to the journal's id |
| Diary.CreateOutcome | src/components/Mydiary.js:198-231 | the create checks (fields, token), each with its message; otherwise the POST of the create form |
| Diary.SaveDispatch | src/components/Mydiary.js:253-259 | Save updates iff editing with a current journal, and creates otherwise |
| Diary.DiaryPage.constructor | src/components/Mydiary.js:16-31 | today selected and shown, an empty private form, nothing loading, no journal, not editing |
| Diary.DiaryPage.HandleImageChange | src/components/Mydiary.js:40-46 | a chosen file becomes the image and the file; no file changes nothing; no other state changes |
| Diary.DiaryPage.HandleRemoveImage | src/components/Mydiary.js:48-53 | the image and the file are both dropped; no other state changes |
| Diary.DiaryPage.HandleVisibilityChange | src/components/Mydiary.js:55-60 | the visibility is set; "private" forces non-anonymous; other values keep the flag; nothing outside the form changes |
| Diary.DiaryPage.ClearForm | src/components/Mydiary.js:106-113 | empty title and content, no image or file, "private", not anonymous; nothing else changes |
| Diary.DiaryPage.FetchJournalForDate | src/components/Mydiary.js:62-104 | a found journal is shown and clears the form unless editing; an empty body or a 404 shows none and clears the form; other errors keep the journal and set the message; loading ends false; nothing else changes |
| Diary.DiaryPage.HandleEdit | src/components/Mydiary.js:115-126 | copies the journal's fields (its first image if any) and starts editing, with nothing else changed; without a journal nothing changes |
| Diary.DiaryPage.HandleCancelEdit | src/components/Mydiary.js:128-131 | stops editing and clears the form; nothing else changes |
| Diary.DiaryPage.ApplyUpdateReply | src/components/Mydiary.js:172-187 | a 200 marks saved, stops editing, leaves the journal and error the reload gives and clears the form; another status or a rejection only sets the error |
| Diary.DiaryPage.HandleUpdateJournal | src/components/Mydiary.js:133-191 | the whole new state (UpdateDone): a refusal sends nothing and only shows its message; otherwise the update form's PUT is sent and the reply applied; the selected date is kept and loading ends false |
| Diary.DiaryPage.ApplyCreateReply | src/components/Mydiary.js:233-247 | a 201 marks saved, leaves the journal and error the reload gives and clears the form; another status or a rejection only sets the error |
| Diary.DiaryPage.HandleCreateJournal | src/components/Mydiary.js:193-251 | the whole new state (CreateDone): a refusal sends nothing and only shows its message; otherwise the create form's POST is sent and the reply applied; the selected date is kept and loading ends false |
| Diary.DiaryPage.HandleSave | src/components/Mydiary.js:253-259 | dispatches by SaveDispatch and ends in the state UpdateDone or CreateDone gives; a PUT only when updating, a POST only when creating, any request only for valid fields and a token |
| Feed.PagePathInjective | src/components/Everyone.js:47 | different pages are requested under different paths |
| Feed.SetLikes | src/components/Everyone.js:117-121 | only the journals with the matching `_id` get the new `likes`; all others are unchanged |
| Feed.SetLikesTwice | src/components/Everyone.js:117-121 | a later count for the same journal replaces the earlier one |
| Feed.SetLikesAbsent | src/components/Everyone.js:117-121 | an id no journal has changes nothing |
| Feed.FeedState.constructor | src/components/Everyone.js:7-13 | the initial feed state |
| Feed.FeedState.FetchUserLikes | src/components/Everyone.js:21-38 | an ok reply replaces the liked set with `likedJournals` or none; otherwise the set stays; nothing else changes |
| Feed.FeedState.FetchJournals | src/components/Everyone.js:41-76 | append gives old ++ page, replace gives the page, `hasMore` and `currentPage` come from the reply; a failure keeps them and records its message; loading flags end false |
| Feed.FeedState.LoadMore | src/components/Everyone.js:135-139 | page `currentPage+1` is requested and appended, with `hasMore`, `currentPage` and the error from the reply, only when `hasMore` and not `loadingMore`; otherwise nothing changes |
| Feed.FeedState.HandleLike | src/components/Everyone.js:79-132 | the id's membership flips at once, the matching request is sent, a reply updates only that journal, a failure keeps the flip and the list; paging and loading state stay |
| Feed.LikesShown | src/components/Everyone.js:347 | `likes || 0` |
| Feed.ReadsShown | src/components/Everyone.js:353 | shown reads are `round(reads/2)` (halves rounded up), and 0 without reads |
| Feed.ReadsShownBounds | src/components/Closecircle.js:330 | shown reads lie between 0 and the read count |
| Feed.AuthorShown | src/components/Closecircle.js:268-293 | an anonymous or author-less entry shows the feed's label ("A Friend", or "Anonymous Writer" in the public feed) with no location or avatar; otherwise the name, and a non-empty location |
| Feed.FormatContent | src/components/Closecircle.js:173-182 | empty content gives nothing; otherwise one span per line with a break after every line but the last |
| Feed.SpansTextIsJoin | src/components/Closecircle.js:176-179 | the spans with their breaks read as the lines joined by newlines |
| Feed.FormatContentKeepsText | src/components/Closecircle.js:173-182 | the rendered spans read back as exactly the content |
| JournalDisplay.LikeKey | src/components/Mydiary/journalDisplay.js:30 | the like key is the journal's `_id`, or "mock-id", and never empty |
| JournalDisplay.LikeStep | src/components/Mydiary/journalDisplay.js:29-46 | a click flips the key in the liked set and moves the count down or up by one with it |
| JournalDisplay.LikeStepTwice | src/components/Mydiary/journalDisplay.js:29-46 | two clicks restore both the set and the count |
| JournalDisplay.LikeStepsCount | src/components/Mydiary/journalDisplay.js:29-46 | after any number of clicks the count is the start, plus one if liked now, minus one if liked at the start |
| JournalDisplay.JournalView.constructor | src/components/Mydiary/journalDisplay.js:5-9 | no likes yet, and the given counts |
| JournalDisplay.JournalView.HandleLike | src/components/Mydiary/journalDisplay.js:29-46 | one LikeStep on the journal's key; the reads stay |
| JournalDisplay.JournalView.IsLiked | src/components/Mydiary/journalDisplay.js:84 | the heart is filled iff the key is in the liked set |
| JournalDisplay.Badge | src/components/Mydiary/journalDisplay.js:48-51 | missing options or a missing journal show the private badge; otherwise the lookup (with lines 83) |
| JournalDisplay.TitleShown | src/components/Mydiary/journalDisplay.js:130 | the title, or "Untitled Entry"; never empty |
| JournalDisplay.ContentShown | src/components/Mydiary/journalDisplay.js:136 | the content, or "No content available."; never empty |
| JournalDisplay.FormatContent | src/components/Mydiary/journalDisplay.js:73-81 | one line per newline-separated piece (a count of newlines plus one); empty pieces become a non-breaking space |
| JournalDisplay.ShownContentHasLines | src/components/Mydiary/journalDisplay.js:136 | the shown content always has at least one line |
| JournalDisplay.ContentStats | src/components/Mydiary/journalDisplay.js:160 | the characters and words of the content, both 0 without content |
| JournalDisplay.ShowsAnonymousBadge | src/components/Mydiary/journalDisplay.js:117-122 | the anonymous badge shows iff the journal is present and anonymous |
| JournalDisplay.Actions | src/components/Mydiary/journalDisplay.js:169-181 | Edit iff `onEdit`, Delete iff `onDelete`, Edit first |
| PdfExport.CurrentVisibilityOptions | src/components/pdfdownload.js:15-20 | the defaults are used iff the supplied options are empty |
| PdfExport.UnknownValueShowsPrivate | src/components/pdfdownload.js:64-67 | an unknown visibility shows the private fallback |
| PdfExport.SortNewestFirst | src/components/pdfdownload.js:44-46 | the entries end up newest first by `journaldate || createdAt`, as a stable permutation: the entries of each date keep their fetched order |
| PdfExport.InsertNewest | src/components/pdfdownload.js:44-46 | one insertion step extends the newest-first prefix, permutes the array and keeps the order within each date |
| PdfExport.InsertingStep | src/components/pdfdownload.js:44-46 | one exchange keeps the insertion invariant and the multiset |
| PdfExport.EntryStats | src/components/pdfdownload.js:395 | an entry's characters and words, both 0 without content |
| PdfExport.EntryLines | src/components/pdfdownload.js:389-391 | one div per line, blank lines as `&nbsp;`, and "No content available." for missing content |
| PdfExport.ViewOf | src/components/pdfdownload.js:350-396 | an entry's badge, stats, title fallback, body, anonymity and counts |
| PdfExport.StatsOf | src/components/pdfdownload.js:395 | one stats pair per entry |
| PdfExport.PropUserName | src/components/pdfdownload.js:6 | a missing `userName` prop reads "Anonymous User"; a passed one is used unchanged |
| PdfExport.BuildDocument | src/components/pdfdownload.js:105 | the title, the entry count, one view per entry, and the two `reduce` totals (with lines 344-350) |
| PdfExport.ReduceIsSum | src/components/pdfdownload.js:345-346 | a fold from `acc` adds the entries' counts to `acc` |
| PdfExport.HeaderMatchesEntries | src/components/pdfdownload.js:344-346 | the header totals equal the sums of the per-entry numbers (with lines 395) |
| PdfExport.PdfExporter.constructor | src/components/pdfdownload.js:9-12 | the initial state |
| PdfExport.PdfExporter.LoadJournals | src/components/pdfdownload.js:23-62 | without a user id nothing is fetched; otherwise the entries are kept newest first as a stable permutation of the reply, or the error is recorded |
| PdfExport.PdfExporter.GeneratePdf | src/components/pdfdownload.js:88-94 | an empty list gives no document and the "No journal entries" alert and leaves `isGenerating`; otherwise the flag is raised and the document built under the user name or its default; loading, error and the list stay |
| Notifications.AnswerToast | src/components/Notifications.js:82-97 | the toast is an error iff the answer failed (with lines 124-139) |
| Notifications.NotificationsPopup.constructor | src/components/Notifications.js:22-24 | no notifications, not loading, nothing processing |
| Notifications.NotificationsPopup.FetchNotifications | src/components/Notifications.js:30-62 | no request without a user id; otherwise the list becomes the reply's data, or stays with the "Failed to load notifications" toast on failure; loading ends false |
| Notifications.NotificationsPopup.BeginAnswer | src/components/Notifications.js:67 | the id joins the processing set; the list and loading stay (with lines 109) |
| Notifications.NotificationsPopup.FinishAnswer | src/components/Notifications.js:79-104 | on success exactly the entries with that id leave the list, every other entry kept with its multiplicity; on failure the list stays; the id leaves the processing set on both (with lines 121-146) |
| Notifications.NotificationsPopup.HandleAnswer | src/components/Notifications.js:66-105 | the post goes to the accept or reject endpoint; the list and processing set end as FinishAnswer says; loading stays (with lines 108-147) |
| Notifications.NotificationsPopup.ButtonsDisabled | src/components/Notifications.js:283-296 | Accept and Reject are disabled iff their id is processing |
| Notifications.AnswerRemovesExactlyOne | src/components/Notifications.js:80 | a successful answer removes exactly that id and keeps every other entry, in order and with its multiplicity (with lines 122) |
| Notifications.GetTimeAgo | src/components/Notifications.js:168-178 | "Just now" iff under an hour; "Nh ago" under a day; "Nd ago" under a week, with floored units; a date string iff a week or more |
| Notifications.HoursLabelValue | src/components/Notifications.js:171-174 | the hours label reads back as a whole number from 1 to 23 |
| Notifications.DaysLabelValue | src/components/Notifications.js:175-176 | the days label reads back as a whole number from 1 to 6 |
| FriendRequest.SendFailedToast | src/components/friendRequest.js:96-108 | the server's message if any, else "Failed to send friend request" |
| FriendRequest.StatusAfterCheck | src/components/friendRequest.js:36-43 | success adopts the server's status; an error gives "none"; no success keeps it |
| FriendRequest.StatusAfterSend | src/components/friendRequest.js:83-84 | a successful send gives "pending"; anything else keeps the status |
| FriendRequest.StatusAfterCancel | src/components/friendRequest.js:131-132 | a successful cancel gives "none"; anything else keeps the status |
| FriendRequest.SendThenCancel | src/components/friendRequest.js:83-84 | a successful send then cancel gives "none"; two failures change nothing (with lines 131-132) |
| FriendRequest.FriendRequestButton.constructor | src/components/friendRequest.js:12-14 | status "none", not loading, checking |
| FriendRequest.FriendRequestButton.CheckStatus | src/components/friendRequest.js:18-51 | only for a target user; without a token no request; otherwise the status after the check; checking ends |
| FriendRequest.FriendRequestButton.HandleSend | src/components/friendRequest.js:54-112 | without a token an auth toast and no request; otherwise the POST to the send endpoint, the status after it and its toast; loading ends false |
| FriendRequest.FriendRequestButton.HandleCancel | src/components/friendRequest.js:115-153 | without a token a silent return; otherwise the DELETE of the cancel endpoint for the target user, the status after it and its toast; loading ends false |
| FriendRequest.RenderButton | src/components/friendRequest.js:156-266 | a spinner iff checking; otherwise cancel iff "pending", a disabled button iff "accepted", and send for every other status |
| FriendRequest.SendLeadsToCancel | src/components/friendRequest.js:83-84 | where send is offered, a successful send leads to cancel being offered (with lines 174-183) |
| Community.RemovalTarget | src/components/me/community.js:229-247 | the endpoint and message per type, and none (an error before any request) iff the type is unknown |
| Community.FailureToast | src/components/me/community.js:273-279 | the server's message if any, else "Failed to remove user" |
| Community.CommunityPage.constructor | src/components/me/community.js:158-164 | no close friends, a zero count, nobody being removed |
| Community.CommunityPage.BeginRemove | src/components/me/community.js:227 | `removingUser` is the id |
| Community.CommunityPage.FinishRemove | src/components/me/community.js:228-282 | an unknown type requests nothing; a successful close-friend removal drops that id and decrements the count; other removals and failures leave both; `removingUser` ends null |
| Community.CommunityPage.HandleRemoveUser | src/components/me/community.js:226-283 | an unknown type requests nothing and shows the generic failure toast; a known type requests its endpoint, shows the type's success message on success and the server's message (or the fallback) on failure; the close-friend list and count as FinishRemove; `removingUser` ends null |
| Community.RemovalShrinksByOne | src/components/me/community.js:258-261 | when the friend was listed once the list shrinks by one, like the count |
| Community.RemoveText | src/components/me/community.js:49-60 | the label per type, "Remove" for any other |
| Community.ConfirmText | src/components/me/community.js:62-73 | the confirmation per type, naming the user, and the generic one for any other |
| Community.RemoveTextMatchesTarget | src/components/me/community.js:49-60 | the types with their own label are exactly the removable ones (with lines 232-247) |
| SearchBar.SearchUsers | src/components/SearchBar.js:20-39 | a missing token, a failure or a missing `users` gives []; otherwise the users |
| SearchBar.UserKey | src/components/SearchBar.js:85 | `_id` when truthy, otherwise `id` (printed "undefined" when missing) |
| SearchBar.DisplayName | src/components/SearchBar.js:186 | `fullName || name` |
| SearchBar.ShownDropdown | src/components/SearchBar.js:126-195 | closed iff not open; searching iff loading; the results iff some exist; "No users found" iff none |
| SearchBar.SearchBox.constructor | src/components/SearchBar.js:42-45 | empty query, no results, closed, not loading |
| SearchBar.SearchBox.HandleInput | src/components/SearchBar.js:104 | the query becomes the typed value |
| SearchBar.SearchBox.SearchEffect | src/components/SearchBar.js:56-80 | a blank query clears and closes without a search and leaves `isLoading`; otherwise the trimmed query is searched, the dropdown is open iff results exist, and loading ends false |
| SearchBar.SearchBox.HandleUserSelect | src/components/SearchBar.js:82-86 | clears the query, closes, and navigates to `/public/` plus the user's key |
| SearchBar.SearchBox.HandleInputFocus | src/components/SearchBar.js:88-92 | reopens iff it was open or results exist |
| SearchBar.SearchBox.HandleOutsideClick | src/components/SearchBar.js:50-53 | closes the dropdown |
| SearchBar.OpenAfterSearch | src/components/SearchBar.js:57-69 | the dropdown is open after a search only for a non-blank query with a token and a `users` reply |
| SearchBar.SelectThenSearchClears | src/components/SearchBar.js:57-61 | after a selection the following search finds nothing and stays closed (with lines 82-86) |
| MyProfile.Set | src/components/Myprofile.js:128-132 | only the edited field changes |
| MyProfile.SetIdentities | src/components/Myprofile.js:128-132 | setting a field to its value is a no-op; setting it twice keeps the second value |
| MyProfile.FormFrom | src/components/Myprofile.js:206-212 | every field from the profile, with '' for missing ones |
| MyProfile.PreviewFrom | src/components/Myprofile.js:213 | the stored image URL if non-empty, else no preview |
| MyProfile.Submitted | src/components/Myprofile.js:146-165 | the uploaded URL replaces `profileImage` when a file was chosen; every other field is the form's |
| MyProfile.SaveFailedToast | src/components/Myprofile.js:192-198 | the server's message if any, else "Failed to update profile" |
| MyProfile.ProfileEditor.constructor | src/components/Myprofile.js:51-61 | the initial empty editor |
| MyProfile.ProfileEditor.HandleImageChange | src/components/Myprofile.js:104-115 | a chosen file becomes the preview and the file and clears the URL field; no file changes nothing |
| MyProfile.ProfileEditor.HandleRemoveImage | src/components/Myprofile.js:117-126 | clears the preview, the file and the URL field |
| MyProfile.ProfileEditor.HandleEditInputChange | src/components/Myprofile.js:128-141 | the field changes; a non-blank image URL becomes the preview and drops the file; otherwise both stay |
| MyProfile.ProfileEditor.HandleEditOpen | src/components/Myprofile.js:204-216 | resets the form and preview from the profile, drops the file, and opens the dialog |
| MyProfile.ProfileEditor.HandleSaveProfile | src/components/Myprofile.js:143-202 | a failed upload submits nothing; else the submitted data; a successful save replaces the profile and closes the dialog; updating ends false |
| MyProfile.UploadReplacesOnlyBlankUrl | src/components/Myprofile.js:110-113 | a typed non-blank URL is never replaced by an upload (with lines 164) |
| Navbar.AtMostOneActive | src/components/Navbar.js:25-36 | at most one item is highlighted, and only the Notifications item has the badge (with lines 119) |
| Navbar.CountOf | src/components/Navbar.js:53-54 | a successful object counts its `data` (0 if missing), an array counts itself, and an unsuccessful object leaves the count undefined |
| Navbar.BadgeText | src/components/Navbar.js:135 | the badge shows iff the count is above 0, reads "99+" iff above 99, and has 1 to 3 characters (with lines 149) |
| Navbar.BadgeReadsCount | src/components/Navbar.js:149 | below the cap the badge reads back as the count |
| Navbar.NavbarState.constructor | src/components/Navbar.js:21-23 | closed popup and count 0 |
| Navbar.NavbarState.FetchNotificationCount | src/components/Navbar.js:39-58 | a request iff a user id; a reply sets CountOf of it; a failure keeps the count |
| Navbar.NavbarState.ToggleNotifications | src/components/Navbar.js:33 | the bell flips the popup |
| Navbar.NavbarState.HandleNotificationsClose | src/components/Navbar.js:71-74 | closes the popup and refreshes the count |
| PublicProfile.LoadFailedError | src/components/Public.js:68 | the server's message if any, else "Failed to load user profile" |
| PublicProfile.WithoutViewed | src/components/Public.js:105 | no suggestion has the viewed id, every other user is kept in order and with its multiplicity |
| PublicProfile.WithoutViewedIdempotent | src/components/Public.js:105 | filtering twice equals filtering once |
| PublicProfile.PublicPage.constructor | src/components/Public.js:31-35 | no user, loading, no error, no suggestions, suggestions loading |
| PublicProfile.PublicPage.FetchUserData | src/components/Public.js:40-80 | no user id or no token gives its error and no request; a well-formed reply sets the user; a malformed or failed one sets its error; loading ends false |
| PublicProfile.PublicPage.FetchSuggestedUsers | src/components/Public.js:83-114 | a well-formed reply replaces the suggestions without the viewed user; anything else keeps them; loading ends false |
| PublicProfile.ShownPage | src/components/Public.js:132-192 | the skeleton iff loading, then the error, then the no-data warning, then the profile |
| PublicProfile.DisplayName | src/components/Public.js:223 | name, then fullName, then "Unknown User" |
| PublicProfile.Handle | src/components/Public.js:226 | "@" plus the username, or "@unknown" |
| PublicProfile.WellFormedReplyShowsProfile | src/components/Public.js:60-62 | after a well-formed reply the page shows exactly that profile (with lines 132-192) |
| PublicProfile.EarlyExitsShowError | src/components/Public.js:42-47 | each early exit lands on the error alert with its message (with lines 63-65, 74-79) |
| Stores.LoggedIn | src/stores/userdetails.js:16 | logged in iff the id is not `null` |
| Stores.OnlyNullIsSignedOut | src/stores/userdetails.js:16 | `undefined` and any id, even empty, count as logged in |
| Stores.UserStore.constructor | src/stores/userdetails.js:4 | the id starts `null` |
| Stores.UserStore.SetUserId | src/stores/userdetails.js:7 | the store holds exactly the value given, and `getUserId` returns it |
| Stores.UserStore.ClearUserId | src/stores/userdetails.js:10 | back to `null`, logged out |
| Stores.UserStore.GetUserId | src/stores/userdetails.js:13 | the stored id |
| Stores.UserStore.IsLoggedIn | src/stores/userdetails.js:16 | the strict `!== null` test |
| Stores.SelectedDayStore.constructor | src/stores/dataStore.js:5 | the day starts `null` |
| Stores.SelectedDayStore.SetSelectedDay | src/stores/dataStore.js:6 | the store holds exactly the day given |
| Stores.SelectedDayStore.ClearSelectedDay | src/stores/dataStore.js:7 | back to the initial `null` |
| JsText.TrimProperties | src/components/Mydiary.js:138 | `trim` leaves no whitespace at either end, and is empty iff the input is all whitespace |
| JsText.BlankIffAllSpace | src/components/Mydiary/actionbuttons.js:17 | `!s.trim()` holds iff `s` is all whitespace |
| JsText.JsLength | src/components/Mydiary/journalForm.js:84 | UTF-16 length lies between the code point count and twice it, and is 0 iff empty |
| JsText.JsLengthAppend | src/components/Mydiary/journalForm.js:111 | lengths add over concatenation |
| JsText.SplitCount | src/components/Mydiary/journalDisplay.js:76 | `split('\n')` gives one piece more than there are newlines |
| JsText.JoinSplit | src/components/Closecircle.js:176 | joining the pieces again gives back the string |
| JsText.WordCountIsRunCount | src/components/Mydiary/journalForm.js:228 | the `trim().split(/\s+/).filter(...)` idiom counts exactly the maximal non-whitespace runs |
| JsText.WordCountZeroIffBlank | src/components/Mydiary/journalForm.js:228 | the word count is 0 iff the text is empty or whitespace |
| JsText.NatToString | src/components/Notifications.js:174 | `String(n)` is a non-empty digit string without a leading zero, one digit iff below 10 |
| JsText.ParseIntToString | src/components/Mydiary/journalForm.js:231 | `String(i)` reads back as `i` |
| JsText.IntToStringInjective | src/components/Mydiary/journalForm.js:231 | different integers print differently |
| JsText.PadStart | src/components/Mydiary/calendar.js:35 | `padStart` ends with the string and fills the front up to the width |
| JsText.TwoDigitsIsPadded | src/components/Mydiary/calendar.js:35 | a month or day below 100 padded to 2 is its two decimal digits |
| JsText.OrElse | src/components/Mydiary/journalDisplay.js:130 | `s || fallback` on a string that may be missing: the string when it is non-empty, the fallback when it is missing or empty |
| JsList.RemoveId | src/components/Notifications.js:80 | `filter(x => x.id !== id)` keeps exactly the other entries, in order and each as often as before |
| JsList.RemoveAbsentId | src/components/me/community.js:259 | when no entry has the id nothing is removed |
| JsList.RemoveIdIdempotent | src/components/Public.js:105 | removing an id twice equals removing it once |
| JsList.Toggle | src/components/Everyone.js:84-92 | exactly that id changes membership |
| JsList.ToggleTwice | src/components/Everyone.js:84-92 | toggling twice restores the set |

## Left out

- Network calls, auth headers and `localStorage`/`sessionStorage` are not modelled. Replies and token presence are parameters, and request paths drop the `REACT_APP_API_URL` prefix.
- Timers are not modelled, because they are plain timer behaviour:
  - the 300 ms search debounce;
  - the 30-second count polling;
  - the future-day warning, saved-flag and error-message resets;
  - the print delay and its `isGenerating` reset after export.
- The `Promise.all` initial loads of the two feeds are left out, because their concurrent ordering cannot be expressed in this sequential model. Each fetch is modelled alone.
- Locale formatting is left out: `toLocaleDateString`, `toLocaleTimeString` and `toLocaleString`. So are the timezone effects of parsing ISO strings. A time-ago older than a week is the `LocaleDate` value, not its text.
- The browser's `scrollHeight`/`clientHeight` measurement is an input to CheckHeightLimit. `URL.createObjectURL` is an input to Diary.DiaryPage.HandleImageChange.
- The random mock stats of the journal view are not modelled. Its like and read counts are constructor arguments.
- In the PDF export, `window.open`, `document.write`, `print` and the HTML template text are left out, and so is the "Error generating PDF" alert raised when they fail. The code does no HTML escaping, and the model adds none.
- Toasts and alerts are modelled as returned values. Their durations and placement are not.
- The profile page's initial load, and its logout redirect on failure, are not modelled: they are a single request plus navigation. The editor's `userData` starts null. Only a successful save sets it in the model, or a caller standing in for the initial load.
- Everyone.js and Closecircle.js are one `Feed` module, because their like and paging code is identical. The feed kind selects the endpoint and the hidden-author label.
- Calendar.CalendarWidget.FetchJournalDatesForMonth: assumes each set `journaldate` is a date or unparseable. When a journal string is parsed into local time, the timezone shift it can cause is not modelled.
- JsText.IntToString: `String(n)` for magnitudes of 10^21 and above uses exponent notation, which is not modelled. No count in this client comes near that.
- Calendar.MakeDate: the ECMAScript time-value limit is not modelled. Past ±8.64e15 ms from the epoch (after +275760-09-13 or before -271821-04-20), `new Date` gives an Invalid Date whose getters are NaN. The model gives a valid date for every integer year, month and day.
- Notifications.GetTimeAgo: `sentAt` is a parsed time in milliseconds. An unparseable notification date, where the source's `new Date(date)` is NaN and the function returns "Invalid Date", is not modelled.
- PdfExport.SortNewestFirst: dates are whole milliseconds, with `createdAt` assumed present. An unparseable date (`NaN` in the comparator) is not modelled.
- Navbar.CountOf: a `data` field that is an object rather than an array is modelled only through its length (None when it has none).
- SearchBar.SearchBox.SearchEffect: the effect's own `catch` branch is left out, because `searchUsers` never throws.
- Rendering is not modelled: JSX, Chakra and lucide components, styles and keyframes. Routing and page shells are left out too: App.js, DashBoard.js, LoginPage.js, resetpassword.js, forgotPassword.js, oauthsuccess.js. SignupPage.js is not part of this model.
