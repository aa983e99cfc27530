/** The diary editor's content rules: a 500-character limit measured in UTF-16
    code units, a "writing space reached" flag that blocks edits which lengthen
    the text, the keys still allowed once that flag is up, the live character
    and word statistics, and the anonymous checkbox of the editor's own
    visibility selector. */
module JournalForm {
  import opened Options
  import opened JsText

  const CharacterLimit: nat := 500

  /** The keys that still work once the writing space is full. */
  const AllowedKeys: seq<string> :=
    ["Backspace", "Delete", "ArrowLeft", "ArrowRight", "ArrowUp", "ArrowDown", "Home", "End", "Tab"]

  /** `handleContentChange`: the new text is passed on to `onContentChange`
      only when it fits the limit. */
  function ContentChange(newContent: string): (r: Option<string>)
    ensures r.Some? ==> r.value == newContent && JsLength(r.value) <= CharacterLimit
    ensures r.None? <==> JsLength(newContent) > CharacterLimit
  {
    if JsLength(newContent) <= CharacterLimit then Some(newContent) else None
  }

  /** `handleTextareaChange` with the height flag `limitReached`: what, if
      anything, reaches `onContentChange`. */
  function TextareaDecision(limitReached: bool, content: string, newContent: string): (r: Option<string>)
    ensures r.Some? ==> r.value == newContent && JsLength(newContent) <= CharacterLimit
    ensures JsLength(newContent) <= JsLength(content) ==> (r.Some? <==> JsLength(newContent) <= CharacterLimit)
    ensures limitReached && JsLength(newContent) > JsLength(content) ==> r == None
    ensures !limitReached ==> r == ContentChange(newContent)
  {
    if JsLength(newContent) <= JsLength(content) then ContentChange(newContent)
    else if limitReached then None
    else ContentChange(newContent)
  }

  /** The text after one edit: the forwarded value, or the old text when the
      edit is dropped. */
  function AfterEdit(limitReached: bool, content: string, newContent: string): string {
    TextareaDecision(limitReached, content, newContent).GetOr(content)
  }

  /** The text after a series of edits while the height flag stays `limitReached`. */
  function AfterEdits(limitReached: bool, content: string, edits: seq<string>): string
    decreases |edits|
  {
    if edits == [] then content
    else AfterEdits(limitReached, AfterEdit(limitReached, content, edits[0]), edits[1..])
  }

  /** However many edits arrive, text that starts within the limit stays within it. */
  lemma {:induction false} EditsStayWithinLimit(limitReached: bool, content: string, edits: seq<string>)
    requires JsLength(content) <= CharacterLimit
    ensures JsLength(AfterEdits(limitReached, content, edits)) <= CharacterLimit
    decreases |edits|
  {
    if edits != [] {
      EditsStayWithinLimit(limitReached, AfterEdit(limitReached, content, edits[0]), edits[1..]);
    }
  }

  /** While the writing space is full, no series of edits makes the text longer. */
  lemma {:induction false} FullSpaceNeverGrows(content: string, edits: seq<string>)
    ensures JsLength(AfterEdits(true, content, edits)) <= JsLength(content)
    decreases |edits|
  {
    if edits != [] {
      var next := AfterEdit(true, content, edits[0]);
      FullSpaceNeverGrows(next, edits[1..]);
    }
  }

  /** `handleKeyPress` with the height flag `limitReached`: whether the key's
      default action is prevented. */
  function KeyDecision(limitReached: bool, key: string, ctrlKey: bool, metaKey: bool): (prevented: bool)
    ensures !limitReached ==> !prevented
    ensures key in AllowedKeys || ctrlKey || metaKey ==> !prevented
    ensures limitReached && key !in AllowedKeys && !ctrlKey && !metaKey ==> prevented
  {
    limitReached && key !in AllowedKeys && !ctrlKey && !metaKey
  }

  /** The textarea, with the one piece of state the editor keeps of its own. */
  class Editor {
    var isHeightLimitReached: bool

    constructor ()
      ensures !isHeightLimitReached
    {
      isHeightLimitReached := false;
    }

    /** `checkHeightLimit`: `measurement` is the textarea's (scrollHeight,
        clientHeight), absent before the textarea is mounted. */
    method CheckHeightLimit(measurement: Option<(int, int)>)
      modifies this
      ensures measurement.Some? ==> isHeightLimitReached == (measurement.value.0 > measurement.value.1)
      ensures measurement.None? ==> isHeightLimitReached == old(isHeightLimitReached)
    {
      if measurement.Some? {
        isHeightLimitReached := measurement.value.0 > measurement.value.1;
      }
    }

    /** `handleTextareaChange` against the current flag; the measurement after
        the update is a separate CheckHeightLimit. */
    function HandleTextareaChange(content: string, newContent: string): (r: Option<string>)
      reads this
      ensures r == TextareaDecision(isHeightLimitReached, content, newContent)
      ensures r.Some? ==> JsLength(newContent) <= CharacterLimit
    {
      TextareaDecision(isHeightLimitReached, content, newContent)
    }

    /** `handleKeyPress` against the current flag. */
    function HandleKeyPress(key: string, ctrlKey: bool, metaKey: bool): (prevented: bool)
      reads this
      ensures prevented ==> isHeightLimitReached
      ensures prevented == KeyDecision(isHeightLimitReached, key, ctrlKey, metaKey)
    {
      KeyDecision(isHeightLimitReached, key, ctrlKey, metaKey)
    }
  }

  // ---------------------------------------------------------------------------
  // The statistics line

  /** `CHARACTER_LIMIT - content.length`. */
  function RemainingChars(content: string): (r: int)
    ensures r <= CharacterLimit
  {
    CharacterLimit as int - JsLength(content)
  }

  /** `remainingChars <= 50`. */
  predicate IsNearLimit(content: string) {
    RemainingChars(content) <= 50
  }

  lemma NearLimitIffLong(content: string)
    ensures IsNearLimit(content) <==> JsLength(content) >= 450
  {
  }

  const LimitReachedText: string := " \U{2022} Character limit reached!"

  /** The warning after the statistics: shown only near the limit, saying the
      limit is reached at exactly 0 remaining and the remaining count otherwise. */
  function LimitMessage(content: string): (r: Option<string>)
    ensures r.Some? <==> IsNearLimit(content)
    ensures r == Some(LimitReachedText) <==> RemainingChars(content) == 0
  {
    var remaining := RemainingChars(content);
    if !IsNearLimit(content) then None
    else if remaining == 0 then Some(LimitReachedText)
    else
      var count := IntToString(remaining);
      var m := " \U{2022} " + count + " characters remaining";
      assert m[3] == count[0] && LimitReachedText[3] == 'C';
      assert count[0] != 'C' by {
        if remaining >= 0 { assert IsDigit(count[0]); }
      }
      Some(m)
  }

  /** The remaining count shown in the warning reads back as `remainingChars`. */
  lemma LimitMessageCount(content: string)
    requires IsNearLimit(content) && RemainingChars(content) != 0
    ensures var m := LimitMessage(content).value;
            var n := |IntToString(RemainingChars(content))|;
            |m| == n + 24 && ParseInt(m[3..3 + n]) == Some(RemainingChars(content))
  {
    var s := IntToString(RemainingChars(content));
    var m := " \U{2022} " + s + " characters remaining";
    assert m[3..3 + |s|] == s;
    ParseIntToString(RemainingChars(content));
  }

  /** `{content.length}/500 characters • {words} words`: the two counts shown. */
  function Stats(content: string): (r: (nat, nat))
    ensures r.0 == JsLength(content)
    ensures r.0 == 0 <==> content == []
    ensures r.1 == 0 <==> IsBlank(content)
    ensures r.1 == RunCount(content)
  {
    WordCountZeroIffBlank(content);
    WordCountIsRunCount(content);
    (JsLength(content), WordCount(content))
  }

  /** The editor's own visibility selector shows the anonymous checkbox only for
      'close-circle'; its only other choice is 'private'. */
  const MockVisibilityValues: seq<string> := ["private", "close-circle"]

  predicate ShowsAnonymousCheckbox(visibility: string) {
    visibility == "close-circle"
  }

  /** Among the editor's own choices, the checkbox shows for every one but
      'private'. */
  lemma PrivateHidesCheckbox(i: int)
    requires 0 <= i < |MockVisibilityValues|
    ensures ShowsAnonymousCheckbox(MockVisibilityValues[i]) <==> MockVisibilityValues[i] != "private"
  {
  }
}
