/** The editor's action bar: when the save button is disabled, how it looks,
    what it says, and when the cancel button shows. */
module ActionButtons {
  import opened JsText
  import Diary

  /** `!title.trim() || !content.trim() || isLoading`. */
  function SaveDisabled(title: string, content: string, isLoading: bool): (disabled: bool)
    ensures disabled <==> Trim(title) == [] || Trim(content) == [] || isLoading
  {
    IsBlank(title) || IsBlank(content) || isLoading
  }

  /** The enabled style, chosen on the untrimmed fields. */
  predicate LooksEnabled(title: string, content: string) {
    title != [] && content != []
  }

  /** A button that can be clicked saves fields the save handler accepts. */
  lemma EnabledSaveValidates(title: string, content: string, isLoading: bool)
    requires !SaveDisabled(title, content, isLoading)
    ensures Diary.Validate(title, content).None?
    ensures LooksEnabled(title, content)
  {
  }

  /** The style and the disabled flag disagree exactly on whitespace: with
      no save running, the button looks enabled yet is disabled precisely when
      both fields are non-empty and one of them is all whitespace. */
  lemma WhitespaceLooksEnabled(title: string, content: string)
    ensures LooksEnabled(title, content) && SaveDisabled(title, content, false) <==>
            title != [] && content != [] && (AllSpace(title) || AllSpace(content))
  {
    BlankIffAllSpace(title);
    BlankIffAllSpace(content);
  }

  /** The button text, in priority order. */
  function SaveLabel(isSaved: bool, isLoading: bool, isEditing: bool): (text: string)
    ensures text == "Saved!" <==> isSaved
    ensures text == "Saving..." <==> !isSaved && isLoading
    ensures text == "Update Journal" <==> !isSaved && !isLoading && isEditing
    ensures text == "Save Entry" <==> !isSaved && !isLoading && !isEditing
  {
    if isSaved then "Saved!"
    else if isLoading then "Saving..."
    else if isEditing then "Update Journal"
    else "Save Entry"
  }

  /** `{isEditing && ...}`: the Cancel Edit button shows exactly while
      editing. */
  function ShowsCancel(isEditing: bool): (shown: bool)
    ensures shown <==> isEditing
  {
    isEditing
  }

  /** When neither saved nor saving, Cancel Edit sits beside the button
      exactly when that button reads "Update Journal". */
  lemma CancelMatchesUpdateLabel(isSaved: bool, isLoading: bool, isEditing: bool)
    requires !isSaved && !isLoading
    ensures ShowsCancel(isEditing) <==> SaveLabel(isSaved, isLoading, isEditing) == "Update Journal"
  {
  }
}
