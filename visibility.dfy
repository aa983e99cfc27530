/** The visibility selector: one button per sharing option with the current
    one marked, the "hide my identity" section for shared entries, its hint,
    and the badge other views show for a visibility value. */
module Visibility {
  import opened Options

  /** One sharing choice as the pages pass it to the selector. */
  datatype VisibilityOption = VisibilityOption(value: string, icon: string, caption: string)

  /** A rendered option: what it shows, the value a click passes to
      `onVisibilityChange`, and whether it is marked selected. */
  datatype OptionButton = OptionButton(value: string, icon: string, caption: string, selected: bool)

  /** `visibilityOptions.map(...)`: one button per option, in order, marked
      selected exactly when its value is the current visibility. */
  function OptionButtons(options: seq<VisibilityOption>, visibility: string): (buttons: seq<OptionButton>)
    ensures |buttons| == |options|
    ensures forall i :: 0 <= i < |buttons| ==>
              && buttons[i].value == options[i].value
              && buttons[i].icon == options[i].icon
              && buttons[i].caption == options[i].caption
    ensures forall i :: 0 <= i < |buttons| ==> (buttons[i].selected <==> options[i].value == visibility)
  {
    seq(|options|, i requires 0 <= i < |options| =>
      var o := options[i];
      OptionButton(o.value, o.icon, o.caption, o.value == visibility))
  }

  /** The option values are pairwise different. */
  predicate DistinctValues(options: seq<VisibilityOption>) {
    forall i, j :: 0 <= i < j < |options| ==> options[i].value != options[j].value
  }

  /** With distinct option values at most one button is selected, and exactly
      one when the current visibility is among them. */
  lemma {:induction false} SelectedIsUnique(options: seq<VisibilityOption>, visibility: string)
    requires DistinctValues(options)
    ensures var b := OptionButtons(options, visibility);
            forall i, j :: 0 <= i < |b| && 0 <= j < |b| && b[i].selected && b[j].selected ==> i == j
    ensures (exists i :: 0 <= i < |options| && options[i].value == visibility) <==>
            (exists i :: 0 <= i < |options| && OptionButtons(options, visibility)[i].selected)
  {
    var b := OptionButtons(options, visibility);
    forall i, j | 0 <= i < j < |b| ensures !(b[i].selected && b[j].selected) {
      assert options[i].value != options[j].value;
    }
  }

  /** The anonymous toggle shows for the shared visibilities only. */
  predicate ShowsAnonymousSection(visibility: string) {
    visibility == "close-circle" || visibility == "everyone"
  }

  /** The hint sits inside the anonymous section and needs the box ticked. */
  predicate ShowsHint(visibility: string, isAnonymous: bool) {
    ShowsAnonymousSection(visibility) && isAnonymous
  }

  /** The hint shows only inside the anonymous section, so never for a
      private entry, ticked or not. */
  lemma PrivateShowsNoHint(visibility: string, isAnonymous: bool)
    ensures ShowsHint(visibility, isAnonymous) ==> ShowsAnonymousSection(visibility)
    ensures ShowsAnonymousSection(visibility) ==> visibility != "private"
  {
  }

  /** The index of the first option with value `v`, or `|options|`. */
  function FirstWithValue(options: seq<VisibilityOption>, v: string): (k: nat)
    ensures k <= |options|
    ensures forall i :: 0 <= i < k ==> options[i].value != v
    ensures k < |options| ==> options[k].value == v
    decreases |options|
  {
    if options == [] || options[0].value == v then 0
    else 1 + FirstWithValue(options[1..], v)
  }

  /** `options.find(opt => opt.value === value)`: the first option with that
      value; a missing value matches nothing. */
  function FindOption(options: seq<VisibilityOption>, value: Option<string>): (r: Option<VisibilityOption>)
    ensures r.Some? <==> value.Some? && exists i :: 0 <= i < |options| && options[i].value == value.value
    ensures r.Some? ==> exists i :: 0 <= i < |options| && options[i] == r.value && options[i].value == value.value
                           && forall k :: 0 <= k < i ==> options[k].value != value.value
  {
    if value.None? then None
    else
      var k := FirstWithValue(options, value.value);
      if k < |options| then Some(options[k]) else None
  }

  /** The badge for a value no option has. */
  const PrivateBadge: (string, string) := ("\U{1F512}", "Private")

  /** `getVisibilityDisplay`: the icon and label of the matching option, or
      the private badge. */
  function VisibilityDisplay(options: seq<VisibilityOption>, value: Option<string>): (badge: (string, string))
    ensures FindOption(options, value).Some? ==>
              badge == (FindOption(options, value).value.icon, FindOption(options, value).value.caption)
    ensures (value.None? || forall i :: 0 <= i < |options| ==> options[i].value != value.value) ==>
              badge == PrivateBadge
  {
    match FindOption(options, value)
    case Some(o) => (o.icon, o.caption)
    case None => PrivateBadge
  }
}
