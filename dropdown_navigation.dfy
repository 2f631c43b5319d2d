/**
 * What the two keyboard-driven dropdowns share: the option record, the
 * wrap-around arrow-key rule and the trigger's label. Both components write
 * the same expressions; they are defined once here.
 */
module DropdownNavigation {
  import opened JsPrelude

  /** A `{ value, label }` option. */
  datatype DropdownOption = DropdownOption(value: string, caption: string)

  /** The keys an open list listens to; any other key is ignored. */
  datatype Key = ArrowDown | ArrowUp | Enter | Escape | OtherKey(name: string)

  /** ArrowDown's update of the highlighted index: `prev < n - 1 ? prev + 1 : 0`. */
  function NextHighlight(prev: int, n: int): int
  {
    if prev < n - 1 then prev + 1 else 0
  }

  /** ArrowUp's update of the highlighted index: `prev > 0 ? prev - 1 : n - 1`. */
  function PrevHighlight(prev: int, n: int): int
  {
    if prev > 0 then prev - 1 else n - 1
  }

  /**
   * On a non-empty list both arrows keep the highlight on an option, from no
   * highlight (-1) Down goes to the first option and Up to the last, and both
   * wrap around at the ends.
   */
  lemma ArrowsStayOnOptions(prev: int, n: int)
    requires n > 0 && -1 <= prev < n
    ensures 0 <= NextHighlight(prev, n) < n && 0 <= PrevHighlight(prev, n) < n
    ensures prev == -1 ==> NextHighlight(prev, n) == 0 && PrevHighlight(prev, n) == n - 1
    ensures prev == n - 1 ==> NextHighlight(prev, n) == 0
    ensures prev == 0 ==> PrevHighlight(prev, n) == n - 1
  {
  }

  /** On an option, Up undoes Down and Down undoes Up. */
  lemma ArrowsAreInverse(i: int, n: int)
    requires 0 <= i < n
    ensures PrevHighlight(NextHighlight(i, n), n) == i
    ensures NextHighlight(PrevHighlight(i, n), n) == i
  {
  }

  /** On an empty list ArrowDown still moves the highlight to index 0, which holds no option. */
  lemma EmptyListHighlightsNothing()
    ensures NextHighlight(-1, 0) == 0 && PrevHighlight(-1, 0) == -1
    ensures NextHighlight(0, 0) == 0 && PrevHighlight(0, 0) == -1
  {
  }

  /** `options.find(option => option.value === value)`. */
  function FindOption(options: seq<DropdownOption>, value: string): (r: Option<DropdownOption>)
    ensures r.None? <==> forall i :: 0 <= i < |options| ==> options[i].value != value
    ensures r.Some? ==> exists i :: (0 <= i < |options| && options[i] == r.value && r.value.value == value
      && forall j :: 0 <= j < i ==> options[j].value != value)
  {
    if options == [] then None
    else if options[0].value == value then Some(options[0])
    else
      var r := FindOption(options[1..], value);
      if r.Some? then
        ghost var i :| (0 <= i < |options[1..]| && options[1..][i] == r.value && r.value.value == value
          && forall j :: 0 <= j < i ==> options[1..][j].value != value);
        assert options[i + 1] == r.value;
        r
      else r
  }

  /** `selectedOption?.label || placeholder`: an unmatched value or an empty label shows the placeholder. */
  function TriggerText(options: seq<DropdownOption>, value: string, placeholder: string): (t: string)
    ensures FindOption(options, value).None? ==> t == placeholder
    ensures FindOption(options, value).Some? && FindOption(options, value).value.caption != "" ==>
      t == FindOption(options, value).value.caption
    ensures t == "" ==> placeholder == ""
  {
    var selected := FindOption(options, value);
    if selected.Some? && selected.value.caption != "" then selected.value.caption else placeholder
  }
}
