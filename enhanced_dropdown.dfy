/**
 * The enhanced dropdown: the same open/highlight/choose machine as the clean
 * dropdown, always opening downward. The chosen values are the calls to
 * `onChange`, oldest first.
 */
module EnhancedDropdown {
  import opened JsPrelude
  import opened DropdownNavigation

  class Dropdown {
    const options: seq<DropdownOption>
    const disabled: bool
    var isOpen: bool
    var highlightedIndex: int
    /** The values passed to `onChange`, oldest first. */
    var chosen: seq<string>

    /**
     * The highlight is -1 (none) or an option's index; on an empty list
     * ArrowDown can also leave it at 0.
     */
    predicate Valid()
      reads this
    {
      -1 <= highlightedIndex < IntMax(|options|, 1)
    }

    constructor (options: seq<DropdownOption>, disabled: bool)
      ensures this.options == options && this.disabled == disabled
      ensures !isOpen && highlightedIndex == -1 && chosen == [] && Valid()
    {
      this.options := options;
      this.disabled := disabled;
      isOpen := false;
      highlightedIndex := -1;
      chosen := [];
    }

    /** `handleSelect`: reports the value, closes the list and clears the highlight. */
    method Select(option: DropdownOption)
      modifies this
      ensures chosen == old(chosen) + [option.value]
      ensures !isOpen && highlightedIndex == -1
    {
      chosen := chosen + [option.value];
      isOpen := false;
      highlightedIndex := -1;
    }

    /**
     * The document key handler. Nothing happens while the list is closed. On
     * the four keys it cancels the browser default; Enter with a highlight
     * chooses that option. On an empty list Enter at index 0 reads the value
     * of a missing option and throws, leaving the state as it was.
     */
    method KeyDown(key: Key) returns (prevented: bool, thrown: bool)
      requires Valid()
      modifies this
      ensures Valid()
      ensures !old(isOpen) ==> (!prevented && !thrown && isOpen == old(isOpen)
        && highlightedIndex == old(highlightedIndex) && chosen == old(chosen))
      ensures old(isOpen) ==> prevented == !key.OtherKey?
      ensures thrown <==> old(isOpen) && key == Enter && old(highlightedIndex) >= |options|
      ensures old(isOpen) && key == ArrowDown ==>
        isOpen && highlightedIndex == NextHighlight(old(highlightedIndex), |options|) && chosen == old(chosen)
      ensures old(isOpen) && key == ArrowUp ==>
        isOpen && highlightedIndex == PrevHighlight(old(highlightedIndex), |options|) && chosen == old(chosen)
      ensures old(isOpen) && key == Enter && 0 <= old(highlightedIndex) < |options| ==>
        !isOpen && highlightedIndex == -1 && chosen == old(chosen) + [options[old(highlightedIndex)].value]
      ensures old(isOpen) && key == Enter && (old(highlightedIndex) < 0 || thrown) ==>
        isOpen && highlightedIndex == old(highlightedIndex) && chosen == old(chosen)
      ensures old(isOpen) && key == Escape ==> !isOpen && highlightedIndex == -1 && chosen == old(chosen)
      ensures old(isOpen) && key.OtherKey? ==> isOpen && highlightedIndex == old(highlightedIndex) && chosen == old(chosen)
    {
      prevented, thrown := false, false;
      if !isOpen {
        return;
      }
      match key {
        case ArrowDown =>
          prevented := true;
          highlightedIndex := NextHighlight(highlightedIndex, |options|);
        case ArrowUp =>
          prevented := true;
          highlightedIndex := PrevHighlight(highlightedIndex, |options|);
        case Enter =>
          prevented := true;
          if highlightedIndex >= 0 {
            if highlightedIndex < |options| {
              Select(options[highlightedIndex]);
            } else {
              thrown := true;
            }
          }
        case Escape =>
          prevented := true;
          isOpen := false;
          highlightedIndex := -1;
        case OtherKey(_) =>
      }
    }

    /** Hovering an option highlights it. */
    method HoverOption(index: int)
      requires 0 <= index < |options|
      modifies this
      ensures Valid() && highlightedIndex == index
      ensures isOpen == old(isOpen) && chosen == old(chosen)
    {
      highlightedIndex := index;
    }

    /** Clicking an option chooses it. */
    method ClickOption(index: int)
      requires 0 <= index < |options|
      modifies this
      ensures Valid() && chosen == old(chosen) + [options[index].value]
      ensures !isOpen && highlightedIndex == -1
    {
      Select(options[index]);
    }

    /** A mouse-down outside the component closes the list and clears the highlight. */
    method OutsideClick()
      modifies this
      ensures Valid() && !isOpen && highlightedIndex == -1 && chosen == old(chosen)
    {
      isOpen := false;
      highlightedIndex := -1;
    }

    /** The trigger toggles the list unless disabled; closing this way keeps the highlight. */
    method TriggerClick()
      requires Valid()
      modifies this
      ensures Valid() && highlightedIndex == old(highlightedIndex) && chosen == old(chosen)
      ensures isOpen == if disabled then old(isOpen) else !old(isOpen)
    {
      if !disabled {
        isOpen := !isOpen;
      }
    }
  }

  /** Open, ArrowUp from no highlight wraps to the last option, Enter chooses it. */
  method ChooseLastByKeys(options: seq<DropdownOption>) returns (d: Dropdown)
    requires |options| >= 1
    ensures d.chosen == [options[|options| - 1].value] && !d.isOpen && d.highlightedIndex == -1
  {
    d := new Dropdown(options, false);
    d.TriggerClick();
    var p, t := d.KeyDown(ArrowUp);
    p, t := d.KeyDown(Enter);
  }

  /** A disabled dropdown never opens, so no key chooses anything. */
  method DisabledIgnoresKeys(options: seq<DropdownOption>, key: Key) returns (d: Dropdown)
    ensures !d.isOpen && d.chosen == []
  {
    d := new Dropdown(options, true);
    d.TriggerClick();
    var p, t := d.KeyDown(key);
  }
}
