/**
 * The clean dropdown: a trigger that opens a list upward or downward, with
 * arrow-key highlighting, Enter to choose, Escape or an outside click to
 * close. The chosen values are the calls to `onChange`, oldest first.
 */
module CleanDropdown {
  import opened JsPrelude
  import opened DropdownNavigation

  datatype Direction = Down | Up

  /** The estimated list height: 44 per option plus 20, capped at 264. */
  function EstimatedHeight(n: int): (h: int)
    ensures h <= 264
    ensures n * 44 + 20 <= 264 ==> h == n * 44 + 20
  {
    IntMin(n * 44 + 20, 264)
  }

  /**
   * `calculateDropdownPosition`: down when the list fits below the trigger or
   * there is at least as much room below as above, up otherwise.
   */
  function OpenDirection(n: int, viewportHeight: real, triggerTop: real, triggerBottom: real): Direction
  {
    var spaceBelow := viewportHeight - triggerBottom;
    var spaceAbove := triggerTop;
    if spaceBelow >= EstimatedHeight(n) as real || spaceBelow >= spaceAbove then Down else Up
  }

  /**
   * The list opens upward only when it does not fit below and there is
   * strictly more room above; 264 pixels below always suffice, however many
   * options there are; and more room below never turns down into up.
   */
  lemma DirectionRule(n: int, viewportHeight: real, triggerTop: real, triggerBottom: real, lower: real)
    ensures var below := viewportHeight - triggerBottom;
      var up := OpenDirection(n, viewportHeight, triggerTop, triggerBottom) == Up;
      up <==> below < EstimatedHeight(n) as real && triggerTop > below
    ensures viewportHeight - triggerBottom >= 264.0 ==> OpenDirection(n, viewportHeight, triggerTop, triggerBottom) == Down
    ensures lower <= triggerBottom && OpenDirection(n, viewportHeight, triggerTop, triggerBottom) == Down ==>
      OpenDirection(n, viewportHeight, triggerTop, lower) == Down
  {
  }

  class Dropdown {
    const options: seq<DropdownOption>
    const disabled: bool
    var isOpen: bool
    var highlightedIndex: int
    var direction: Direction
    /** The values passed to `onChange`, oldest first. */
    var chosen: seq<string>

    /**
     * The highlight is -1 (none) or an option's index; on an empty list
     * ArrowDown can also leave it at 0.
     */
    predicate Valid()
      reads this
    {
      -1 <= highlightedIndex < IntMax(|options|, 1)
    }

    constructor (options: seq<DropdownOption>, disabled: bool)
      ensures this.options == options && this.disabled == disabled
      ensures !isOpen && highlightedIndex == -1 && direction == Down && chosen == [] && Valid()
    {
      this.options := options;
      this.disabled := disabled;
      isOpen := false;
      highlightedIndex := -1;
      direction := Down;
      chosen := [];
    }

    /** `handleSelect`: reports the value, closes the list and clears the highlight. */
    method Select(option: DropdownOption)
      modifies this
      ensures chosen == old(chosen) + [option.value]
      ensures !isOpen && highlightedIndex == -1 && direction == old(direction)
    {
      chosen := chosen + [option.value];
      isOpen := false;
      highlightedIndex := -1;
    }

    /**
     * The document key handler. Nothing happens while the list is closed. On
     * the four keys it cancels the browser default; Enter with a highlight
     * chooses that option. On an empty list Enter at index 0 reads the value
     * of a missing option and throws, leaving the state as it was.
     */
    method KeyDown(key: Key) returns (prevented: bool, thrown: bool)
      requires Valid()
      modifies this
      ensures Valid() && direction == old(direction)
      ensures !old(isOpen) ==> (!prevented && !thrown && isOpen == old(isOpen)
        && highlightedIndex == old(highlightedIndex) && chosen == old(chosen))
      ensures old(isOpen) ==> prevented == !key.OtherKey?
      ensures thrown <==> old(isOpen) && key == Enter && old(highlightedIndex) >= |options|
      ensures old(isOpen) && key == ArrowDown ==>
        isOpen && highlightedIndex == NextHighlight(old(highlightedIndex), |options|) && chosen == old(chosen)
      ensures old(isOpen) && key == ArrowUp ==>
        isOpen && highlightedIndex == PrevHighlight(old(highlightedIndex), |options|) && chosen == old(chosen)
      ensures old(isOpen) && key == Enter && 0 <= old(highlightedIndex) < |options| ==>
        !isOpen && highlightedIndex == -1 && chosen == old(chosen) + [options[old(highlightedIndex)].value]
      ensures old(isOpen) && key == Enter && (old(highlightedIndex) < 0 || thrown) ==>
        isOpen && highlightedIndex == old(highlightedIndex) && chosen == old(chosen)
      ensures old(isOpen) && key == Escape ==> !isOpen && highlightedIndex == -1 && chosen == old(chosen)
      ensures old(isOpen) && key.OtherKey? ==> isOpen && highlightedIndex == old(highlightedIndex) && chosen == old(chosen)
    {
      prevented, thrown := false, false;
      if !isOpen {
        return;
      }
      match key {
        case ArrowDown =>
          prevented := true;
          highlightedIndex := NextHighlight(highlightedIndex, |options|);
        case ArrowUp =>
          prevented := true;
          highlightedIndex := PrevHighlight(highlightedIndex, |options|);
        case Enter =>
          prevented := true;
          if highlightedIndex >= 0 {
            if highlightedIndex < |options| {
              Select(options[highlightedIndex]);
            } else {
              thrown := true;
            }
          }
        case Escape =>
          prevented := true;
          isOpen := false;
          highlightedIndex := -1;
        case OtherKey(_) =>
      }
    }

    /** Hovering an option highlights it. */
    method HoverOption(index: int)
      requires 0 <= index < |options|
      modifies this
      ensures Valid() && highlightedIndex == index
      ensures isOpen == old(isOpen) && direction == old(direction) && chosen == old(chosen)
    {
      highlightedIndex := index;
    }

    /** Clicking an option chooses it. */
    method ClickOption(index: int)
      requires 0 <= index < |options|
      modifies this
      ensures Valid() && chosen == old(chosen) + [options[index].value]
      ensures !isOpen && highlightedIndex == -1 && direction == old(direction)
    {
      Select(options[index]);
    }

    /** A mouse-down outside the component closes the list and clears the highlight. */
    method OutsideClick()
      modifies this
      ensures Valid() && !isOpen && highlightedIndex == -1
      ensures direction == old(direction) && chosen == old(chosen)
    {
      isOpen := false;
      highlightedIndex := -1;
    }

    /**
     * The trigger: unless disabled, recompute the direction from the geometry
     * and toggle the list. Closing this way keeps the highlight.
     */
    method TriggerClick(viewportHeight: real, triggerTop: real, triggerBottom: real)
      requires Valid()
      modifies this
      ensures Valid() && highlightedIndex == old(highlightedIndex) && chosen == old(chosen)
      ensures disabled ==> isOpen == old(isOpen) && direction == old(direction)
      ensures !disabled ==> (isOpen == !old(isOpen)
        && direction == OpenDirection(|options|, viewportHeight, triggerTop, triggerBottom))
    {
      if !disabled {
        direction := OpenDirection(|options|, viewportHeight, triggerTop, triggerBottom);
        isOpen := !isOpen;
      }
    }

    /** A resize or scroll recomputes the direction while the list is open. */
    method Resize(viewportHeight: real, triggerTop: real, triggerBottom: real)
      modifies this
      ensures isOpen == old(isOpen) && highlightedIndex == old(highlightedIndex) && chosen == old(chosen)
      ensures direction == if isOpen then OpenDirection(|options|, viewportHeight, triggerTop, triggerBottom) else old(direction)
    {
      if isOpen {
        direction := OpenDirection(|options|, viewportHeight, triggerTop, triggerBottom);
      }
    }
  }

  /** Open, ArrowDown twice, Enter: the second option is chosen and the list is closed again. */
  method ChooseSecondByKeys(options: seq<DropdownOption>) returns (d: Dropdown)
    requires |options| >= 2
    ensures d.chosen == [options[1].value] && !d.isOpen && d.highlightedIndex == -1
  {
    d := new Dropdown(options, false);
    d.TriggerClick(800.0, 100.0, 140.0);
    var p, t := d.KeyDown(ArrowDown);
    p, t := d.KeyDown(ArrowDown);
    p, t := d.KeyDown(Enter);
  }
}
