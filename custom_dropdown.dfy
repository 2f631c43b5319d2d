/**
 * The searchable dropdown: a trigger, a search box for long lists and the
 * options whose label or value contains the search text, ignoring case.
 * The chosen values are the calls to `onChange`, oldest first.
 */
module CustomDropdown {
  import opened JsPrelude
  import opened DropdownNavigation

  /** `label.toLowerCase().includes(term.toLowerCase()) || value.toLowerCase().includes(term.toLowerCase())`. */
  predicate Matches(option: DropdownOption, term: string)
  {
    Includes(Lower(option.caption), Lower(term)) || Includes(Lower(option.value), Lower(term))
  }

  /** `filteredOptions`: the matching options, in their original order. */
  function FilterOptions(options: seq<DropdownOption>, term: string): (r: seq<DropdownOption>)
    ensures |r| <= |options|
    ensures forall o :: o in r <==> o in options && Matches(o, term)
  {
    if options == [] then []
    else (if Matches(options[0], term) then [options[0]] else []) + FilterOptions(options[1..], term)
  }

  /** Filtering a list split in two filters each part and keeps them in order. */
  lemma {:induction false} FilterKeepsOrder(a: seq<DropdownOption>, b: seq<DropdownOption>, term: string)
    ensures FilterOptions(a + b, term) == FilterOptions(a, term) + FilterOptions(b, term)
  {
    if a != [] {
      assert (a + b)[0] == a[0] && (a + b)[1..] == a[1..] + b;
      FilterKeepsOrder(a[1..], b, term);
    } else {
      assert a + b == b;
    }
  }

  /** The empty string occurs in every string. */
  lemma EmptyOccurs(s: string)
    ensures Contains(s, "")
  {
    assert OccursAt(s, "", 0);
  }

  /** An empty search keeps every option, in order. */
  lemma {:induction false} EmptySearchKeepsAll(options: seq<DropdownOption>)
    ensures FilterOptions(options, "") == options
  {
    if options != [] {
      EmptyOccurs(Lower(options[0].caption));
      EmptySearchKeepsAll(options[1..]);
    }
  }

  /** Searching ignores case: any two terms with the same lower-case form keep the same options. */
  lemma {:induction false} SearchIgnoresCase(options: seq<DropdownOption>, term: string, other: string)
    requires Lower(term) == Lower(other)
    ensures FilterOptions(options, term) == FilterOptions(options, other)
  {
    if options != [] {
      SearchIgnoresCase(options[1..], term, other);
    }
  }

  /** The search box is shown only for lists of more than five options. */
  predicate ShowsSearch(optionCount: int)
  {
    optionCount > 5
  }

  class Dropdown {
    const options: seq<DropdownOption>
    const disabled: bool
    var isOpen: bool
    var searchTerm: string
    /** The values passed to `onChange`, oldest first. */
    var chosen: seq<string>

    /** Without a search box the search text can never be typed, so it stays empty. */
    predicate Valid()
      reads this
    {
      !ShowsSearch(|options|) ==> searchTerm == ""
    }

    constructor (options: seq<DropdownOption>, disabled: bool)
      ensures this.options == options && this.disabled == disabled
      ensures !isOpen && searchTerm == "" && chosen == [] && Valid()
    {
      this.options := options;
      this.disabled := disabled;
      isOpen := false;
      searchTerm := "";
      chosen := [];
    }

    /** The options the open list shows. */
    function Shown(): seq<DropdownOption>
      reads this
    {
      FilterOptions(options, searchTerm)
    }

    /** The trigger toggles the list unless disabled; the search text survives closing this way. */
    method TriggerClick()
      requires Valid()
      modifies this
      ensures Valid() && searchTerm == old(searchTerm) && chosen == old(chosen)
      ensures isOpen == if disabled then old(isOpen) else !old(isOpen)
    {
      if !disabled {
        isOpen := !isOpen;
      }
    }

    /** Typing into the search box, which only an open list of more than five options has. */
    method TypeSearch(term: string)
      requires Valid() && isOpen && ShowsSearch(|options|)
      modifies this
      ensures Valid() && isOpen && searchTerm == term && chosen == old(chosen)
    {
      searchTerm := term;
    }

    /** The clear button, shown beside a non-empty search text. */
    method ClearSearch()
      requires Valid() && isOpen && ShowsSearch(|options|) && searchTerm != ""
      modifies this
      ensures Valid() && isOpen && searchTerm == "" && Shown() == options && chosen == old(chosen)
    {
      searchTerm := "";
      EmptySearchKeepsAll(options);
    }

    /** `handleSelect` on a shown option: reports its value, closes the list and clears the search. */
    method Select(index: int)
      requires Valid() && isOpen && 0 <= index < |Shown()|
      modifies this
      ensures Valid() && !isOpen && searchTerm == "" && Shown() == options
      ensures chosen == old(chosen) + [old(Shown())[index].value]
      ensures old(Shown())[index] in options && Matches(old(Shown())[index], old(searchTerm))
    {
      var option := Shown()[index];
      chosen := chosen + [option.value];
      isOpen := false;
      searchTerm := "";
      EmptySearchKeepsAll(options);
    }

    /** A mouse-down outside the component closes the list and clears the search. */
    method OutsideClick()
      modifies this
      ensures Valid() && !isOpen && searchTerm == "" && chosen == old(chosen)
    {
      isOpen := false;
      searchTerm := "";
    }
  }

  /** On a short list without a search box every option is always shown. */
  lemma ShortListShowsAll(d: Dropdown)
    requires d.Valid() && !ShowsSearch(|d.options|)
    ensures d.Shown() == d.options
  {
    EmptySearchKeepsAll(d.options);
  }
}
