/**
 * The editor-wide key handler: an early-return chain from the key and the
 * render's state to at most one state change. The Ctrl/Cmd commands only
 * cancel the browser default and log that they are not implemented.
 */
module KeyboardShortcuts {
  import opened JsPrelude
  import opened SliderTypes
  import opened SliderStore

  /** What one key-down does: the panel flag afterwards, the dispatches, the default cancelled, the log line. */
  datatype KeyOutcome = KeyOutcome(
    showShortcuts: bool, actions: seq<Action>, preventDefault: bool, logged: Option<string>)

  /** A JavaScript truthiness test of `state.selectedLayerId`: the empty id counts as none. */
  predicate HasSelection(state: SliderState)
  {
    state.selectedLayerId.Some? && state.selectedLayerId.value != ""
  }

  function CtrlCommand(key: string): Option<string>
  {
    match Lower(key)
    case "z" => Some("Undo - not implemented yet")
    case "y" => Some("Redo - not implemented yet")
    case "s" => Some("Save - not implemented yet")
    case "e" => Some("Export - not implemented yet")
    case _ => None
  }

  /** `handleKeyDown`. */
  function HandleKeyDown(state: SliderState, showShortcuts: bool, targetIsField: bool,
                         key: string, ctrlKey: bool, metaKey: bool): KeyOutcome
  {
    var idle := KeyOutcome(showShortcuts, [], false, None);
    if targetIsField then idle
    else if key == "F1" then KeyOutcome(true, [], true, None)
    else if key == "Escape" then KeyOutcome(false, [SelectLayer(None)], true, None)
    else if key == " " then KeyOutcome(showShortcuts, [SetPlaying(!state.isPlaying)], true, None)
    else if key == "Delete" && HasSelection(state) && state.project.Some? then
      var slide := SlideAt(state.project, state.currentSlideIndex);
      KeyOutcome(showShortcuts,
        if slide.Some? then [DeleteLayer(slide.value.id, state.selectedLayerId.value)] else [],
        true, None)
    else if ctrlKey || metaKey then
      var c := CtrlCommand(key);
      KeyOutcome(showShortcuts, [], c.Some?, c)
    else idle
  }

  /**
   * Keys typed into an input or a text area do nothing. F1 opens the
   * shortcuts panel; Escape closes it and clears the selection; Space flips
   * playback without touching the time. Each branch returns early, so a key
   * fires at most one dispatch.
   */
  lemma KeyTable(state: SliderState, show: bool, key: string, ctrlKey: bool, metaKey: bool)
    ensures HandleKeyDown(state, show, true, key, ctrlKey, metaKey) == KeyOutcome(show, [], false, None)
    ensures HandleKeyDown(state, show, false, "F1", ctrlKey, metaKey) == KeyOutcome(true, [], true, None)
    ensures var o := HandleKeyDown(state, show, false, "Escape", ctrlKey, metaKey);
      !o.showShortcuts && |o.actions| == 1 && Reduce(state, o.actions[0]) == state.(selectedLayerId := None)
    ensures var o := HandleKeyDown(state, show, false, " ", ctrlKey, metaKey);
      |o.actions| == 1 && o.showShortcuts == show
      && Reduce(state, o.actions[0]) == state.(isPlaying := !state.isPlaying)
    ensures forall field :: |HandleKeyDown(state, show, field, key, ctrlKey, metaKey).actions| <= 1
  {
  }

  /**
   * Delete removes the selected layer from the current slide when a
   * non-empty id is selected and the slide exists, and does nothing
   * otherwise.
   */
  lemma DeleteKey(state: SliderState, show: bool, ctrlKey: bool, metaKey: bool)
    ensures var o := HandleKeyDown(state, show, false, "Delete", ctrlKey, metaKey);
      o.showShortcuts == show
      && (o.actions != [] <==> HasSelection(state) && SlideAt(state.project, state.currentSlideIndex).Some?)
      && (o.actions != [] ==>
            o.actions == [DeleteLayer(SlideAt(state.project, state.currentSlideIndex).value.id,
                                      state.selectedLayerId.value)])
  {
    assert CtrlCommand("Delete") == None by {
      assert Lower("Delete") == "delete";
    }
  }

  /** Ctrl or Cmd with z, y, s or e in either case changes no state; it only cancels the default and logs. */
  lemma CtrlCommandsChangeNothing(state: SliderState, show: bool, key: string, metaKey: bool)
    requires key in {"z", "Z", "y", "Y", "s", "S", "e", "E"}
    ensures var o := HandleKeyDown(state, show, false, key, true, metaKey);
      o.actions == [] && o.showShortcuts == show && o.preventDefault && o.logged.Some?
    ensures HandleKeyDown(state, show, false, "z", false, true).logged == Some("Undo - not implemented yet")
    ensures HandleKeyDown(state, show, false, "Y", true, false).logged == Some("Redo - not implemented yet")
  {
    assert |key| == 1;
    assert Lower(key) == [LowerChar(key[0])];
    assert Lower("z") == "z" && Lower("Y") == "y";
  }
}
