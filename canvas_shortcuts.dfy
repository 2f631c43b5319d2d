/** The canvas's Ctrl-key shortcuts: each handled key fires exactly one settings toggle. */
module CanvasShortcuts {
  import opened JsPrelude
  import opened CanvasConfig

  /** The toggle a key-down fires, if any. */
  function CanvasKeyToggle(ctrlKey: bool, shiftKey: bool, key: string): (r: Option<Flag>)
    ensures !ctrlKey ==> r.None?
  {
    if !ctrlKey then None
    else if key == "g" || key == "G" then Some(GridFlag)
    else if key == "r" || key == "R" then Some(RulersFlag)
    else if key == ";" then (if shiftKey then Some(SnapFlag) else Some(GuidesFlag))
    else None
  }

  /** The settings after a key-down. */
  function ApplyCanvasKey(s: CanvasSettings, ctrlKey: bool, shiftKey: bool, key: string): CanvasSettings
  {
    var t := CanvasKeyToggle(ctrlKey, shiftKey, key);
    if t.Some? then Toggle(s, t.value) else s
  }

  /**
   * Ctrl+g/G flips the grid, Ctrl+r/R the rulers, Ctrl+Shift+; snapping and
   * Ctrl+; the guides; every other key, and every key without Ctrl, leaves
   * the settings as they are.
   */
  lemma CanvasKeyTable(s: CanvasSettings, ctrlKey: bool, shiftKey: bool, key: string)
    ensures var r := ApplyCanvasKey(s, ctrlKey, shiftKey, key);
      (!ctrlKey ==> r == s)
      && (ctrlKey && (key == "g" || key == "G") ==> r == s.(showGrid := !s.showGrid))
      && (ctrlKey && (key == "r" || key == "R") ==> r == s.(showRulers := !s.showRulers))
      && (ctrlKey && key == ";" && shiftKey ==> r == s.(snapToGrid := !s.snapToGrid))
      && (ctrlKey && key == ";" && !shiftKey ==> r == s.(showGuides := !s.showGuides))
      && (key !in {"g", "G", "r", "R", ";"} ==> r == s)
  {
  }

  /** Pressing the same handled shortcut twice restores the settings. */
  lemma CanvasKeyTwiceRestores(s: CanvasSettings, ctrlKey: bool, shiftKey: bool, key: string)
    ensures ApplyCanvasKey(ApplyCanvasKey(s, ctrlKey, shiftKey, key), ctrlKey, shiftKey, key) == s
  {
    var t := CanvasKeyToggle(ctrlKey, shiftKey, key);
    if t.Some? {
      ToggleFlipsOneFlag(s, t.value);
    }
  }
}
