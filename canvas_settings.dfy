/**
 * The canvas view settings hook: four display flags, the grid size, and the
 * grid rounding used while dragging layers.
 */
module CanvasConfig {
  import opened JsPrelude

  datatype CanvasSettings = CanvasSettings(
    showGrid: bool, showRulers: bool, snapToGrid: bool, gridSize: real, showGuides: bool)

  /** The hook's initial settings. */
  const DefaultSettings := CanvasSettings(true, true, true, 20.0, true)

  datatype Flag = GridFlag | RulersFlag | GuidesFlag | SnapFlag

  /** Reads one display flag. */
  function FlagValue(s: CanvasSettings, f: Flag): bool
  {
    match f
    case GridFlag => s.showGrid
    case RulersFlag => s.showRulers
    case GuidesFlag => s.showGuides
    case SnapFlag => s.snapToGrid
  }

  /** `toggleGrid`, `toggleRulers`, `toggleGuides`, `toggleSnapToGrid`. */
  function Toggle(s: CanvasSettings, f: Flag): (r: CanvasSettings)
    ensures r.gridSize == s.gridSize
  {
    match f
    case GridFlag => s.(showGrid := !s.showGrid)
    case RulersFlag => s.(showRulers := !s.showRulers)
    case GuidesFlag => s.(showGuides := !s.showGuides)
    case SnapFlag => s.(snapToGrid := !s.snapToGrid)
  }

  /** `setGridSize`. */
  function SetGridSize(s: CanvasSettings, size: real): (r: CanvasSettings)
    ensures r.gridSize == size
    ensures forall f :: FlagValue(r, f) == FlagValue(s, f)
  {
    s.(gridSize := size)
  }

  /** Each toggle flips its own flag, leaves the other flags and the grid size alone, and undoes itself. */
  lemma ToggleFlipsOneFlag(s: CanvasSettings, f: Flag)
    ensures FlagValue(Toggle(s, f), f) == !FlagValue(s, f)
    ensures forall g :: g != f ==> FlagValue(Toggle(s, f), g) == FlagValue(s, g)
    ensures Toggle(Toggle(s, f), f) == s
  {
  }

  /** Two settings agree when they agree on every flag and on the grid size. */
  lemma SettingsExtensional(s: CanvasSettings, t: CanvasSettings)
    requires forall f :: FlagValue(s, f) == FlagValue(t, f)
    requires s.gridSize == t.gridSize
    ensures s == t
  {
    assert FlagValue(s, GridFlag) == FlagValue(t, GridFlag);
    assert FlagValue(s, RulersFlag) == FlagValue(t, RulersFlag);
    assert FlagValue(s, GuidesFlag) == FlagValue(t, GuidesFlag);
    assert FlagValue(s, SnapFlag) == FlagValue(t, SnapFlag);
  }

  function GridMultiple(k: int, g: real): real
  {
    k as real * g
  }

  /** `r` is a whole number of grid steps. */
  ghost predicate OnGridOf(r: real, g: real)
  {
    exists k: int :: GridMultiple(k, g) == r
  }

  /** The hook's `snapToGrid(value)`: unchanged when snapping is off, else the nearest grid multiple. */
  function SnapValue(s: CanvasSettings, value: real): (r: real)
    requires s.snapToGrid ==> s.gridSize != 0.0
    ensures !s.snapToGrid ==> r == value
    ensures s.snapToGrid ==> OnGridOf(r, s.gridSize)
  {
    if !s.snapToGrid then value
    else
      var k := Round(value / s.gridSize);
      assert GridMultiple(k, s.gridSize) == k as real * s.gridSize;
      k as real * s.gridSize
  }

  /** With a positive grid, a snapped value is within half a grid step of the input. */
  lemma SnapIsNearest(s: CanvasSettings, value: real)
    requires s.gridSize > 0.0
    ensures -s.gridSize / 2.0 < SnapValue(s, value) - value <= s.gridSize / 2.0
  {
    if s.snapToGrid {
      var k := Round(value / s.gridSize);
      NearestMultiple(value, s.gridSize, k);
    }
  }

  lemma NearestMultiple(v: real, g: real, k: int)
    requires g > 0.0
    requires k as real - 1.0 / 2.0 <= v / g < k as real + 1.0 / 2.0
    ensures -g / 2.0 < k as real * g - v <= g / 2.0
  {
    var q, kr := v / g, k as real;
    assert v == q * g;
    MultiplyBounds(kr - 1.0 / 2.0, q, kr + 1.0 / 2.0, g);
    assert (kr - 1.0 / 2.0) * g == kr * g - g / 2.0;
    assert (kr + 1.0 / 2.0) * g == kr * g + g / 2.0;
  }

  lemma MultiplyBounds(lo: real, x: real, hi: real, g: real)
    requires lo <= x < hi && g > 0.0
    ensures lo * g <= x * g < hi * g
  {
  }

  /** Snapping twice is snapping once. */
  lemma SnapIdempotent(s: CanvasSettings, value: real)
    requires s.gridSize != 0.0
    ensures SnapValue(s, SnapValue(s, value)) == SnapValue(s, value)
  {
    if s.snapToGrid {
      var g := s.gridSize;
      var k := Round(value / g);
      assert SnapValue(s, value) == k as real * g;
      assert (k as real * g) / g == k as real;
      assert Round(k as real) == k;
      assert SnapValue(s, k as real * g) == Round((k as real * g) / g) as real * g;
    }
  }

  /** With the default 20-unit grid, 33 snaps to 40 and 10 (exactly half a step) rounds up to 20. */
  lemma SnapExamples()
    ensures SnapValue(DefaultSettings, 33.0) == 40.0
    ensures SnapValue(DefaultSettings, 10.0) == 20.0
    ensures SnapValue(DefaultSettings.(snapToGrid := false), 33.0) == 33.0
  {
    assert Round(33.0 / 20.0) == 2;
    assert Round(10.0 / 20.0) == 1;
  }

  /** The defaults turn every flag on with a 20-unit grid. */
  lemma DefaultsAllOn()
    ensures forall f :: FlagValue(DefaultSettings, f)
    ensures DefaultSettings.gridSize == 20.0
  {
  }
}
