/** The canvas zoom hook: steps of 0.25 between 0.25 and 2. */
module CanvasZoom {
  import opened JsPrelude

  const MinZoom: real := 0.25
  const MaxZoom: real := 2.0
  const ZoomStep: real := 0.25

  predicate InRange(z: real)
  {
    MinZoom <= z <= MaxZoom
  }

  /** `zoomIn`: one step up, capped at 2. */
  function ZoomIn(z: real): (r: real)
    ensures r <= MaxZoom
    ensures z + ZoomStep <= MaxZoom ==> r == z + ZoomStep
    ensures z + ZoomStep > MaxZoom ==> r == MaxZoom
    ensures z >= MinZoom ==> r >= MinZoom
  {
    Min(MaxZoom, z + ZoomStep)
  }

  /** `zoomOut`: one step down, floored at 0.25. */
  function ZoomOut(z: real): (r: real)
    ensures r >= MinZoom
    ensures z - ZoomStep >= MinZoom ==> r == z - ZoomStep
    ensures z - ZoomStep < MinZoom ==> r == MinZoom
    ensures z <= MaxZoom ==> r <= MaxZoom
  {
    Max(MinZoom, z - ZoomStep)
  }

  /** `setZoom`: any level, clamped into range. */
  function SetZoomLevel(level: real): (r: real)
    ensures InRange(r)
    ensures InRange(level) ==> r == level
    ensures level < MinZoom ==> r == MinZoom
    ensures level > MaxZoom ==> r == MaxZoom
  {
    Max(MinZoom, Min(MaxZoom, level))
  }

  datatype ZoomOp = In | Out | SetLevel(level: real)

  function Apply(z: real, op: ZoomOp): real
  {
    match op
    case In => ZoomIn(z)
    case Out => ZoomOut(z)
    case SetLevel(l) => SetZoomLevel(l)
  }

  function ApplyAll(z: real, ops: seq<ZoomOp>): real
    decreases |ops|
  {
    if ops == [] then z else ApplyAll(Apply(z, ops[0]), ops[1..])
  }

  /** Starting inside [0.25, 2], any sequence of zoom operations stays inside it. */
  lemma {:induction false} ZoomStaysInRange(z: real, ops: seq<ZoomOp>)
    requires InRange(z)
    ensures InRange(ApplyAll(z, ops))
    decreases |ops|
  {
    if ops != [] {
      ZoomStaysInRange(Apply(z, ops[0]), ops[1..]);
    }
  }

  /** Any sequence that ends with a setZoom lands in range, whatever the initial (unclamped) zoom. */
  lemma {:induction false} SetLevelLast(z: real, ops: seq<ZoomOp>, level: real)
    ensures InRange(ApplyAll(z, ops + [SetLevel(level)]))
    decreases |ops|
  {
    if ops == [] {
      assert ops + [SetLevel(level)] == [SetLevel(level)];
      assert [SetLevel(level)][1..] == [];
    } else {
      assert (ops + [SetLevel(level)])[1..] == ops[1..] + [SetLevel(level)];
      SetLevelLast(Apply(z, ops[0]), ops[1..], level);
    }
  }

  /** At the limits the buttons do nothing; inside, zoomOut undoes zoomIn unless the cap applied. */
  lemma ZoomLimits(z: real)
    ensures ZoomIn(MaxZoom) == MaxZoom && ZoomOut(MinZoom) == MinZoom
    ensures MinZoom <= z <= MaxZoom - ZoomStep ==> ZoomOut(ZoomIn(z)) == z
    ensures MinZoom + ZoomStep <= z <= MaxZoom ==> ZoomIn(ZoomOut(z)) == z
  {
  }
}
