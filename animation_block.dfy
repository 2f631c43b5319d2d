/**
 * An animation block on the timeline strip: dragging its body moves the
 * layer's delay, dragging its left edge trims the start (delay and duration
 * together), dragging its right edge changes the duration. Every result is
 * clamped and then snapped to the 100 ms grid, computed from the snapshot
 * taken at mouse-down. The container width and pointer coordinates are
 * parameters.
 */
module AnimationBlock {
  import opened JsPrelude
  import opened SliderTypes

  const GridSize: real := 100.0
  /** The shortest duration the left and right edges allow. */
  const MinDuration: real := 100.0

  /** A time on the 100 ms grid. */
  predicate OnGrid(t: real)
  {
    t == ((t / GridSize).Floor * 100) as real
  }

  /** `pixelToTime`: a pointer distance as a time distance along the strip. */
  function PixelToTime(pixelX: real, containerWidth: real, maxTime: real): (t: real)
    requires containerWidth > 0.0
    ensures t * containerWidth == pixelX * maxTime
  {
    (pixelX / containerWidth) * maxTime
  }

  /** `snapToGrid`: `Math.round(time / 100) * 100`. */
  function SnapToGrid(time: real): (r: real)
    ensures OnGrid(r)
    ensures time - 50.0 < r <= time + 50.0
  {
    var k := Round(time / GridSize);
    assert (k * 100) as real == k as real * GridSize;
    assert ((k * 100) as real) / GridSize == k as real;
    (k * 100) as real
  }

  lemma SnapIdentityOnGrid(t: real)
    requires OnGrid(t)
    ensures SnapToGrid(t) == t
  {
    var k := (t / GridSize).Floor;
    assert t == k as real * GridSize;
    assert t / GridSize == k as real;
    assert t / GridSize + 1.0 / 2.0 == k as real + 0.5;
    assert Round(t / GridSize) == k;
  }

  lemma SnapMonotone(a: real, b: real)
    requires a <= b
    ensures SnapToGrid(a) <= SnapToGrid(b)
  {
    assert a / GridSize <= b / GridSize;
    assert Round(a / GridSize) <= Round(b / GridSize);
  }

  /** Snapping moves a time by at most half a grid step and never leaves the grid again. */
  lemma SnapProperties(t: real)
    ensures -50.0 < SnapToGrid(t) - t <= 50.0
    ensures OnGrid(SnapToGrid(t)) && SnapToGrid(SnapToGrid(t)) == SnapToGrid(t)
    ensures t >= 0.0 ==> SnapToGrid(t) >= 0.0
  {
    SnapIdentityOnGrid(SnapToGrid(t));
    if t >= 0.0 {
      SnapIdentityOnGrid(0.0);
      SnapMonotone(0.0, t);
    }
  }

  /** The values captured at mouse-down. */
  datatype DragStart = DragStart(x: real, delay: real, duration: real)

  datatype ResizeEdge = LeftEdge | RightEdge

  /** What a move reports through `onUpdateAnimation`. */
  datatype AnimationUpdate = AnimationUpdate(delay: Option<real>, duration: Option<real>)

  /** Move: delay = snap(clamp(start.delay + Δt, 0, maxTime − duration)); the current duration bounds it. */
  function MoveDelay(start: DragStart, dt: real, maxTime: real, duration: real): real
  {
    SnapToGrid(Max(0.0, Min(start.delay + dt, maxTime - duration)))
  }

  /**
   * A moved block starts at a non-negative grid time, and ends by maxTime
   * whenever maxTime − duration is itself a non-negative grid time.
   */
  lemma MoveDelayBounds(start: DragStart, dt: real, maxTime: real, duration: real)
    ensures var d := MoveDelay(start, dt, maxTime, duration);
      d >= 0.0 && OnGrid(d)
      && (OnGrid(maxTime - duration) && maxTime - duration >= 0.0 ==> d + duration <= maxTime)
  {
    var c := Max(0.0, Min(start.delay + dt, maxTime - duration));
    SnapProperties(c);
    if OnGrid(maxTime - duration) && maxTime - duration >= 0.0 {
      SnapMonotone(c, maxTime - duration);
      SnapIdentityOnGrid(maxTime - duration);
    }
  }

  /** Left edge: delay = snap(clamp(start.delay + Δt, 0, start end − 100)); duration = max(100, start.duration − shift). */
  function ResizeLeft(start: DragStart, dt: real): (r: (real, real))
  {
    var maxAllowedDelay := start.delay + start.duration - MinDuration;
    var delay := SnapToGrid(Max(0.0, Min(start.delay + dt, maxAllowedDelay)));
    (delay, Max(MinDuration, start.duration - (delay - start.delay)))
  }

  /**
   * Trimming the start keeps the duration at least 100 and the block's end
   * fixed at start.delay + start.duration, except when the 100 floor applies.
   */
  lemma ResizeLeftBounds(start: DragStart, dt: real)
    ensures var (delay, duration) := ResizeLeft(start, dt);
      duration >= MinDuration && delay >= 0.0 && OnGrid(delay)
      && (start.duration - (delay - start.delay) >= MinDuration ==> delay + duration == start.delay + start.duration)
      && (start.duration - (delay - start.delay) < MinDuration ==> duration == MinDuration)
  {
    SnapProperties(Max(0.0, Min(start.delay + dt, start.delay + start.duration - MinDuration)));
  }

  /** With a start and end on the grid, trimming never reaches the 100 floor: the end stays put. */
  lemma ResizeLeftKeepsGridEnd(start: DragStart, dt: real)
    requires OnGrid(start.delay + start.duration - MinDuration)
    requires start.delay + start.duration - MinDuration >= 0.0
    ensures ResizeLeft(start, dt).0 + ResizeLeft(start, dt).1 == start.delay + start.duration
  {
    var bound := start.delay + start.duration - MinDuration;
    var c := Max(0.0, Min(start.delay + dt, bound));
    SnapMonotone(c, bound);
    SnapIdentityOnGrid(bound);
  }

  /** Right edge: duration = snap(clamp(start.duration + Δt, 100, maxTime − start.delay)). */
  function ResizeRight(start: DragStart, dt: real, maxTime: real): real
  {
    SnapToGrid(Max(MinDuration, Min(start.duration + dt, maxTime - start.delay)))
  }

  /** A resized duration is a grid time of at least 100 that fits by maxTime when that limit is on the grid. */
  lemma ResizeRightBounds(start: DragStart, dt: real, maxTime: real)
    ensures var d := ResizeRight(start, dt, maxTime);
      d >= MinDuration && OnGrid(d)
      && (OnGrid(maxTime - start.delay) && maxTime - start.delay >= MinDuration ==> start.delay + d <= maxTime)
  {
    var c := Max(MinDuration, Min(start.duration + dt, maxTime - start.delay));
    SnapProperties(c);
    SnapMonotone(MinDuration, c);
    SnapIdentityOnGrid(MinDuration);
    if OnGrid(maxTime - start.delay) && maxTime - start.delay >= MinDuration {
      SnapMonotone(c, maxTime - start.delay);
      SnapIdentityOnGrid(maxTime - start.delay);
    }
  }

  /** The update one pointer move reports, from the gesture state and the drag-start snapshot. */
  function MoveUpdate(
    isDragging: bool, isResizing: Option<ResizeEdge>, start: DragStart,
    hasContainer: bool, containerWidth: real, clientX: real, currentDuration: real, maxTime: real
  ): Option<AnimationUpdate>
    requires containerWidth > 0.0
  {
    if !hasContainer || (!isDragging && isResizing.None?) then None
    else
      var dt := PixelToTime(clientX - start.x, containerWidth, maxTime);
      if isDragging then Some(AnimationUpdate(Some(MoveDelay(start, dt, maxTime, currentDuration)), None))
      else if isResizing == Some(LeftEdge) then
        var (delay, duration) := ResizeLeft(start, dt);
        Some(AnimationUpdate(Some(delay), Some(duration)))
      else Some(AnimationUpdate(None, Some(ResizeRight(start, dt, maxTime))))
  }

  /**
   * A move without a container or without an active gesture reports nothing;
   * a body drag wins over an edge resize and never touches the duration; a
   * right-edge resize never touches the delay; and every reported value is a
   * grid time with the gesture's bounds.
   */
  lemma MoveUpdateCases(
    isDragging: bool, isResizing: Option<ResizeEdge>, start: DragStart,
    hasContainer: bool, containerWidth: real, clientX: real, currentDuration: real, maxTime: real)
    requires containerWidth > 0.0
    ensures var u := MoveUpdate(isDragging, isResizing, start, hasContainer, containerWidth, clientX, currentDuration, maxTime);
      (u.None? <==> !hasContainer || (!isDragging && isResizing.None?))
      && (u.Some? && isDragging ==> u.value.duration.None? && u.value.delay.Some? && u.value.delay.value >= 0.0 && OnGrid(u.value.delay.value))
      && (u.Some? && !isDragging && isResizing == Some(LeftEdge) ==>
            u.value.delay.Some? && u.value.duration.Some? && u.value.duration.value >= MinDuration)
      && (u.Some? && !isDragging && isResizing == Some(RightEdge) ==>
            u.value.delay.None? && u.value.duration.Some? && u.value.duration.value >= MinDuration)
  {
    if hasContainer && (isDragging || isResizing.Some?) {
      var dt := PixelToTime(clientX - start.x, containerWidth, maxTime);
      MoveDelayBounds(start, dt, maxTime, currentDuration);
      ResizeLeftBounds(start, dt);
      ResizeRightBounds(start, dt, maxTime);
    }
  }

  /**
   * Every move is computed from the snapshot, so the report depends on the
   * pointer only through its total distance from the mouse-down position.
   */
  lemma MoveDependsOnTotalDistance(
    isDragging: bool, isResizing: Option<ResizeEdge>, start: DragStart,
    containerWidth: real, clientX: real, shift: real, currentDuration: real, maxTime: real)
    requires containerWidth > 0.0
    ensures MoveUpdate(isDragging, isResizing, start, true, containerWidth, clientX, currentDuration, maxTime)
         == MoveUpdate(isDragging, isResizing, start.(x := start.x + shift), true, containerWidth, clientX + shift, currentDuration, maxTime)
  {
    assert (clientX + shift) - (start.x + shift) == clientX - start.x;
  }

  /** The gesture state of one block. */
  class BlockGesture {
    var isDragging: bool
    var isResizing: Option<ResizeEdge>
    var dragStart: DragStart

    constructor ()
      ensures !isDragging && isResizing.None? && dragStart == DragStart(0.0, 0.0, 0.0)
    {
      isDragging := false;
      isResizing := None;
      dragStart := DragStart(0.0, 0.0, 0.0);
    }

    /**
     * Mouse-down on the block body (or its content): select the layer if it is
     * not selected yet, and start a move from a snapshot of the animation.
     * Returns the layer id passed to `onSelectLayer`, if it is called.
     */
    method BodyMouseDown(onBlockOrContent: bool, hasSelectHandler: bool, isSelected: bool, clientX: real, layer: Layer)
      returns (selected: Option<string>)
      modifies this
      ensures !onBlockOrContent ==> (selected.None? && isDragging == old(isDragging)
        && isResizing == old(isResizing) && dragStart == old(dragStart))
      ensures onBlockOrContent ==> (
        selected == (if hasSelectHandler && !isSelected then Some(layer.id) else None)
        && isDragging && isResizing == old(isResizing)
        && dragStart == DragStart(clientX, layer.animation.delay, layer.animation.duration))
    {
      selected := None;
      if !onBlockOrContent {
        return;
      }
      if hasSelectHandler && !isSelected {
        selected := Some(layer.id);
      }
      isDragging := true;
      dragStart := DragStart(clientX, layer.animation.delay, layer.animation.duration);
    }

    /** Mouse-down on an edge handle: start a resize from a snapshot of the animation. */
    method EdgeMouseDown(edge: ResizeEdge, clientX: real, layer: Layer)
      modifies this
      ensures isResizing == Some(edge) && isDragging == old(isDragging)
      ensures dragStart == DragStart(clientX, layer.animation.delay, layer.animation.duration)
    {
      isResizing := Some(edge);
      dragStart := DragStart(clientX, layer.animation.delay, layer.animation.duration);
    }

    /** A pointer move: reports the update and leaves the gesture state as it is. */
    method MouseMove(hasContainer: bool, containerWidth: real, clientX: real, layer: Layer, maxTime: real)
      returns (update: Option<AnimationUpdate>)
      requires containerWidth > 0.0
      ensures update == MoveUpdate(isDragging, isResizing, dragStart, hasContainer, containerWidth,
                                   clientX, layer.animation.duration, maxTime)
    {
      if !hasContainer || (!isDragging && isResizing.None?) {
        return None;
      }
      var deltaX := clientX - dragStart.x;
      var deltaTime := PixelToTime(deltaX, containerWidth, maxTime);
      if isDragging {
        var rawDelay := dragStart.delay + deltaTime;
        var constrained := Max(0.0, Min(rawDelay, maxTime - layer.animation.duration));
        update := Some(AnimationUpdate(Some(SnapToGrid(constrained)), None));
      } else if isResizing == Some(LeftEdge) {
        var rawDelay := dragStart.delay + deltaTime;
        var maxAllowedDelay := dragStart.delay + dragStart.duration - MinDuration;
        var snapped := SnapToGrid(Max(0.0, Min(rawDelay, maxAllowedDelay)));
        var newDuration := dragStart.duration - (snapped - dragStart.delay);
        update := Some(AnimationUpdate(Some(snapped), Some(Max(MinDuration, newDuration))));
      } else {
        var rawDuration := dragStart.duration + deltaTime;
        var maxAllowed := maxTime - dragStart.delay;
        update := Some(AnimationUpdate(None, Some(SnapToGrid(Max(MinDuration, Min(rawDuration, maxAllowed))))));
      }
    }

    /** Mouse-up ends every gesture. */
    method MouseUp()
      modifies this
      ensures !isDragging && isResizing.None? && dragStart == old(dragStart)
    {
      isDragging := false;
      isResizing := None;
    }
  }
}
