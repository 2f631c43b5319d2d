/**
 * Dragging layers on the canvas: the drag hook's state (the dragged layer's
 * offset and the alignment guides computed at drag start) and the canvas
 * handlers that turn pointer positions into UPDATE_LAYER dispatches, with an
 * optional grid snap followed by a guide snap. Bounding rects, pointer
 * coordinates, the zoom and the canvas settings are parameters.
 */
module CanvasDrag {
  import opened JsPrelude
  import opened SliderTypes
  import opened SliderStore
  import opened CanvasConfig

  datatype Axis = Horizontal | Vertical

  /** A layer's position and extent along one axis: (x, width) or (y, height). */
  function AxisPos(l: Layer, a: Axis): real
  {
    if a == Horizontal then l.style.x else l.style.y
  }

  function AxisSize(l: Layer, a: Axis): real
  {
    if a == Horizontal then l.style.width else l.style.height
  }

  /** The guides one layer contributes along an axis: leading edge, centre, trailing edge. */
  function EdgeGuides(pos: real, size: real): (r: seq<real>)
    ensures |r| == 3
  {
    [pos, pos + size / 2.0, pos + size]
  }

  datatype AlignmentGuides = AlignmentGuides(x: seq<real>, y: seq<real>)

  const NoGuides := AlignmentGuides([], [])

  /** `allLayers.filter(l => l.id !== draggedId)`. */
  function OtherLayers(layers: seq<Layer>, draggedId: string): (r: seq<Layer>)
    ensures forall l :: l in r <==> l in layers && l.id != draggedId
    ensures |r| <= |layers|
  {
    if layers == [] then []
    else (if layers[0].id != draggedId then [layers[0]] else []) + OtherLayers(layers[1..], draggedId)
  }

  /** The guides of a list of layers along one axis, in layer order. */
  function AxisGuides(ls: seq<Layer>, a: Axis): seq<real>
  {
    if ls == [] then []
    else AxisGuides(ls[..|ls| - 1], a) + EdgeGuides(AxisPos(ls[|ls| - 1], a), AxisSize(ls[|ls| - 1], a))
  }

  /** Layer j's three guides sit at positions 3j, 3j+1, 3j+2. */
  lemma {:induction false} AxisGuidesLayout(ls: seq<Layer>, a: Axis)
    ensures |AxisGuides(ls, a)| == 3 * |ls|
    ensures forall j :: 0 <= j < |ls| ==>
      AxisGuides(ls, a)[3 * j..3 * j + 3] == EdgeGuides(AxisPos(ls[j], a), AxisSize(ls[j], a))
    decreases |ls|
  {
    if ls != [] {
      var init := ls[..|ls| - 1];
      AxisGuidesLayout(init, a);
      var g := AxisGuides(ls, a);
      assert g[..3 * |init|] == AxisGuides(init, a);
      forall j | 0 <= j < |ls|
        ensures g[3 * j..3 * j + 3] == EdgeGuides(AxisPos(ls[j], a), AxisSize(ls[j], a))
      {
        if j < |init| {
          assert ls[j] == init[j];
          assert g[3 * j..3 * j + 3] == AxisGuides(init, a)[3 * j..3 * j + 3];
        }
      }
    }
  }

  /** The guide set `calculateAlignmentGuides` returns. */
  function GuidesFor(dragged: Layer, allLayers: seq<Layer>): AlignmentGuides
  {
    var others := OtherLayers(allLayers, dragged.id);
    AlignmentGuides(AxisGuides(others, Horizontal), AxisGuides(others, Vertical))
  }

  /**
   * The dragged layer contributes no guides; every other layer contributes
   * three per axis, so both lists have length 3 · (number of other layers).
   */
  lemma GuidesForShape(dragged: Layer, allLayers: seq<Layer>)
    ensures var g := GuidesFor(dragged, allLayers);
      var others := OtherLayers(allLayers, dragged.id);
      |g.x| == 3 * |others| && |g.y| == 3 * |others|
      && (forall j :: 0 <= j < |others| ==>
            g.x[3 * j..3 * j + 3] == EdgeGuides(others[j].style.x, others[j].style.width)
            && g.y[3 * j..3 * j + 3] == EdgeGuides(others[j].style.y, others[j].style.height))
      && (forall j :: 0 <= j < |others| ==> others[j].id != dragged.id)
  {
    var others := OtherLayers(allLayers, dragged.id);
    AxisGuidesLayout(others, Horizontal);
    AxisGuidesLayout(others, Vertical);
    forall j | 0 <= j < |others| ensures others[j].id != dragged.id {
      assert others[j] in others;
    }
  }

  lemma TakeAll(s: seq<Layer>)
    ensures s[..|s|] == s
  {
  }

  /** Three single pushes append the three values in order. */
  lemma PushThree(s: seq<real>, a: real, b: real, c: real)
    ensures s + [a] + [b] + [c] == s + [a, b, c]
  {
  }

  /** The guides of a list's first `i + 1` layers extend those of its first `i` by layer `i`'s three. */
  lemma AxisGuidesStep(ls: seq<Layer>, i: int, a: Axis)
    requires 0 <= i < |ls|
    ensures AxisGuides(ls[..i + 1], a) == AxisGuides(ls[..i], a) + EdgeGuides(AxisPos(ls[i], a), AxisSize(ls[i], a))
  {
    assert ls[..i + 1][..i] == ls[..i];
  }

  /** The `forEach` over the other layers: three pushes per axis for each layer, in list order. */
  method PushEdgeGuides(others: seq<Layer>) returns (guides: AlignmentGuides)
    ensures guides == AlignmentGuides(AxisGuides(others, Horizontal), AxisGuides(others, Vertical))
  {
    var gx: seq<real> := [];
    var gy: seq<real> := [];
    var i := 0;
    while i < |others|
      invariant 0 <= i <= |others|
      invariant gx == AxisGuides(others[..i], Horizontal)
      invariant gy == AxisGuides(others[..i], Vertical)
    {
      var layer := others[i];
      ghost var gx0, gy0 := gx, gy;
      gx := gx + [layer.style.x];
      gx := gx + [layer.style.x + layer.style.width / 2.0];
      gx := gx + [layer.style.x + layer.style.width];
      gy := gy + [layer.style.y];
      gy := gy + [layer.style.y + layer.style.height / 2.0];
      gy := gy + [layer.style.y + layer.style.height];
      PushThree(gx0, layer.style.x, layer.style.x + layer.style.width / 2.0, layer.style.x + layer.style.width);
      PushThree(gy0, layer.style.y, layer.style.y + layer.style.height / 2.0, layer.style.y + layer.style.height);
      AxisGuidesStep(others, i, Horizontal);
      AxisGuidesStep(others, i, Vertical);
      i := i + 1;
    }
    TakeAll(others);
    guides := AlignmentGuides(gx, gy);
  }

  /** `calculateAlignmentGuides`: filter out the dragged layer, then push the other layers' guides. */
  method CalculateAlignmentGuides(dragged: Layer, allLayers: seq<Layer>) returns (guides: AlignmentGuides)
    ensures guides == GuidesFor(dragged, allLayers)
  {
    var others := OtherLayers(allLayers, dragged.id);
    guides := PushEdgeGuides(others);
  }

  // ------------------------------------------------------------ pointer to canvas

  datatype Rect = Rect(left: real, top: real)

  /** `clientX - rect.left - style.x * zoom`: the grab offset captured at mouse-down. */
  function DragOffset(client: real, rectOrigin: real, pos: real, zoom: real): real
  {
    client - rectOrigin - pos * zoom
  }

  /** `(clientX - rect.left - offsetX) / zoom`: the unsnapped layer position during a move. */
  function RawPosition(client: real, rectOrigin: real, offset: real, zoom: real): real
    requires zoom != 0.0
  {
    (client - rectOrigin - offset) / zoom
  }

  /**
   * The raw position is the layer's position at mouse-down plus the pointer's
   * travel relative to the canvas, divided by the zoom; a drag with no
   * movement reproduces the start position.
   */
  lemma RawPositionTracksPointer(c0: real, r0: real, c1: real, r1: real, pos: real, zoom: real)
    requires zoom != 0.0
    ensures RawPosition(c1, r1, DragOffset(c0, r0, pos, zoom), zoom) == pos + ((c1 - r1) - (c0 - r0)) / zoom
    ensures RawPosition(c0, r0, DragOffset(c0, r0, pos, zoom), zoom) == pos
  {
    assert c1 - r1 - DragOffset(c0, r0, pos, zoom) == pos * zoom + ((c1 - r1) - (c0 - r0));
    assert (pos * zoom) / zoom == pos;
  }

  // ------------------------------------------------------------ guide snapping

  const SnapThreshold: real := 5.0

  /** One guide's checks, in source order: leading edge, then centre, then trailing edge. */
  function SnapStep(p: real, g: real, size: real): real
  {
    var p1 := if Abs(p - g) < SnapThreshold then g else p;
    var p2 := if Abs(p1 + size / 2.0 - g) < SnapThreshold then g - size / 2.0 else p1;
    if Abs(p2 + size - g) < SnapThreshold then g - size else p2
  }

  /** The guide pass: every guide in list order, later matches overriding earlier ones. */
  function GuideSnap(p: real, guides: seq<real>, size: real): real
  {
    if guides == [] then p
    else SnapStep(GuideSnap(p, guides[..|guides| - 1], size), guides[|guides| - 1], size)
  }

  /** One of the dragged layer's three reference points lies on guide `g`. */
  predicate AlignedTo(p: real, g: real, size: real)
  {
    p == g || p == g - size / 2.0 || p == g - size
  }

  /** None of the three reference points at `p` is within the threshold of `g`. */
  predicate FarFrom(p: real, g: real, size: real)
  {
    Abs(p - g) >= SnapThreshold && Abs(p + size / 2.0 - g) >= SnapThreshold
    && Abs(p + size - g) >= SnapThreshold
  }

  /** The sequential `forEach` over the guides with `let newX` reassigned. */
  method SnapToGuides(p: real, guides: seq<real>, size: real) returns (r: real)
    ensures r == GuideSnap(p, guides, size)
  {
    r := p;
    var i := 0;
    while i < |guides|
      invariant 0 <= i <= |guides|
      invariant r == GuideSnap(p, guides[..i], size)
    {
      var g := guides[i];
      if Abs(r - g) < SnapThreshold {
        r := g;
      }
      if Abs((r + size / 2.0) - g) < SnapThreshold {
        r := g - size / 2.0;
      }
      if Abs((r + size) - g) < SnapThreshold {
        r := g - size;
      }
      assert guides[..i + 1][..i] == guides[..i];
      i := i + 1;
    }
    assert guides[..i] == guides;
  }

  /** A position far from every guide is left where it is. */
  lemma {:induction false} FarFromAllGuidesUnchanged(p: real, guides: seq<real>, size: real)
    requires forall i :: 0 <= i < |guides| ==> FarFrom(p, guides[i], size)
    ensures GuideSnap(p, guides, size) == p
    decreases |guides|
  {
    if guides != [] {
      var init := guides[..|guides| - 1];
      assert forall i :: 0 <= i < |init| ==> init[i] == guides[i];
      FarFromAllGuidesUnchanged(p, init, size);
    }
  }

  /** The guide pass either leaves the position alone or aligns a reference point with some guide. */
  lemma {:induction false} GuideSnapAligns(p: real, guides: seq<real>, size: real)
    ensures var r := GuideSnap(p, guides, size);
      r == p || exists i :: 0 <= i < |guides| && AlignedTo(r, guides[i], size)
    decreases |guides|
  {
    if guides != [] {
      var init := guides[..|guides| - 1];
      var last := guides[|guides| - 1];
      GuideSnapAligns(p, init, size);
      var q := GuideSnap(p, init, size);
      var r := SnapStep(q, last, size);
      if r == q {
        if q != p {
          var i :| 0 <= i < |init| && AlignedTo(q, init[i], size);
          assert init[i] == guides[i];
        }
      } else {
        assert AlignedTo(r, guides[|guides| - 1], size);
      }
    }
  }

  /** A reference point within the threshold of the last guide puts the result on that guide. */
  lemma LastGuideWins(p: real, guides: seq<real>, size: real)
    requires guides != []
    requires !FarFrom(GuideSnap(p, guides[..|guides| - 1], size), guides[|guides| - 1], size)
    ensures AlignedTo(GuideSnap(p, guides, size), guides[|guides| - 1], size)
  {
  }

  /**
   * The committed coordinate: the raw position, grid-snapped when snapping is
   * on, then guide-snapped, then floored at 0 (there is no upper bound).
   */
  function DragTarget(raw: real, settings: CanvasSettings, guides: seq<real>, size: real): real
    requires settings.snapToGrid ==> settings.gridSize != 0.0
  {
    Max(0.0, GuideSnap(SnapValue(settings, raw), guides, size))
  }

  /**
   * The committed coordinate is never negative; before the floor it is the
   * grid result (the raw value when snapping is off) unless a guide took
   * over, in which case it is aligned with a guide.
   */
  lemma DragTargetCases(raw: real, settings: CanvasSettings, guides: seq<real>, size: real)
    requires settings.snapToGrid ==> settings.gridSize != 0.0
    ensures var pre := GuideSnap(SnapValue(settings, raw), guides, size);
      DragTarget(raw, settings, guides, size) >= 0.0
      && DragTarget(raw, settings, guides, size) == (if pre >= 0.0 then pre else 0.0)
      && (pre == SnapValue(settings, raw) || exists i :: 0 <= i < |guides| && AlignedTo(pre, guides[i], size))
      && (!settings.snapToGrid ==> SnapValue(settings, raw) == raw)
  {
    GuideSnapAligns(SnapValue(settings, raw), guides, size);
  }

  /** The dragging state of `useCanvasDragDrop`. */
  datatype DraggingState = DraggingState(
    layerId: string, startX: real, startY: real, offsetX: real, offsetY: real)

  /** The UPDATE_LAYER a move dispatches: the layer's style with the new x and y. */
  function DragUpdate(slide: Slide, layer: Layer, x: real, y: real): Action
  {
    UpdateLayer(slide.id, layer.id, NoUpdates.(style := Some(layer.style.(x := x, y := y))))
  }

  /** A drag update writes x and y of the dragged layer and copies every other style field. */
  lemma DragUpdateMovesOnlyPosition(state: SliderState, slide: Slide, layer: Layer, x: real, y: real)
    requires state.project.Some?
    ensures var r := Reduce(state, DragUpdate(slide, layer, x, y));
      var before := state.project.value.slides;
      r.project.Some? && SameUi(r, state) && |r.project.value.slides| == |before|
      && forall i :: 0 <= i < |before| ==>
           var s, t := before[i], r.project.value.slides[i];
           if s.id != slide.id then t == s
           else
             |t.layers| == |s.layers|
             && forall j :: 0 <= j < |s.layers| ==>
                  if s.layers[j].id != layer.id then t.layers[j] == s.layers[j]
                  else t.layers[j] == s.layers[j].(style := layer.style.(x := x, y := y))
  {
    UpdateLayerIsShallowAndLocal(state, slide.id, layer.id, NoUpdates.(style := Some(layer.style.(x := x, y := y))));
  }

  /** The canvas's drag handlers over the drag hook's state and the store. */
  class CanvasDragController {
    const store: Store
    var dragging: Option<DraggingState>
    var guides: AlignmentGuides

    constructor (store: Store)
      ensures this.store == store && dragging.None? && guides == NoGuides
    {
      this.store := store;
      dragging := None;
      guides := NoGuides;
    }

    /** `startDragging`: replaces the dragging state wholesale. */
    method StartDragging(d: DraggingState)
      modifies this
      ensures dragging == Some(d) && guides == old(guides)
    {
      dragging := Some(d);
    }

    /** `stopDragging`: no drag and no guides. */
    method StopDragging()
      modifies this
      ensures dragging.None? && guides == NoGuides
    {
      dragging := None;
      guides := NoGuides;
    }

    /** `updateAlignmentGuides`: replaces the guide set wholesale. */
    method UpdateAlignmentGuides(g: AlignmentGuides)
      modifies this
      ensures guides == g && dragging == old(dragging)
    {
      guides := g;
    }

    /**
     * `handleLayerMouseDown`: select the layer, then (when the canvas has a
     * rect) compute the guides once from the current slide's layers and start
     * a drag with the grab offset.
     */
    method LayerMouseDown(layer: Layer, clientX: real, clientY: real, rect: Option<Rect>, zoom: real)
      modifies this, store
      ensures store.state == Reduce(old(store.state), SelectLayer(Some(layer.id)))
      ensures rect.None? ==> dragging == old(dragging) && guides == old(guides)
      ensures rect.Some? ==>
        var slide := SlideAt(old(store.state).project, old(store.state).currentSlideIndex);
        guides == GuidesFor(layer, if slide.Some? then slide.value.layers else [])
        && dragging == Some(DraggingState(layer.id, clientX, clientY,
             DragOffset(clientX, rect.value.left, layer.style.x, zoom),
             DragOffset(clientY, rect.value.top, layer.style.y, zoom)))
    {
      var slide := SlideAt(store.state.project, store.state.currentSlideIndex);
      store.Dispatch(SelectLayer(Some(layer.id)));
      if rect.None? {
        return;
      }
      var g := CalculateAlignmentGuides(layer, if slide.Some? then slide.value.layers else []);
      UpdateAlignmentGuides(g);
      var offsetX := clientX - rect.value.left - layer.style.x * zoom;
      var offsetY := clientY - rect.value.top - layer.style.y * zoom;
      assert offsetX == DragOffset(clientX, rect.value.left, layer.style.x, zoom);
      StartDragging(DraggingState(layer.id, clientX, clientY, offsetX, offsetY));
      assert dragging == Some(DraggingState(layer.id, clientX, clientY, offsetX, offsetY));
      assert offsetY == DragOffset(clientY, rect.value.top, layer.style.y, zoom);
    }

    /**
     * `handleMouseMove`: nothing without a drag, a canvas or a current slide;
     * otherwise one UPDATE_LAYER that moves the dragged layer to the snapped,
     * floored position. `zoom` and `settings` are those of the render whose
     * listener is installed.
     */
    method MouseMove(clientX: real, clientY: real, rect: Option<Rect>, zoom: real, settings: CanvasSettings)
      requires zoom != 0.0
      requires settings.snapToGrid ==> settings.gridSize != 0.0
      modifies store
      ensures var slide := SlideAt(old(store.state).project, old(store.state).currentSlideIndex);
        if dragging.None? || rect.None? || slide.None? then store.state == old(store.state)
        else
          var d := dragging.value;
          var found := FindLayer(slide.value.layers, d.layerId);
          if found.None? then store.state == old(store.state)
          else
            var l := found.value;
            store.state == Reduce(old(store.state), DragUpdate(slide.value, l,
              DragTarget(RawPosition(clientX, rect.value.left, d.offsetX, zoom), settings, guides.x, l.style.width),
              DragTarget(RawPosition(clientY, rect.value.top, d.offsetY, zoom), settings, guides.y, l.style.height)))
    {
      var slide := SlideAt(store.state.project, store.state.currentSlideIndex);
      if dragging.None? || rect.None? || slide.None? {
        return;
      }
      var d := dragging.value;
      var found := FindLayer(slide.value.layers, d.layerId);
      if found.None? {
        return;
      }
      var l := found.value;
      var newX := (clientX - rect.value.left - d.offsetX) / zoom;
      var newY := (clientY - rect.value.top - d.offsetY) / zoom;
      ghost var gridX, gridY := SnapValue(settings, newX), SnapValue(settings, newY);
      if settings.snapToGrid {
        newX := SnapValue(settings, newX);
        newY := SnapValue(settings, newY);
      }
      assert newX == gridX && newY == gridY;
      newX := SnapToGuides(newX, guides.x, l.style.width);
      newY := SnapToGuides(newY, guides.y, l.style.height);
      assert Max(0.0, newX) == DragTarget(RawPosition(clientX, rect.value.left, d.offsetX, zoom), settings, guides.x, l.style.width);
      assert Max(0.0, newY) == DragTarget(RawPosition(clientY, rect.value.top, d.offsetY, zoom), settings, guides.y, l.style.height);
      store.Dispatch(DragUpdate(slide.value, l, Max(0.0, newX), Max(0.0, newY)));
    }

    /** `handleMouseUp`. */
    method MouseUp()
      modifies this
      ensures dragging.None? && guides == NoGuides
    {
      StopDragging();
    }
  }
}
