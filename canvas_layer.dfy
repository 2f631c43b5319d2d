/**
 * How one layer is drawn on the canvas: its animation class, whether it is
 * visible in preview mode, and the derived box, opacity, border and delay.
 */
module CanvasLayerView {
  import opened JsPrelude
  import opened SliderTypes
  import opened CanvasAnimations

  /** The animation class: set only while animating a known kind. */
  function AnimationClass(layer: Layer, state: Option<LayerAnimationState>): (c: string)
    ensures (state.None? || !state.value.isAnimating || state.value.currentAnimation.None?) ==> c == ""
  {
    if state.Some? && state.value.isAnimating && state.value.currentAnimation.Some?
    then AnimationClassName(AnimationNameFor(layer, state.value.currentAnimation.value))
    else ""
  }

  /**
   * `shouldShow`: always outside preview mode; in preview mode only while the
   * entrance animates, or when the entry's current animation is exactly null
   * (a layer without an entry reads `undefined`, not null, and is hidden).
   */
  function ShouldShow(isPreviewMode: bool, state: Option<LayerAnimationState>): bool
  {
    !isPreviewMode
    || (state.Some? && state.value.isAnimating && state.value.currentAnimation == Some(Entrance))
    || (state.Some? && state.value.currentAnimation.None? && isPreviewMode)
  }

  /** The style values the decision logic derives for the layer's element; `None` is an unset property. */
  datatype LayerBox = LayerBox(
    left: real, top: real, width: real, height: real,
    fontSize: Option<real>, borderRadius: Option<real>,
    opacity: real, selectionBorder: bool, animationDelay: real, grabbing: bool, centred: bool)

  /**
   * `v ? v * zoom : undefined` for a numeric style property: a falsy value
   * (absent, 0) sets nothing and a non-zero number is scaled by the zoom.
   */
  function ScaledIfSet(v: Value, zoom: real): Option<real>
  {
    if Truthy(v) && v.Num? then Some(v.n * zoom) else None
  }

  function LayerStyle(layer: Layer, zoom: real, isSelected: bool, isPreviewMode: bool,
                      state: Option<LayerAnimationState>, isDragging: bool): LayerBox
  {
    LayerBox(
      layer.style.x * zoom, layer.style.y * zoom, layer.style.width * zoom, layer.style.height * zoom,
      ScaledIfSet(Get(layer.style.optional, "fontSize"), zoom),
      ScaledIfSet(Get(layer.style.optional, "borderRadius"), zoom),
      if ShouldShow(isPreviewMode, state) then layer.style.opacity else 0.0,
      isSelected && !isPreviewMode,
      if isPreviewMode then layer.animation.delay else 0.0,
      isDragging,
      layer.kind == Button)
  }

  /** `onMouseDown`: forwarded to the canvas only outside preview mode. */
  function ForwardsMouseDown(isPreviewMode: bool): bool
  {
    !isPreviewMode
  }

  /**
   * The visibility rule by cases: every layer shows outside preview mode; in
   * preview mode a layer without an entry is hidden, an animating entrance is
   * shown, an animating exit is hidden, and a finished entry (not animating,
   * no current animation) is shown.
   */
  lemma VisibilityCases(state: Option<LayerAnimationState>)
    ensures ShouldShow(false, state)
    ensures !ShouldShow(true, None)
    ensures ShouldShow(true, Some(LayerAnimationState(true, Some(Entrance))))
    ensures !ShouldShow(true, Some(LayerAnimationState(true, Some(Exit))))
    ensures ShouldShow(true, Some(LayerAnimationState(false, None)))
    ensures !ShouldShow(true, Some(LayerAnimationState(false, Some(Entrance))))
    ensures state.Some? && state.value.currentAnimation == Some(Exit) ==> !ShouldShow(true, state)
  {
  }

  /**
   * A hidden layer has opacity 0 and a shown one keeps its style opacity; the
   * selection border only appears outside preview mode; the animation delay
   * applies only in preview mode; and the box is the style geometry scaled by
   * the zoom, so dividing by the zoom gives the style back. A font size or
   * corner radius that is absent or 0 sets no property; a non-zero one is
   * scaled by the zoom like the geometry.
   */
  lemma LayerStyleProperties(layer: Layer, zoom: real, isSelected: bool, isPreviewMode: bool,
                             state: Option<LayerAnimationState>, isDragging: bool)
    ensures var b := LayerStyle(layer, zoom, isSelected, isPreviewMode, state, isDragging);
      (ShouldShow(isPreviewMode, state) ==> b.opacity == layer.style.opacity)
      && (!ShouldShow(isPreviewMode, state) ==> b.opacity == 0.0)
      && (!isPreviewMode ==> b.opacity == layer.style.opacity)
      && (b.selectionBorder <==> isSelected && !isPreviewMode)
      && (b.animationDelay == if isPreviewMode then layer.animation.delay else 0.0)
      && (zoom != 0.0 ==> b.left / zoom == layer.style.x && b.top / zoom == layer.style.y
                          && b.width / zoom == layer.style.width && b.height / zoom == layer.style.height)
      && (var fs := Get(layer.style.optional, "fontSize");
          (!Truthy(fs) ==> b.fontSize.None?) && (fs.Num? && fs.n != 0.0 ==> b.fontSize == Some(fs.n * zoom)))
      && (var br := Get(layer.style.optional, "borderRadius");
          (!Truthy(br) ==> b.borderRadius.None?) && (br.Num? && br.n != 0.0 ==> b.borderRadius == Some(br.n * zoom)))
  {
    if zoom != 0.0 {
      assert (layer.style.x * zoom) / zoom == layer.style.x;
      assert (layer.style.y * zoom) / zoom == layer.style.y;
      assert (layer.style.width * zoom) / zoom == layer.style.width;
      assert (layer.style.height * zoom) / zoom == layer.style.height;
    }
  }

  /** The class names the entrance or exit currently animating, and nothing otherwise. */
  lemma AnimationClassCases(layer: Layer, state: Option<LayerAnimationState>)
    ensures state == Some(LayerAnimationState(true, Some(Entrance))) ==>
      AnimationClass(layer, state) == AnimationClassName(layer.animation.entrance)
    ensures state == Some(LayerAnimationState(true, Some(Exit))) ==>
      AnimationClass(layer, state) == AnimationClassName(layer.animation.exit)
    ensures state.Some? && !state.value.isAnimating ==> AnimationClass(layer, state) == ""
  {
  }

  /** Starting a layer's entrance preview makes it visible with its entrance class. */
  lemma StartedEntranceIsShown(states: AnimationStates, layer: Layer)
    ensures var s := StartLayerAnimation(states, layer, Entrance);
      ShouldShow(true, Some(s[layer.id]))
      && AnimationClass(layer, Some(s[layer.id])) == AnimationClassName(layer.animation.entrance)
  {
  }
}
