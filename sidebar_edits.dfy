/**
 * The sidebar's edit entry points, shared by its three variants: the
 * dot-path property update ("style.k", "animation.k" or a top-level field),
 * the add-layer factory and layer deletion. Each computes one action from the
 * state of the render it was created in, or nothing.
 */
module SidebarEdits {
  import opened JsPrelude
  import opened SliderTypes
  import opened SliderStore

  /** `state.project?.slides[state.currentSlideIndex]`. */
  function CurrentSlide(state: SliderState): Option<Slide>
  {
    SlideAt(state.project, state.currentSlideIndex)
  }

  /** `currentSlide?.layers.find(layer => layer.id === state.selectedLayerId)`. */
  function SelectedLayer(state: SliderState): (r: Option<Layer>)
    ensures r.Some? ==> (CurrentSlide(state).Some? && state.selectedLayerId == Some(r.value.id)
      && r.value in CurrentSlide(state).value.layers)
  {
    var slide := CurrentSlide(state);
    if slide.None? || state.selectedLayerId.None? then None
    else FindLayer(slide.value.layers, state.selectedLayerId.value)
  }

  // ------------------------------------------------------------ one-key writes

  /**
   * `{ ...style, [key]: value }`. A geometry key takes a number (the panels
   * pass `parseInt`/`parseFloat` results); any other value for it is dropped.
   */
  function SetStyleKey(s: Style, key: string, v: Value): Style
  {
    match key
    case "x" => if v.Num? then s.(x := v.n) else s
    case "y" => if v.Num? then s.(y := v.n) else s
    case "width" => if v.Num? then s.(width := v.n) else s
    case "height" => if v.Num? then s.(height := v.n) else s
    case "opacity" => if v.Num? then s.(opacity := v.n) else s
    case "rotation" => if v.Num? then s.(rotation := v.n) else s
    case "zIndex" => if v.Num? then s.(zIndex := v.n) else s
    case _ => s.(optional := s.optional[key := v])
  }

  /** A style key written with a value of its kind reads back that value. */
  lemma SetStyleKeyReadBack(s: Style, key: string, v: Value)
    requires IsGeometryKey(key) ==> v.Num?
    ensures StyleGet(SetStyleKey(s, key, v), key) == v
  {
  }

  /** Writing one style key leaves every other key's value as it was. */
  lemma SetStyleKeyKeepsOthers(s: Style, key: string, v: Value, other: string)
    requires other != key
    ensures StyleGet(SetStyleKey(s, key, v), other) == StyleGet(s, other)
  {
  }

  /** An animation field as a value. */
  function AnimationGet(a: Animation, key: string): Value
  {
    match key
    case "entrance" => Str(a.entrance)
    case "exit" => Str(a.exit)
    case "duration" => Num(a.duration)
    case "delay" => Num(a.delay)
    case "easing" => Str(a.easing)
    case _ => Undefined
  }

  predicate IsAnimationKey(key: string)
  {
    key == "entrance" || key == "exit" || key == "duration" || key == "delay" || key == "easing"
  }

  /** The value kind an animation field holds. */
  predicate FitsAnimationKey(key: string, v: Value)
  {
    if key == "duration" || key == "delay" then v.Num? else v.Str?
  }

  /** `{ ...animation, [key]: value }`, values passed through unclamped. */
  function SetAnimationKey(a: Animation, key: string, v: Value): Animation
  {
    match key
    case "entrance" => if v.Str? then a.(entrance := v.s) else a
    case "exit" => if v.Str? then a.(exit := v.s) else a
    case "duration" => if v.Num? then a.(duration := v.n) else a
    case "delay" => if v.Num? then a.(delay := v.n) else a
    case "easing" => if v.Str? then a.(easing := v.s) else a
    case _ => a
  }

  /** An animation field written with a value of its kind reads back that value, unclamped. */
  lemma SetAnimationKeyReadBack(a: Animation, key: string, v: Value)
    requires IsAnimationKey(key) && FitsAnimationKey(key, v)
    ensures AnimationGet(SetAnimationKey(a, key, v), key) == v
  {
  }

  /** Writing one animation field leaves the others as they were; unknown keys change nothing. */
  lemma SetAnimationKeyKeepsOthers(a: Animation, key: string, v: Value, other: string)
    ensures other != key ==> AnimationGet(SetAnimationKey(a, key, v), other) == AnimationGet(a, other)
    ensures !IsAnimationKey(key) ==> SetAnimationKey(a, key, v) == a
  {
  }

  // ------------------------------------------------------------ updateLayerProperty

  /** The update object for a dot path, built from the selected layer. */
  function PropertyUpdates(layer: Layer, property: string, v: Value): LayerUpdates
  {
    if StartsWith(property, "style.") then
      NoUpdates.(style := Some(SetStyleKey(layer.style, property[|"style."|..], v)))
    else if StartsWith(property, "animation.") then
      NoUpdates.(animation := Some(SetAnimationKey(layer.animation, property[|"animation."|..], v)))
    else if property == "content" && v.Str? then NoUpdates.(content := Some(v.s))
    else if property == "id" && v.Str? then NoUpdates.(id := Some(v.s))
    else NoUpdates
  }

  /** `updateLayerProperty`: nothing without a current slide or a selected layer. */
  function UpdateLayerProperty(state: SliderState, property: string, v: Value): Option<Action>
  {
    var slide := CurrentSlide(state);
    var layer := SelectedLayer(state);
    if layer.None? || slide.None? then None
    else Some(UpdateLayer(slide.value.id, layer.value.id, PropertyUpdates(layer.value, property, v)))
  }

  lemma StartsWithConcat(p: string, k: string)
    ensures StartsWith(p + k, p) && (p + k)[|p|..] == k
  {
    assert (p + k)[..|p|] == p;
  }

  /** Without a current slide or with a selection that names no layer of it, nothing is dispatched. */
  lemma UpdateNeedsSelection(state: SliderState, property: string, v: Value)
    ensures UpdateLayerProperty(state, property, v).None? <==> SelectedLayer(state).None?
    ensures UpdateLayerProperty(state, property, v).Some? ==>
      var a := UpdateLayerProperty(state, property, v).value;
      a.UpdateLayer? && a.slideId == CurrentSlide(state).value.id
      && Some(a.layerId) == state.selectedLayerId
  {
  }

  /**
   * A "style.k" path sends the selected layer's whole style with k replaced
   * and every other key as it was, and leaves the animation and the other
   * fields out of the update.
   */
  lemma StylePathUpdate(state: SliderState, k: string, v: Value, other: string)
    requires SelectedLayer(state).Some?
    ensures var layer := SelectedLayer(state).value;
      var u := UpdateLayerProperty(state, "style." + k, v).value.updates;
      u.style.Some? && u.animation.None? && u.id.None? && u.kind.None? && u.content.None? && u.shapeType.None?
      && ((IsGeometryKey(k) ==> v.Num?) ==> StyleGet(u.style.value, k) == v)
      && (other != k ==> StyleGet(u.style.value, other) == StyleGet(layer.style, other))
  {
    StartsWithConcat("style.", k);
    var layer := SelectedLayer(state).value;
    assert PropertyUpdates(layer, "style." + k, v) == NoUpdates.(style := Some(SetStyleKey(layer.style, k, v)));
    if IsGeometryKey(k) ==> v.Num? {
      SetStyleKeyReadBack(layer.style, k, v);
    }
    if other != k {
      SetStyleKeyKeepsOthers(layer.style, k, v, other);
    }
  }

  /**
   * An "animation.k" path sends the selected layer's whole animation with k
   * replaced and every other field as it was, and leaves the style out.
   */
  lemma AnimationPathUpdate(state: SliderState, k: string, v: Value, other: string)
    requires SelectedLayer(state).Some?
    ensures var layer := SelectedLayer(state).value;
      var u := UpdateLayerProperty(state, "animation." + k, v).value.updates;
      u.animation.Some? && u.style.None? && u.id.None? && u.content.None?
      && (IsAnimationKey(k) && FitsAnimationKey(k, v) ==> AnimationGet(u.animation.value, k) == v)
      && (other != k ==> AnimationGet(u.animation.value, other) == AnimationGet(layer.animation, other))
  {
    StartsWithConcat("animation.", k);
    assert !StartsWith("animation." + k, "style.") by {
      assert ("animation." + k)[0] == 'a';
    }
    var layer := SelectedLayer(state).value;
    assert PropertyUpdates(layer, "animation." + k, v)
      == NoUpdates.(animation := Some(SetAnimationKey(layer.animation, k, v)));
    if IsAnimationKey(k) && FitsAnimationKey(k, v) {
      SetAnimationKeyReadBack(layer.animation, k, v);
    }
    SetAnimationKeyKeepsOthers(layer.animation, k, v, other);
  }

  /** The "content" path sends the new text and nothing else. */
  lemma ContentPathUpdate(state: SliderState, text: string)
    requires SelectedLayer(state).Some?
    ensures UpdateLayerProperty(state, "content", Str(text)).value.updates == NoUpdates.(content := Some(text))
  {
    assert !StartsWith("content", "style.") && !StartsWith("content", "animation.") by {
      assert "content"[..6][0] == 'c';
      assert "content"[..6] != "style.";
    }
  }

  // ------------------------------------------------------------ addLayer / deleteLayer

  /** The default layer `addLayer` builds; `shape` is the shape type the sidebar offers. */
  function NewLayer(kind: LayerType, id: string, zIndex: real, shape: ShapeType): (l: Layer)
  {
    var optional :=
      (if kind == Text then map["fontSize" := Num(24.0)]
       else if kind == Button then map["fontSize" := Num(16.0)] else map[])
      + map["fontWeight" := Str(if kind == Button then "bold" else "normal"),
            "color" := Str("#000000"),
            "borderRadius" := Num(if kind == Button then 5.0 else 0.0)]
      + (if kind == Button then map["backgroundColor" := Str("#0077ff")] else map[]);
    Layer(
      id, kind,
      match kind
      case Text => "New Text"
      case Button => "Button"
      case Shape => ShapeTypeName(shape)
      case Image => "",
      if kind == Shape then Some(shape) else None,
      Style(100.0, 100.0,
        if kind == Text then 200.0 else if kind == Button then 120.0 else 100.0,
        if kind == Text then 50.0 else if kind == Button then 40.0 else 100.0,
        1.0, 0.0, zIndex, optional),
      Animation("Fade In", "Fade Out", 600.0, 0.0, "ease-out"))
  }

  /** `addLayer`: nothing without a current slide; otherwise ADD_LAYER on it with zIndex = count + 1. */
  function AddLayerAction(state: SliderState, kind: LayerType, id: string, shape: ShapeType): Option<Action>
  {
    var slide := CurrentSlide(state);
    if slide.None? then None
    else Some(AddLayer(slide.value.id, NewLayer(kind, id, (|slide.value.layers| + 1) as real, shape)))
  }

  /** `deleteLayer`: nothing without a current slide; otherwise DELETE_LAYER on it. */
  function DeleteLayerAction(state: SliderState, layerId: string): Option<Action>
  {
    var slide := CurrentSlide(state);
    if slide.None? then None else Some(DeleteLayer(slide.value.id, layerId))
  }

  /**
   * The new layer sits at (100, 100) above every existing layer of the slide,
   * 200×50 for text, 120×40 for a button and 100×100 otherwise, fully opaque
   * and unrotated, with a 600 ms Fade In / Fade Out animation and no delay.
   * A shape layer names its shape type in both content and shapeType.
   */
  lemma AddLayerDefaults(state: SliderState, kind: LayerType, id: string, shape: ShapeType)
    ensures AddLayerAction(state, kind, id, shape).None? <==> CurrentSlide(state).None?
    ensures AddLayerAction(state, kind, id, shape).Some? ==>
      var slide := CurrentSlide(state).value;
      var a := AddLayerAction(state, kind, id, shape).value;
      a.AddLayer? && a.slideId == slide.id
      && var l := a.layer;
      l.id == id && l.kind == kind
      && l.style.x == 100.0 && l.style.y == 100.0
      && l.style.zIndex == (|slide.layers| + 1) as real
      && (forall j :: 0 <= j < |slide.layers| && slide.layers[j].style.zIndex <= |slide.layers| as real ==>
            slide.layers[j].style.zIndex < l.style.zIndex)
      && (kind == Text ==> l.style.width == 200.0 && l.style.height == 50.0)
      && (kind == Button ==> l.style.width == 120.0 && l.style.height == 40.0)
      && (kind == Image || kind == Shape ==> l.style.width == 100.0 && l.style.height == 100.0)
      && l.style.opacity == 1.0 && l.style.rotation == 0.0
      && l.animation == Animation("Fade In", "Fade Out", 600.0, 0.0, "ease-out")
      && (kind == Shape <==> l.shapeType.Some?)
      && (kind == Shape ==> l.shapeType == Some(shape) && l.content == ShapeTypeName(shape))
  {
  }

  /** Dispatching addLayer appends the default layer to the current slide and to no other slide. */
  lemma AddLayerAppendsToCurrentSlide(state: SliderState, kind: LayerType, id: string, shape: ShapeType)
    requires CurrentSlide(state).Some?
    ensures var a := AddLayerAction(state, kind, id, shape).value;
      var r := Reduce(state, a);
      var slides := state.project.value.slides;
      r.project.Some? && |r.project.value.slides| == |slides|
      && r.project.value.slides[state.currentSlideIndex].layers
         == slides[state.currentSlideIndex].layers + [a.layer]
      && forall i :: 0 <= i < |slides| && slides[i].id != slides[state.currentSlideIndex].id ==>
           r.project.value.slides[i] == slides[i]
  {
    var a := AddLayerAction(state, kind, id, shape).value;
    AddLayerTargetsOneSlide(state, a.slideId, a.layer);
  }

  /** deleteLayer is a no-op without a current slide and otherwise targets the current slide. */
  lemma DeleteLayerTargetsCurrentSlide(state: SliderState, layerId: string)
    ensures DeleteLayerAction(state, layerId).None? <==> CurrentSlide(state).None?
    ensures DeleteLayerAction(state, layerId).Some? ==>
      DeleteLayerAction(state, layerId).value == DeleteLayer(CurrentSlide(state).value.id, layerId)
  {
  }
}
