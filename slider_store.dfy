/**
 * The project store: the editor's single reducer over the project tree and
 * the UI fields (current slide, selected layer, playing flag, playhead time).
 * Every case copies on write; nothing is mutated.
 */
module SliderStore {
  import opened JsPrelude
  import opened SliderTypes

  datatype SliderState = SliderState(
    project: Option<Project>,
    currentSlideIndex: int,
    selectedLayerId: Option<string>,
    isPlaying: bool,
    currentTime: real)

  /** A `Partial<Layer>`: the top-level layer fields an update object carries. */
  datatype LayerUpdates = LayerUpdates(
    id: Option<string>,
    kind: Option<LayerType>,
    content: Option<string>,
    shapeType: Option<Option<ShapeType>>,
    style: Option<Style>,
    animation: Option<Animation>)

  const NoUpdates := LayerUpdates(None, None, None, None, None, None)

  datatype Action =
    | SetProject(project: Project)
    | AddSlide(slide: Slide)
    | DeleteSlide(slideId: string)
    | SetCurrentSlide(index: int)
    | AddLayer(slideId: string, layer: Layer)
    | UpdateLayer(slideId: string, layerId: string, updates: LayerUpdates)
    | DeleteLayer(slideId: string, layerId: string)
    | SelectLayer(selection: Option<string>)
    | SetPlaying(playing: bool)
    | SetCurrentTime(time: real)
    | UnknownAction(name: string)

  /** `{ ...layer, ...updates }`: every field the update carries wins. */
  function MergeLayer(layer: Layer, u: LayerUpdates): (r: Layer)
    ensures u == NoUpdates ==> r == layer
    ensures u.id.Some? ==> r.id == u.id.value
    ensures u.id.None? ==> r.id == layer.id
    ensures u.kind.Some? ==> r.kind == u.kind.value
    ensures u.kind.None? ==> r.kind == layer.kind
    ensures u.content.Some? ==> r.content == u.content.value
    ensures u.content.None? ==> r.content == layer.content
    ensures u.shapeType.Some? ==> r.shapeType == u.shapeType.value
    ensures u.shapeType.None? ==> r.shapeType == layer.shapeType
    ensures u.style.Some? ==> r.style == u.style.value
    ensures u.style.None? ==> r.style == layer.style
    ensures u.animation.Some? ==> r.animation == u.animation.value
    ensures u.animation.None? ==> r.animation == layer.animation
  {
    Layer(
      if u.id.Some? then u.id.value else layer.id,
      if u.kind.Some? then u.kind.value else layer.kind,
      if u.content.Some? then u.content.value else layer.content,
      if u.shapeType.Some? then u.shapeType.value else layer.shapeType,
      if u.style.Some? then u.style.value else layer.style,
      if u.animation.Some? then u.animation.value else layer.animation)
  }

  /** `layers.map(l => l.id === layerId ? {...l, ...updates} : l)`. */
  function UpdateLayers(layers: seq<Layer>, layerId: string, u: LayerUpdates): (r: seq<Layer>)
    ensures |r| == |layers|
    ensures forall i :: 0 <= i < |layers| ==>
      r[i] == if layers[i].id == layerId then MergeLayer(layers[i], u) else layers[i]
  {
    if layers == [] then []
    else
      var head := if layers[0].id == layerId then MergeLayer(layers[0], u) else layers[0];
      [head] + UpdateLayers(layers[1..], layerId, u)
  }

  /** `layers.filter(l => l.id !== layerId)`. */
  function RemoveLayers(layers: seq<Layer>, layerId: string): (r: seq<Layer>)
    ensures |r| <= |layers|
    ensures forall l :: l in r <==> l in layers && l.id != layerId
  {
    if layers == [] then []
    else if layers[0].id == layerId then RemoveLayers(layers[1..], layerId)
    else [layers[0]] + RemoveLayers(layers[1..], layerId)
  }

  /** `slides.filter(s => s.id !== slideId)`. */
  function RemoveSlides(slides: seq<Slide>, slideId: string): (r: seq<Slide>)
    ensures |r| <= |slides|
    ensures forall s :: s in r <==> s in slides && s.id != slideId
  {
    if slides == [] then []
    else if slides[0].id == slideId then RemoveSlides(slides[1..], slideId)
    else [slides[0]] + RemoveSlides(slides[1..], slideId)
  }

  /** The change one slide undergoes in the three layer actions. */
  datatype SlideEdit =
    | AppendLayer(layer: Layer)
    | MergeInto(layerId: string, updates: LayerUpdates)
    | RemoveLayer(layerId: string)

  function EditSlide(s: Slide, e: SlideEdit): Slide
  {
    match e
    case AppendLayer(l) => s.(layers := s.layers + [l])
    case MergeInto(id, u) => s.(layers := UpdateLayers(s.layers, id, u))
    case RemoveLayer(id) => s.(layers := RemoveLayers(s.layers, id))
  }

  /** `slides.map(s => s.id === slideId ? edit(s) : s)`. */
  function EditSlides(slides: seq<Slide>, slideId: string, e: SlideEdit): (r: seq<Slide>)
    ensures |r| == |slides|
    ensures forall i :: 0 <= i < |slides| ==>
      r[i] == if slides[i].id == slideId then EditSlide(slides[i], e) else slides[i]
  {
    if slides == [] then []
    else
      var head := if slides[0].id == slideId then EditSlide(slides[0], e) else slides[0];
      [head] + EditSlides(slides[1..], slideId, e)
  }

  /** Applies a slide-list change when a project is loaded; otherwise the state is returned as is. */
  function WithSlides(state: SliderState, f: seq<Slide> -> seq<Slide>): SliderState
  {
    if state.project.None? then state
    else state.(project := Some(state.project.value.(slides := f(state.project.value.slides))))
  }

  /** The reducer. */
  function Reduce(state: SliderState, action: Action): SliderState
  {
    match action
    case SetProject(p) => state.(project := Some(p))
    case AddSlide(s) => WithSlides(state, slides => slides + [s])
    case DeleteSlide(id) => WithSlides(state, slides => RemoveSlides(slides, id))
    case SetCurrentSlide(i) => state.(currentSlideIndex := i)
    case AddLayer(sid, l) => WithSlides(state, slides => EditSlides(slides, sid, AppendLayer(l)))
    case UpdateLayer(sid, lid, u) => WithSlides(state, slides => EditSlides(slides, sid, MergeInto(lid, u)))
    case DeleteLayer(sid, lid) => WithSlides(state, slides => EditSlides(slides, sid, RemoveLayer(lid)))
    case SelectLayer(id) => state.(selectedLayerId := id)
    case SetPlaying(b) => state.(isPlaying := b)
    case SetCurrentTime(t) => state.(currentTime := t)
    case UnknownAction(_) => state
  }

  /** Several dispatches in a row. */
  function ReduceAll(state: SliderState, actions: seq<Action>): SliderState
    decreases |actions|
  {
    if actions == [] then state else ReduceAll(Reduce(state, actions[0]), actions[1..])
  }

  lemma {:induction false} ReduceAllAppend(state: SliderState, a: seq<Action>, b: seq<Action>)
    ensures ReduceAll(state, a + b) == ReduceAll(ReduceAll(state, a), b)
    decreases |a|
  {
    if a != [] {
      assert (a + b)[0] == a[0] && (a + b)[1..] == a[1..] + b;
      ReduceAllAppend(Reduce(state, a[0]), a[1..], b);
    } else {
      assert a + b == b;
    }
  }

  /**
   * The store as components see it: `dispatch` replaces the state with the
   * reducer's result. Handlers read the state of their render and dispatch.
   */
  class Store {
    var state: SliderState

    constructor (initial: SliderState)
      ensures state == initial
    {
      state := initial;
    }

    method Dispatch(action: Action)
      modifies this
      ensures state == Reduce(old(state), action)
    {
      state := Reduce(state, action);
    }

    /** Dispatches the actions in order. */
    method DispatchAll(actions: seq<Action>)
      modifies this
      ensures state == ReduceAll(old(state), actions)
    {
      var i := 0;
      while i < |actions|
        invariant 0 <= i <= |actions|
        invariant ReduceAll(old(state), actions) == ReduceAll(state, actions[i..])
      {
        assert actions[i..][1..] == actions[i + 1..];
        Dispatch(actions[i]);
        i := i + 1;
      }
    }
  }

  lemma ReduceAllOne(state: SliderState, a: Action)
    ensures ReduceAll(state, [a]) == Reduce(state, a)
  {
    assert [a][1..] == [];
  }

  lemma ReduceAllTwo(state: SliderState, a: Action, b: Action)
    ensures ReduceAll(state, [a, b]) == Reduce(Reduce(state, a), b)
  {
    assert [a, b][1..] == [b];
    ReduceAllOne(Reduce(state, a), b);
  }

  /** An update object carrying only a style. */
  function StyleOnly(s: Style): LayerUpdates
  {
    NoUpdates.(style := Some(s))
  }

  /** One style-only UPDATE_LAYER of one layer per style, in order. */
  function StyleUpdates(slideId: string, layerId: string, styles: seq<Style>): (r: seq<Action>)
    ensures |r| == |styles|
  {
    seq(|styles|, i requires 0 <= i < |styles| => UpdateLayer(slideId, layerId, StyleOnly(styles[i])))
  }

  /**
   * Of two style-only updates of the same layer the second replaces the whole
   * style, so the first leaves no trace.
   */
  lemma LaterStyleWins(state: SliderState, slideId: string, layerId: string, a: Style, b: Style)
    ensures Reduce(Reduce(state, UpdateLayer(slideId, layerId, StyleOnly(a))), UpdateLayer(slideId, layerId, StyleOnly(b)))
         == Reduce(state, UpdateLayer(slideId, layerId, StyleOnly(b)))
  {
    if state.project.Some? {
      var slides := state.project.value.slides;
      var once := EditSlides(slides, slideId, MergeInto(layerId, StyleOnly(a)));
      var twice := EditSlides(once, slideId, MergeInto(layerId, StyleOnly(b)));
      var direct := EditSlides(slides, slideId, MergeInto(layerId, StyleOnly(b)));
      forall i | 0 <= i < |slides| ensures twice[i] == direct[i] {
        if slides[i].id == slideId {
          var ls := slides[i].layers;
          var l1 := UpdateLayers(ls, layerId, StyleOnly(a));
          var l2 := UpdateLayers(l1, layerId, StyleOnly(b));
          var l3 := UpdateLayers(ls, layerId, StyleOnly(b));
          forall j | 0 <= j < |ls| ensures l2[j] == l3[j] { }
          assert l2 == l3;
        }
      }
      assert twice == direct;
    }
  }

  /** A run of style-only updates of one layer lands as its last update alone. */
  lemma {:induction false} StyleWritesCollapse(state: SliderState, slideId: string, layerId: string, styles: seq<Style>)
    requires |styles| > 0
    ensures ReduceAll(state, StyleUpdates(slideId, layerId, styles))
         == Reduce(state, UpdateLayer(slideId, layerId, StyleOnly(styles[|styles| - 1])))
    decreases |styles|
  {
    var xs := StyleUpdates(slideId, layerId, styles);
    if |styles| == 1 {
      assert xs == [UpdateLayer(slideId, layerId, StyleOnly(styles[0]))];
      ReduceAllOne(state, xs[0]);
    } else {
      var next := Reduce(state, xs[0]);
      assert xs[1..] == StyleUpdates(slideId, layerId, styles[1..]);
      StyleWritesCollapse(next, slideId, layerId, styles[1..]);
      LaterStyleWins(state, slideId, layerId, styles[0], styles[|styles| - 1]);
    }
  }

  /** The UI fields a project edit never touches. */
  predicate SameUi(s: SliderState, t: SliderState)
  {
    s.currentSlideIndex == t.currentSlideIndex && s.selectedLayerId == t.selectedLayerId
    && s.isPlaying == t.isPlaying && s.currentTime == t.currentTime
  }

  /** The project fields a slide-list edit never touches. */
  predicate SameProjectHeader(p: Project, q: Project)
  {
    p.id == q.id && p.name == q.name && p.settings == q.settings
  }

  // ------------------------------------------------------------ the store's promises

  /** With no project loaded every project action leaves the state exactly as it was. */
  lemma ProjectActionsNeedProject(state: SliderState, action: Action)
    requires state.project.None?
    requires action.AddSlide? || action.DeleteSlide? || action.AddLayer?
      || action.UpdateLayer? || action.DeleteLayer?
    ensures Reduce(state, action) == state
  {
  }

  /** ADD_SLIDE appends the payload as the last slide and keeps every other slide. */
  lemma AddSlideAppends(state: SliderState, slide: Slide)
    requires state.project.Some?
    ensures var r := Reduce(state, AddSlide(slide));
      var before := state.project.value.slides;
      r.project.Some? && SameUi(r, state) && SameProjectHeader(r.project.value, state.project.value)
      && |r.project.value.slides| == |before| + 1
      && r.project.value.slides[|before|] == slide
      && forall i :: 0 <= i < |before| ==> r.project.value.slides[i] == before[i]
  {
  }

  /** DELETE_SLIDE removes every slide with that id and nothing else; it does not repair the index. */
  lemma DeleteSlideFilters(state: SliderState, slideId: string)
    requires state.project.Some?
    ensures var r := Reduce(state, DeleteSlide(slideId));
      r.project.Some? && SameUi(r, state) && SameProjectHeader(r.project.value, state.project.value)
      && r.currentSlideIndex == state.currentSlideIndex
      && (forall s :: s in r.project.value.slides <==> s in state.project.value.slides && s.id != slideId)
  {
  }

  /** ADD_LAYER appends to the slide with the matching id only. */
  lemma AddLayerTargetsOneSlide(state: SliderState, slideId: string, layer: Layer)
    requires state.project.Some?
    ensures var r := Reduce(state, AddLayer(slideId, layer));
      var before := state.project.value.slides;
      r.project.Some? && SameUi(r, state) && SameProjectHeader(r.project.value, state.project.value)
      && |r.project.value.slides| == |before|
      && forall i :: 0 <= i < |before| ==>
           var s, t := before[i], r.project.value.slides[i];
           if s.id == slideId then t.layers == s.layers + [layer] && t.(layers := s.layers) == s
           else t == s
  {
  }

  /** An ADD_LAYER, UPDATE_LAYER or DELETE_LAYER naming no existing slide changes nothing. */
  lemma {:induction false} UnknownSlideChangesNothing(slides: seq<Slide>, slideId: string, e: SlideEdit)
    requires forall i :: 0 <= i < |slides| ==> slides[i].id != slideId
    ensures EditSlides(slides, slideId, e) == slides
  {
    if slides != [] {
      UnknownSlideChangesNothing(slides[1..], slideId, e);
    }
  }

  /** The layer ids of a list, in order. */
  function LayerIds(layers: seq<Layer>): (ids: seq<string>)
    ensures |ids| == |layers|
    ensures forall i :: 0 <= i < |layers| ==> ids[i] == layers[i].id
  {
    if layers == [] then [] else [layers[0].id] + LayerIds(layers[1..])
  }

  /**
   * UPDATE_LAYER shallow-merges the update into the matching layer of the
   * matching slide: a carried style replaces the whole style, every other layer
   * and slide is unchanged, and layer order and ids stay as they were unless
   * the update itself carries an id.
   */
  lemma UpdateLayerIsShallowAndLocal(state: SliderState, slideId: string, layerId: string, u: LayerUpdates)
    requires state.project.Some?
    ensures var r := Reduce(state, UpdateLayer(slideId, layerId, u));
      var before := state.project.value.slides;
      r.project.Some? && SameUi(r, state) && SameProjectHeader(r.project.value, state.project.value)
      && |r.project.value.slides| == |before|
      && forall i :: 0 <= i < |before| ==>
           var s, t := before[i], r.project.value.slides[i];
           if s.id != slideId then t == s
           else
             t.(layers := s.layers) == s && |t.layers| == |s.layers|
             && (u.id.None? ==> LayerIds(t.layers) == LayerIds(s.layers))
             && forall j :: 0 <= j < |s.layers| ==>
                  if s.layers[j].id != layerId then t.layers[j] == s.layers[j]
                  else
                    (u.style.Some? ==> t.layers[j].style == u.style.value)
                    && (u.style.None? ==> t.layers[j].style == s.layers[j].style)
                    && (u.animation.None? ==> t.layers[j].animation == s.layers[j].animation)
  {
    var before := state.project.value.slides;
    var r := Reduce(state, UpdateLayer(slideId, layerId, u));
    forall i | 0 <= i < |before| && before[i].id == slideId && u.id.None?
      ensures LayerIds(r.project.value.slides[i].layers) == LayerIds(before[i].layers)
    {
      var a, b := LayerIds(r.project.value.slides[i].layers), LayerIds(before[i].layers);
      assert |a| == |b|;
      forall j | 0 <= j < |a| ensures a[j] == b[j] { }
    }
  }

  /** `filter` distributes over concatenation: the remaining layers keep their order. */
  lemma {:induction false} RemoveLayersConcat(a: seq<Layer>, b: seq<Layer>, layerId: string)
    ensures RemoveLayers(a + b, layerId) == RemoveLayers(a, layerId) + RemoveLayers(b, layerId)
  {
    if a != [] {
      assert (a + b)[0] == a[0] && (a + b)[1..] == a[1..] + b;
      RemoveLayersConcat(a[1..], b, layerId);
    } else {
      assert a + b == b;
    }
  }

  /** DELETE_LAYER of an id no layer carries keeps the list as it is. */
  lemma {:induction false} RemoveAbsentLayer(layers: seq<Layer>, layerId: string)
    requires forall i :: 0 <= i < |layers| ==> layers[i].id != layerId
    ensures RemoveLayers(layers, layerId) == layers
  {
    if layers != [] {
      RemoveAbsentLayer(layers[1..], layerId);
    }
  }

  /** DELETE_LAYER removes every layer with the id from the matching slide only. */
  lemma DeleteLayerTargetsOneSlide(state: SliderState, slideId: string, layerId: string)
    requires state.project.Some?
    ensures var r := Reduce(state, DeleteLayer(slideId, layerId));
      var before := state.project.value.slides;
      r.project.Some? && SameUi(r, state) && SameProjectHeader(r.project.value, state.project.value)
      && |r.project.value.slides| == |before|
      && forall i :: 0 <= i < |before| ==>
           var s, t := before[i], r.project.value.slides[i];
           if s.id != slideId then t == s
           else (t.(layers := s.layers) == s
                 && forall l :: l in t.layers <==> l in s.layers && l.id != layerId)
  {
  }

  /**
   * SET_CURRENT_SLIDE, SELECT_LAYER, SET_PLAYING and SET_CURRENT_TIME each set
   * one UI field to the payload, unclamped, and keep everything else.
   */
  lemma UiSettersSetOneField(state: SliderState, i: int, id: Option<string>, b: bool, t: real)
    ensures Reduce(state, SetCurrentSlide(i)) == state.(currentSlideIndex := i)
    ensures Reduce(state, SelectLayer(id)) == state.(selectedLayerId := id)
    ensures Reduce(state, SetPlaying(b)) == state.(isPlaying := b)
    ensures Reduce(state, SetCurrentTime(t)) == state.(currentTime := t)
  {
  }

  /** SET_PROJECT replaces only the project; an unrecognised action changes nothing. */
  lemma SetProjectAndDefault(state: SliderState, p: Project, name: string)
    ensures Reduce(state, SetProject(p)).project == Some(p)
    ensures SameUi(Reduce(state, SetProject(p)), state)
    ensures Reduce(state, UnknownAction(name)) == state
  {
  }

  // ------------------------------------------------------------ the initial document

  const InitialProject: Project :=
    Project("1", "My Slider",
      [
        Slide("1", "Slide 1", Background(GradientBackground, "linear-gradient(135deg, #8300e9 0%, #0077ff 100%)"),
          [
            Layer("1", Text, "Welcome to Slider Revolution", None,
              Style(50.0, 200.0, 500.0, 80.0, 1.0, 0.0, 1.0,
                map["fontSize" := Num(48.0), "fontWeight" := Str("bold"), "color" := Str("#ffffff")]),
              Animation("Slide In Left", "Fade Out", 800.0, 0.0, "ease-out")),
            Layer("2", Text, "Create stunning presentations with ease", None,
              Style(50.0, 300.0, 600.0, 40.0, 1.0, 0.0, 2.0,
                map["fontSize" := Num(24.0), "fontWeight" := Str("normal"), "color" := Str("#e0e0e0")]),
              Animation("Slide In Left", "Fade Out", 800.0, 200.0, "ease-out")),
            Layer("3", Button, "Get Started", None,
              Style(50.0, 380.0, 150.0, 50.0, 1.0, 0.0, 3.0,
                map["fontSize" := Num(16.0), "fontWeight" := Str("bold"), "color" := Str("#ffffff"),
                    "backgroundColor" := Str("#0077ff"), "borderRadius" := Num(25.0)]),
              Animation("Scale In", "Scale Out", 600.0, 400.0, "ease-out"))
          ],
          5000.0)
      ],
      Settings(true, true, true, true, "slide", 800.0))

  const InitialState: SliderState := SliderState(Some(InitialProject), 0, None, false, 0.0)

  /** The store starts on the one sample slide, stopped at time 0 with nothing selected. */
  lemma InitialStateShape()
    ensures InitialState.project.Some? && |InitialState.project.value.slides| == 1
    ensures SlideAt(InitialState.project, InitialState.currentSlideIndex).Some?
    ensures |InitialProject.slides[0].layers| == 3 && InitialProject.slides[0].duration == 5000.0
    ensures LayerIds(InitialProject.slides[0].layers) == ["1", "2", "3"]
    ensures InitialState.selectedLayerId.None? && !InitialState.isPlaying && InitialState.currentTime == 0.0
  {
  }
}
