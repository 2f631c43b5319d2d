/**
 * The editor's document model: a project holds slides, a slide holds layers,
 * and a layer carries a style (geometry plus optional typography and colour
 * properties) and an entrance/exit animation.
 */
module SliderTypes {
  import opened JsPrelude

  /**
   * A JavaScript value stored under one of the optional style properties,
   * including the nested option objects (underline, strikethrough, shadow).
   */
  datatype Value =
    | Undefined
    | Null
    | Num(n: real)
    | Str(s: string)
    | Bool(b: bool)
    | Obj(fields: map<string, Value>)

  /** JavaScript truthiness (NaN is not modelled). */
  predicate Truthy(v: Value)
  {
    match v
    case Undefined => false
    case Null => false
    case Num(n) => n != 0.0
    case Str(s) => s != ""
    case Bool(b) => b
    case Obj(_) => true
  }

  /** `obj[key]` on a plain object: a missing key reads as undefined. */
  function Get(m: map<string, Value>, key: string): Value
  {
    if key in m then m[key] else Undefined
  }

  datatype LayerType = Text | Image | Button | Shape
  datatype ShapeType = Rectangle | Circle | Triangle | Star

  function LayerTypeName(t: LayerType): string
  {
    match t
    case Text => "text"
    case Image => "image"
    case Button => "button"
    case Shape => "shape"
  }

  function ShapeTypeName(t: ShapeType): string
  {
    match t
    case Rectangle => "rectangle"
    case Circle => "circle"
    case Triangle => "triangle"
    case Star => "star"
  }

  /** The names of the seven required numeric style properties. */
  predicate IsGeometryKey(key: string)
  {
    key == "x" || key == "y" || key == "width" || key == "height"
    || key == "opacity" || key == "rotation" || key == "zIndex"
  }

  /**
   * A layer's style. The required numeric properties are fields; every
   * optional property (fontSize, fontWeight, color, backgroundColor,
   * borderRadius, the character-panel settings, ...) lives in `optional`.
   */
  datatype Style = Style(
    x: real, y: real, width: real, height: real,
    opacity: real, rotation: real, zIndex: real,
    optional: map<string, Value>)

  /** `style[key]` for any property name. */
  function StyleGet(s: Style, key: string): (v: Value)
    ensures IsGeometryKey(key) ==> v.Num?
    ensures !IsGeometryKey(key) ==> v == Get(s.optional, key)
  {
    match key
    case "x" => Num(s.x)
    case "y" => Num(s.y)
    case "width" => Num(s.width)
    case "height" => Num(s.height)
    case "opacity" => Num(s.opacity)
    case "rotation" => Num(s.rotation)
    case "zIndex" => Num(s.zIndex)
    case _ => Get(s.optional, key)
  }

  datatype Animation = Animation(
    entrance: string, exit: string, duration: real, delay: real, easing: string)

  datatype Layer = Layer(
    id: string, kind: LayerType, content: string, shapeType: Option<ShapeType>,
    style: Style, animation: Animation)

  datatype BackgroundType = ColorBackground | ImageBackground | GradientBackground
  datatype Background = Background(kind: BackgroundType, value: string)

  datatype Slide = Slide(
    id: string, name: string, background: Background, layers: seq<Layer>, duration: real)

  datatype Settings = Settings(
    autoplay: bool, loop: bool, navigation: bool, pagination: bool,
    transitionType: string, transitionDuration: real)

  datatype Project = Project(id: string, name: string, slides: seq<Slide>, settings: Settings)

  datatype AnimationKind = Entrance | Exit

  datatype AnimationPreset = AnimationPreset(
    name: string, kind: AnimationKind, keyframes: string, duration: int, easing: string)

  /** `layers.find(l => l.id === id)`: the first layer with that id. */
  function FindLayer(layers: seq<Layer>, id: string): (r: Option<Layer>)
    ensures r.None? <==> forall i :: 0 <= i < |layers| ==> layers[i].id != id
    ensures r.Some? ==> r.value in layers && r.value.id == id
    ensures r.Some? ==>
      exists i :: 0 <= i < |layers| && layers[i] == r.value && forall j :: 0 <= j < i ==> layers[j].id != id
  {
    if layers == [] then None
    else if layers[0].id == id then Some(layers[0])
    else FindLayer(layers[1..], id)
  }

  /** `project?.slides[index]`: the slide at an index, if any. */
  function SlideAt(project: Option<Project>, index: int): (r: Option<Slide>)
    ensures r.Some? <==> project.Some? && 0 <= index < |project.value.slides|
    ensures r.Some? ==> r.value == project.value.slides[index]
  {
    if project.Some? && 0 <= index < |project.value.slides|
    then Some(project.value.slides[index]) else None
  }
}
