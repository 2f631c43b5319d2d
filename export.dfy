/**
 * The HTML export: a stand-alone page made of a style sheet, the slide
 * markup and a small player script. Every template string is laid out as
 * its pieces in order, so that what the page contains can be read off the
 * pieces. Numbers are printed by a caller-supplied `num`; JavaScript's
 * number-to-string conversion is not modelled.
 */
module SliderExport {
  import opened JsPrelude
  import opened SliderTypes
  import opened CanvasAnimations

  datatype ExportFormat = HtmlFormat | JsonFormat | CssFormat | VideoFormat

  datatype ExportOptions = ExportOptions(
    format: ExportFormat, includeAnimations: bool, includeStyles: bool, autoplay: bool, loop: bool)

  /** `${b}` for a boolean. */
  function BoolText(b: bool): string
  {
    if b then "true" else "false"
  }

  // ------------------------------------------------------------ generateAnimationCSS

  /** The seven `@keyframes` rules, up to the first animation class. */
  const AnimationKeyframes: string := "\n@keyframes fadeIn {\n    from { opacity: 0; }\n    to { opacity: 1; }\n}\n\n@keyframes slideInLeft {\n    from { opacity: 0; transform: translateX(-100px); }\n    to { opacity: 1; transform: translateX(0); }\n}\n\n@keyframes slideInRight {\n    from { opacity: 0; transform: translateX(100px); }\n    to { opacity: 1; transform: translateX(0); }\n}\n\n@keyframes slideInUp {\n    from { opacity: 0; transform: translateY(50px); }\n    to { opacity: 1; transform: translateY(0); }\n}\n\n@keyframes slideInDown {\n    from { opacity: 0; transform: translateY(-50px); }\n    to { opacity: 1; transform: translateY(0); }\n}\n\n@keyframes scaleIn {\n    from { opacity: 0; transform: scale(0.8); }\n    to { opacity: 1; transform: scale(1); }\n}\n\n@keyframes bounceIn {\n    0% { opacity: 0; transform: scale3d(0.3, 0.3, 0.3); }\n    20% { transform: scale3d(1.1, 1.1, 1.1); }\n    40% { transform: scale3d(0.9, 0.9, 0.9); }\n    60% { opacity: 1; transform: scale3d(1.03, 1.03, 1.03); }\n    80% { transform: scale3d(0.97, 0.97, 0.97); }\n    100% { opacity: 1; transform: scale3d(1, 1, 1); }\n}\n\n"

  /** The rest of the animation classes after `.fade-in {`. */
  const AnimationClasses: string := " animation: fadeIn 0.6s ease-out forwards; }\n.slide-in-left { animation: slideInLeft 0.8s ease-out forwards; }\n.slide-in-right { animation: slideInRight 0.8s ease-out forwards; }\n.slide-in-up { animation: slideInUp 0.8s ease-out forwards; }\n.slide-in-down { animation: slideInDown 0.8s ease-out forwards; }\n.scale-in { animation: scaleIn 0.6s ease-out forwards; }\n.bounce-in { animation: bounceIn 1s ease-out forwards; }\n    "

  function AnimationCssPieces(): seq<string>
  {
    [AnimationKeyframes, ".fade-in {", AnimationClasses]
  }

  /** `generateAnimationCSS`: a fixed text. */
  function GenerateAnimationCss(): string
  {
    Concat(AnimationCssPieces())
  }

  // ------------------------------------------------------------ generateCSS

  const CssOpening: string := "\n/* Slider Revolution Export */\n"

  /** The container, slide, layer, navigation and pagination rules after `.slider-container`. */
  const CssRules: string := " {\n    position: relative;\n    width: 100%;\n    max-width: 1200px;\n    height: 600px;\n    margin: 0 auto;\n    overflow: hidden;\n    background: #000;\n    border-radius: 8px;\n    box-shadow: 0 10px 30px rgba(0,0,0,0.3);\n}\n\n.slide {\n    position: absolute;\n    top: 0;\n    left: 0;\n    width: 100%;\n    height: 100%;\n    opacity: 0;\n    transition: opacity 0.8s ease-in-out;\n}\n\n.slide.active {\n    opacity: 1;\n}\n\n.layer {\n    position: absolute;\n    transition: all 0.3s ease;\n}\n\n.navigation {\n    position: absolute;\n    top: 50%;\n    transform: translateY(-50%);\n    background: rgba(255,255,255,0.8);\n    border: none;\n    border-radius: 50%;\n    width: 50px;\n    height: 50px;\n    cursor: pointer;\n    font-size: 18px;\n    transition: all 0.3s ease;\n    z-index: 100;\n}\n\n.navigation:hover {\n    background: rgba(255,255,255,1);\n    transform: translateY(-50%) scale(1.1);\n}\n\n.nav-prev {\n    left: 20px;\n}\n\n.nav-next {\n    right: 20px;\n}\n\n.pagination {\n    position: absolute;\n    bottom: 20px;\n    left: 50%;\n    transform: translateX(-50%);\n    display: flex;\n    gap: 10px;\n    z-index: 100;\n}\n\n.pagination-dot {\n    width: 12px;\n    height: 12px;\n    border-radius: 50%;\n    background: rgba(255,255,255,0.5);\n    cursor: pointer;\n    transition: all 0.3s ease;\n}\n\n.pagination-dot.active,\n.pagination-dot:hover {\n    background: rgba(255,255,255,1);\n    transform: scale(1.2);\n}\n\n/* Animation Classes */\n"

  /** The responsive rules that close the sheet. */
  const CssResponsive: string := "\n\n/* Responsive Design */\n@media (max-width: 768px) {\n    .slider-container {\n        height: 400px;\n    }\n    \n    .layer {\n        font-size: 0.8em !important;\n    }\n    \n    .navigation {\n        width: 40px;\n        height: 40px;\n        font-size: 14px;\n    }\n}\n    "

  /** `${options.includeAnimations ? this.generateAnimationCSS() : ''}`. */
  function AnimationBlock(options: ExportOptions): string
  {
    if options.includeAnimations then GenerateAnimationCss() else ""
  }

  function CssPieces(options: ExportOptions): seq<string>
  {
    [CssOpening, ".slider-container", CssRules, AnimationBlock(options), CssResponsive]
  }

  /** `generateCSS`: the project is not consulted. */
  function GenerateCss(project: Project, options: ExportOptions): string
  {
    Concat(CssPieces(options))
  }

  /**
   * The sheet always holds the container rule. With animations included it
   * holds the whole animation block, `.fade-in {` among it; without them it
   * is shorter by exactly that block. Nothing else about the project or the
   * options changes the sheet.
   */
  lemma CssAnimationsIffIncluded(project: Project, options: ExportOptions, other: Project, otherOptions: ExportOptions)
    ensures Contains(GenerateCss(project, options), ".slider-container")
    ensures options.includeAnimations ==>
      Contains(GenerateCss(project, options), GenerateAnimationCss())
      && Contains(GenerateCss(project, options), ".fade-in {")
    ensures !options.includeAnimations ==>
      |GenerateCss(project, options)| + |GenerateAnimationCss()|
        == |GenerateCss(project, options.(includeAnimations := true))|
    ensures otherOptions.includeAnimations == options.includeAnimations ==>
      GenerateCss(other, otherOptions) == GenerateCss(project, options)
  {
    var pieces := CssPieces(options);
    ContainsWholePiece(pieces, 1);
    if options.includeAnimations {
      ContainsWholePiece(pieces, 3);
      ContainsWholePiece(AnimationCssPieces(), 1);
      ContainsTrans(GenerateCss(project, options), GenerateAnimationCss(), ".fade-in {");
    } else {
      var on := CssPieces(options.(includeAnimations := true));
      assert pieces == on[3 := ""];
      ConcatUpdateLength(on, 3, "");
    }
  }

  // ------------------------------------------------------------ generateJavaScript

  /** The player class from its opening brace to the autoplay field. */
  const ScriptOpening: string := " {\n    constructor(container) {\n        this.container = container;\n        this.slides = Array.from(container.querySelectorAll(\'.slide\'));\n        this.currentSlide = 0;\n        "

  const ScriptAutoplayToLoop: string := ";\n        "

  /** The player's methods from the timer field to the autoplay interval. */
  const ScriptBody: string := ";\n        this.autoplayTimer = null;\n        \n        this.init();\n    }\n    \n    init() {\n        this.setupNavigation();\n        this.setupPagination();\n        this.showSlide(0);\n        \n        if (this.autoplay) {\n            this.startAutoplay();\n        }\n    }\n    \n    setupNavigation() {\n        const prevBtn = this.container.querySelector(\'.nav-prev\');\n        const nextBtn = this.container.querySelector(\'.nav-next\');\n        \n        if (prevBtn) prevBtn.addEventListener(\'click\', () => this.prevSlide());\n        if (nextBtn) nextBtn.addEventListener(\'click\', () => this.nextSlide());\n    }\n    \n    setupPagination() {\n        const dots = Array.from(this.container.querySelectorAll(\'.pagination-dot\'));\n        dots.forEach((dot, index) => {\n            dot.addEventListener(\'click\', () => this.goToSlide(index));\n        });\n    }\n    \n    showSlide(index) {\n        this.slides.forEach(slide => slide.classList.remove(\'active\'));\n        \n        const dots = Array.from(this.container.querySelectorAll(\'.pagination-dot\'));\n        dots.forEach(dot => dot.classList.remove(\'active\'));\n        \n        if (this.slides[index]) {\n            this.slides[index].classList.add(\'active\');\n            if (dots[index]) dots[index].classList.add(\'active\');\n            \n            // Trigger animations\n            this.animateSlide(this.slides[index]);\n        }\n        \n        this.currentSlide = index;\n    }\n    \n    animateSlide(slide) {\n        const layers = Array.from(slide.querySelectorAll(\'.layer\'));\n        layers.forEach((layer, index) => {\n            const animationClass = layer.dataset.animation || \'fade-in\';\n            const delay = parseInt(layer.dataset.delay || \'0\') + (index * 200);\n            \n            setTimeout(() => {\n                layer.classList.add(animationClass);\n            }, delay);\n        });\n    }\n    \n    nextSlide() {\n        let next = this.currentSlide + 1;\n        if (next >= this.slides.length) {\n            next = this.loop ? 0 : this.slides.length - 1;\n        }\n        this.goToSlide(next);\n    }\n    \n    prevSlide() {\n        let prev = this.currentSlide - 1;\n        if (prev < 0) {\n            prev = this.loop ? this.slides.length - 1 : 0;\n        }\n        this.goToSlide(prev);\n    }\n    \n    goToSlide(index) {\n        if (index !== this.currentSlide) {\n            this.showSlide(index);\n            \n            if (this.autoplay) {\n                this.stopAutoplay();\n                this.startAutoplay();\n            }\n        }\n    }\n    \n    startAutoplay() {\n        this.autoplayTimer = setInterval(() => {\n            this.nextSlide();\n        "

  /** The end of the player class and the start-up listener. */
  const ScriptClosing: string := ";\n    }\n    \n    stopAutoplay() {\n        if (this.autoplayTimer) {\n            clearInterval(this.autoplayTimer);\n            this.autoplayTimer = null;\n        }\n    }\n}\n\n// Initialize slider when DOM is loaded\ndocument.addEventListener(\'DOMContentLoaded\', () => {\n    const sliderContainer = document.querySelector(\'.slider-container\');\n    if (sliderContainer) {\n        new SliderRevolution(sliderContainer);\n    }\n});\n    "

  function JsPieces(project: Project, options: ExportOptions, num: real -> string): seq<string>
  {
    ["\n", "class SliderRevolution", ScriptOpening,
     "this.autoplay = " + BoolText(options.autoplay), ScriptAutoplayToLoop,
     "this.loop = " + BoolText(options.loop), ScriptBody,
     "}, " + num(project.settings.transitionDuration + 3000.0) + ")", ScriptClosing]
  }

  /** `generateJavaScript`. */
  function GenerateJavaScript(project: Project, options: ExportOptions, num: real -> string): string
  {
    Concat(JsPieces(project, options, num))
  }

  /**
   * The script defines the player class, takes its autoplay and loop flags
   * from the export options (not from the project's own settings), and
   * advances every transition duration plus 3000 ms. The transition duration
   * is the only part of the project it reads.
   */
  lemma ScriptEmbedsSettings(project: Project, options: ExportOptions, num: real -> string, other: Project)
    ensures var js := GenerateJavaScript(project, options, num);
      Contains(js, "class SliderRevolution")
      && Contains(js, "this.autoplay = " + BoolText(options.autoplay))
      && Contains(js, "this.loop = " + BoolText(options.loop))
      && Contains(js, "}, " + num(project.settings.transitionDuration + 3000.0) + ")")
    ensures other.settings.transitionDuration == project.settings.transitionDuration ==>
      GenerateJavaScript(other, options, num) == GenerateJavaScript(project, options, num)
  {
    var pieces := JsPieces(project, options, num);
    ContainsWholePiece(pieces, 1);
    ContainsWholePiece(pieces, 3);
    ContainsWholePiece(pieces, 5);
    ContainsWholePiece(pieces, 7);
  }

  /** With autoplay on and loop off the script reads "this.autoplay = true" and "this.loop = false". */
  lemma ScriptFlagsExample(project: Project, options: ExportOptions, num: real -> string)
    requires options.autoplay && !options.loop
    ensures Contains(GenerateJavaScript(project, options, num), "this.autoplay = true")
    ensures Contains(GenerateJavaScript(project, options, num), "this.loop = false")
  {
    ScriptEmbedsSettings(project, options, num, project);
    assert "this.autoplay = " + BoolText(options.autoplay) == "this.autoplay = true";
    assert "this.loop = " + BoolText(options.loop) == "this.loop = false";
  }

  // ------------------------------------------------------------ generateHTML

  /** `${v}` for a style value. */
  function ValueText(v: Value, num: real -> string): string
  {
    match v
    case Undefined => "undefined"
    case Null => "null"
    case Num(n) => num(n)
    case Str(s) => s
    case Bool(b) => BoolText(b)
    case Obj(_) => "[object Object]"
  }

  /**
   * `prefix${v || fallback}suffix`: the value printed between `prefix` and
   * `suffix`, or, when it is falsy, `whenFalsy`, the declaration with the
   * fallback written in.
   */
  function Declaration(v: Value, prefix: string, suffix: string, whenFalsy: string, num: real -> string): string
  {
    if Truthy(v) then prefix + ValueText(v, num) + suffix else whenFalsy
  }

  const ImageAttributes: string := " alt=\"Layer Image\" style=\"width: 100%; height: 100%; object-fit: cover;\">"

  /** An image layer becomes an `<img>`; any other layer's content is inlined as it is. */
  function LayerBody(layer: Layer): string
  {
    if layer.kind == Image then "<img src=\"" + layer.content + "\"" + ImageAttributes else layer.content
  }

  const Indent: string := "\n                 "

  /** The opening tag with the animation attributes. */
  function LayerOpenPieces(layer: Layer, num: real -> string): seq<string>
  {
    ["\n        <div class=\"layer\" \n             ",
     "data-animation=\"" + AnimationClassName(layer.animation.entrance) + "\"", " \n             ",
     "data-delay=\"" + num(layer.animation.delay) + "\"", "\n             style=\"\n                 "]
  }

  /** The placement declarations. */
  function LayerPlacePieces(st: Style, num: real -> string): seq<string>
  {
    ["left: " + num(st.x) + "px;", Indent,
     "top: " + num(st.y) + "px;", Indent,
     "width: " + num(st.width) + "px;", Indent,
     "height: " + num(st.height) + "px;", Indent]
  }

  /** The text declarations, each with its fallback. */
  function LayerTextPieces(st: Style, num: real -> string): seq<string>
  {
    [Declaration(Get(st.optional, "fontSize"), "font-size: ", "px;", "font-size: 16px;", num), Indent,
     Declaration(Get(st.optional, "fontWeight"), "font-weight: ", ";", "font-weight: normal;", num), Indent,
     Declaration(Get(st.optional, "color"), "color: ", ";", "color: #000;", num), Indent]
  }

  /** The box declarations, the first two with their fallbacks. */
  function LayerBoxPieces(st: Style, num: real -> string): seq<string>
  {
    [Declaration(Get(st.optional, "backgroundColor"), "background-color: ", ";", "background-color: transparent;", num), Indent,
     Declaration(Get(st.optional, "borderRadius"), "border-radius: ", "px;", "border-radius: 0px;", num), Indent,
     "opacity: " + num(st.opacity) + ";", Indent,
     "transform: rotate(" + num(st.rotation) + "deg);", Indent,
     "z-index: " + num(st.zIndex) + ";", "\n                 display: flex;\n                 align-items: center;\n                 "]
  }

  /** The alignment, the content and the closing tag. */
  function LayerTailPieces(layer: Layer): seq<string>
  {
    [if layer.kind == Button then "justify-content: center;" else "justify-content: flex-start;", "\n             \">\n            ",
     LayerBody(layer), "\n        </div>"]
  }

  /** The layer template, laid out as five consecutive groups of pieces. */
  function LayerPieces(layer: Layer, num: real -> string): seq<string>
  {
    [Concat(LayerOpenPieces(layer, num)), Concat(LayerPlacePieces(layer.style, num)),
     Concat(LayerTextPieces(layer.style, num)), Concat(LayerBoxPieces(layer.style, num)),
     Concat(LayerTailPieces(layer))]
  }

  /** One layer's `<div class="layer">`. */
  function LayerHtml(layer: Layer, num: real -> string): string
  {
    Concat(LayerPieces(layer, num))
  }

  function LayerBlocks(layers: seq<Layer>, num: real -> string): seq<string>
  {
    seq(|layers|, i requires 0 <= i < |layers| => LayerHtml(layers[i], num))
  }

  /** `slideIndex === 0 ? 'active' : ''`. */
  function ActiveMarker(index: int): string
  {
    if index == 0 then "active" else ""
  }

  const SlideOpening: string := "\n    <div class=\"slide "

  function SlidePieces(slide: Slide, slideIndex: int, num: real -> string): seq<string>
  {
    [SlideOpening, ActiveMarker(slideIndex), "\" \n         ",
     "style=\"background: " + slide.background.value + ";\"", ">\n        ",
     Concat(LayerBlocks(slide.layers, num)), "\n    </div>"]
  }

  /** One slide's `<div class="slide">` with its layers. */
  function SlideHtml(slide: Slide, slideIndex: int, num: real -> string): string
  {
    Concat(SlidePieces(slide, slideIndex, num))
  }

  function SlideBlocks(slides: seq<Slide>, num: real -> string): seq<string>
  {
    seq(|slides|, i requires 0 <= i < |slides| => SlideHtml(slides[i], i, num))
  }

  /** One pagination dot. */
  function DotHtml(index: int): string
  {
    "<div class=\"pagination-dot " + ActiveMarker(index) + "\"></div>"
  }

  const ActiveDot: string := "<div class=\"pagination-dot active\"></div>"

  function Dots(n: nat): seq<string>
  {
    seq(n, i => DotHtml(i))
  }

  /** The navigation buttons and the opening of the pagination bar. */
  const PageNavigation: string := "\n        \n        <button class=\"navigation nav-prev\">\U{2039}</button>\n        <button class=\"navigation nav-next\">\U{203A}</button>\n        \n        <div class=\"pagination\">\n            "

  function PagePieces(project: Project, num: real -> string): seq<string>
  {
    ["\n    <div class=\"slider-container\">\n        ", Concat(SlideBlocks(project.slides, num)),
     PageNavigation, Concat(Dots(|project.slides|)), "\n        </div>\n    </div>"]
  }

  /** `generateHTML`. */
  function GenerateHtml(project: Project, num: real -> string): string
  {
    Concat(PagePieces(project, num))
  }

  /** A layer's markup names its entrance animation as a class (lower-cased, whitespace runs turned to '-') and its delay. */
  lemma LayerAnimationAttributes(layer: Layer, num: real -> string)
    ensures Contains(LayerHtml(layer, num), "data-animation=\"" + AnimationClassName(layer.animation.entrance) + "\"")
    ensures Contains(LayerHtml(layer, num), "data-delay=\"" + num(layer.animation.delay) + "\"")
  {
    ContainsNestedPiece(LayerPieces(layer, num), 0, LayerOpenPieces(layer, num), 1);
    ContainsNestedPiece(LayerPieces(layer, num), 0, LayerOpenPieces(layer, num), 3);
  }

  /** A layer is placed by its geometry and stacked by its z-index. */
  lemma LayerGeometry(layer: Layer, num: real -> string)
    ensures var html := LayerHtml(layer, num);
      Contains(html, "left: " + num(layer.style.x) + "px;")
      && Contains(html, "top: " + num(layer.style.y) + "px;")
      && Contains(html, "width: " + num(layer.style.width) + "px;")
      && Contains(html, "height: " + num(layer.style.height) + "px;")
      && Contains(html, "z-index: " + num(layer.style.zIndex) + ";")
  {
    var pieces := LayerPieces(layer, num);
    ContainsNestedPiece(pieces, 1, LayerPlacePieces(layer.style, num), 0);
    ContainsNestedPiece(pieces, 1, LayerPlacePieces(layer.style, num), 2);
    ContainsNestedPiece(pieces, 1, LayerPlacePieces(layer.style, num), 4);
    ContainsNestedPiece(pieces, 1, LayerPlacePieces(layer.style, num), 6);
    ContainsNestedPiece(pieces, 3, LayerBoxPieces(layer.style, num), 8);
  }

  /**
   * A button's content is centred and any other layer's left-aligned; an
   * image layer's content becomes an `<img>` source and any other layer's
   * content is inlined raw, without escaping.
   */
  lemma LayerContent(layer: Layer, num: real -> string)
    ensures var html := LayerHtml(layer, num);
      (layer.kind == Button ==> Contains(html, "justify-content: center;"))
      && (layer.kind != Button ==> Contains(html, "justify-content: flex-start;"))
      && (layer.kind == Image ==> Contains(html, "<img src=\"" + layer.content + "\""))
      && (layer.kind != Image ==> Contains(html, layer.content))
  {
    var pieces := LayerPieces(layer, num);
    var tail := LayerTailPieces(layer);
    var html := LayerHtml(layer, num);
    ContainsNestedPiece(pieces, 4, tail, 0);
    ContainsNestedPiece(pieces, 4, tail, 2);
    if layer.kind == Image {
      var tag := "<img src=\"" + layer.content + "\"";
      ContainsItself(tag);
      ContainsExtend("", tag, ImageAttributes, tag);
      assert tail[2] == tag + ImageAttributes;
      ContainsTrans(html, tail[2], tag);
    }
  }

  /** A missing or falsy font size, weight or colour prints its default (16, normal, #000); a truthy one prints itself. */
  lemma LayerTextFallbacks(layer: Layer, num: real -> string)
    ensures var html := LayerHtml(layer, num);
      var o := layer.style.optional;
      (!Truthy(Get(o, "fontSize")) ==> Contains(html, "font-size: 16px;"))
      && (Truthy(Get(o, "fontSize")) ==> Contains(html, "font-size: " + ValueText(Get(o, "fontSize"), num) + "px;"))
      && (!Truthy(Get(o, "fontWeight")) ==> Contains(html, "font-weight: normal;"))
      && (Truthy(Get(o, "fontWeight")) ==> Contains(html, "font-weight: " + ValueText(Get(o, "fontWeight"), num) + ";"))
      && (!Truthy(Get(o, "color")) ==> Contains(html, "color: #000;"))
      && (Truthy(Get(o, "color")) ==> Contains(html, "color: " + ValueText(Get(o, "color"), num) + ";"))
  {
    var pieces := LayerPieces(layer, num);
    var o := layer.style.optional;
    var text := LayerTextPieces(layer.style, num);
    assert pieces[2] == Concat(text);
    FallbackPiece(pieces, 2, text, 0, Get(o, "fontSize"), "font-size: ", "px;", "font-size: 16px;", num);
    FallbackPiece(pieces, 2, text, 2, Get(o, "fontWeight"), "font-weight: ", ";", "font-weight: normal;", num);
    FallbackPiece(pieces, 2, text, 4, Get(o, "color"), "color: ", ";", "color: #000;", num);
  }

  /** The piece at `k` of group `g` of a template, which prints `v` or its fallback, is found in the whole text. */
  lemma FallbackPiece(pieces: seq<string>, g: int, group: seq<string>, k: int,
                      v: Value, prefix: string, suffix: string, whenFalsy: string, num: real -> string)
    requires 0 <= g < |pieces| && pieces[g] == Concat(group) && 0 <= k < |group|
    requires group[k] == Declaration(v, prefix, suffix, whenFalsy, num)
    ensures !Truthy(v) ==> Contains(Concat(pieces), whenFalsy)
    ensures Truthy(v) ==> Contains(Concat(pieces), prefix + ValueText(v, num) + suffix)
  {
    ContainsNestedPiece(pieces, g, group, k);
  }

  /** A missing or falsy background colour or radius prints its default (transparent, 0); a truthy one prints itself. */
  lemma LayerBoxFallbacks(layer: Layer, num: real -> string)
    ensures var html := LayerHtml(layer, num);
      var o := layer.style.optional;
      (!Truthy(Get(o, "backgroundColor")) ==> Contains(html, "background-color: transparent;"))
      && (Truthy(Get(o, "backgroundColor")) ==>
            Contains(html, "background-color: " + ValueText(Get(o, "backgroundColor"), num) + ";"))
      && (!Truthy(Get(o, "borderRadius")) ==> Contains(html, "border-radius: 0px;"))
      && (Truthy(Get(o, "borderRadius")) ==>
            Contains(html, "border-radius: " + ValueText(Get(o, "borderRadius"), num) + "px;"))
  {
    var pieces := LayerPieces(layer, num);
    var o := layer.style.optional;
    var box := LayerBoxPieces(layer.style, num);
    assert pieces[3] == Concat(box);
    FallbackPiece(pieces, 3, box, 0, Get(o, "backgroundColor"), "background-color: ", ";", "background-color: transparent;", num);
    FallbackPiece(pieces, 3, box, 2, Get(o, "borderRadius"), "border-radius: ", "px;", "border-radius: 0px;", num);
  }

  /** How many entries of `xs` equal `x`. */
  function CountOf(xs: seq<string>, x: string): (n: nat)
    ensures n <= |xs|
    ensures n == 0 <==> x !in xs
  {
    if xs == [] then 0 else (if xs[0] == x then 1 else 0) + CountOf(xs[1..], x)
  }

  lemma {:induction false} CountOfAppend(xs: seq<string>, y: string, x: string)
    ensures CountOf(xs + [y], x) == CountOf(xs, x) + (if y == x then 1 else 0)
    decreases |xs|
  {
    if xs == [] {
      assert xs + [y] == [y];
    } else {
      assert (xs + [y])[1..] == xs[1..] + [y];
      CountOfAppend(xs[1..], y, x);
    }
  }

  /** Only the first pagination dot is the active one. */
  lemma DotIsActiveIffFirst(i: nat)
    ensures DotHtml(i) == ActiveDot <==> i == 0
  {
    if i != 0 {
      assert |DotHtml(i)| != |ActiveDot|;
    }
  }

  /** There is one dot per slide, and exactly one is active when there is any slide. */
  lemma {:induction false} DotsHaveOneActive(n: nat)
    ensures |Dots(n)| == n
    ensures CountOf(Dots(n), ActiveDot) == if n == 0 then 0 else 1
    decreases n
  {
    if n > 0 {
      DotsHaveOneActive(n - 1);
      assert Dots(n) == Dots(n - 1) + [DotHtml(n - 1)];
      CountOfAppend(Dots(n - 1), DotHtml(n - 1), ActiveDot);
      DotIsActiveIffFirst(n - 1);
    }
  }

  /** A slide's markup opens as the active slide exactly when it is the first. */
  lemma SlideIsActiveIffFirst(slide: Slide, slideIndex: int, num: real -> string)
    ensures StartsWith(SlideHtml(slide, slideIndex, num), SlideOpening + "active\"") <==> slideIndex == 0
  {
    var pieces := SlidePieces(slide, slideIndex, num);
    ConcatFirstTwo(pieces);
    ConcatFirstTwo(pieces[2..]);
    MarkerOpensSlide(SlideOpening, ActiveMarker(slideIndex), Concat(pieces[2..]));
  }

  /** Behind the common opening, `active"` follows exactly when the marker is `active` and the rest opens with a quote. */
  lemma MarkerOpensSlide(opening: string, marker: string, rest: string)
    requires marker == "active" || marker == ""
    requires |rest| > 0 && rest[0] == '"'
    ensures StartsWith(opening + marker + rest, opening + "active\"") <==> marker == "active"
  {
    var html := opening + marker + rest;
    var prefix := opening + "active\"";
    if marker == "active" {
      assert html[..|prefix|] == prefix;
    } else {
      assert html[|opening|] == '"';
      assert prefix[|opening|] == 'a';
    }
  }

  /**
   * The page holds one slide block per slide, each with the markup of every
   * one of its layers, and the row of dots.
   */
  lemma PageHoldsEverySlide(project: Project, num: real -> string, j: int, k: int)
    requires 0 <= j < |project.slides| && 0 <= k < |project.slides[j].layers|
    ensures var page := GenerateHtml(project, num);
      |SlideBlocks(project.slides, num)| == |project.slides|
      && Contains(page, SlideHtml(project.slides[j], j, num))
      && Contains(page, LayerHtml(project.slides[j].layers[k], num))
      && Contains(page, Concat(Dots(|project.slides|)))
  {
    var page := GenerateHtml(project, num);
    var slides := SlideBlocks(project.slides, num);
    var slide := project.slides[j];
    ContainsWholePiece(PagePieces(project, num), 1);
    ContainsWholePiece(PagePieces(project, num), 3);
    ContainsWholePiece(slides, j);
    ContainsTrans(page, Concat(slides), slides[j]);
    ContainsWholePiece(LayerBlocks(slide.layers, num), k);
    ContainsWholePiece(SlidePieces(slide, j, num), 5);
    ContainsTrans(SlideHtml(slide, j, num), Concat(LayerBlocks(slide.layers, num)), LayerHtml(slide.layers[k], num));
    ContainsTrans(page, SlideHtml(slide, j, num), LayerHtml(slide.layers[k], num));
  }

  // ------------------------------------------------------------ exportToHTML

  const DocumentHead: string := "\n<html lang=\"en\">\n<head>\n    <meta charset=\"UTF-8\">\n    <meta name=\"viewport\" content=\"width=device-width, initial-scale=1.0\">\n    "

  /** The document template, around a title, a style sheet, the slide markup and a script. */
  function DocumentPieces(title: string, css: string, html: string, js: string): seq<string>
  {
    ["<!DOCTYPE html>", DocumentHead,
     "<title>" + title + "</title>", "\n    ",
     "<style>\n" + css + "\n    </style>", "\n</head>\n<body>\n",
     html, "\n    ",
     "<script>\n" + js + "\n    </script>", "\n</body>\n</html>"]
  }

  /** Whatever is placed in the template, the document opens with the doctype and holds each part whole. */
  lemma DocumentParts(title: string, css: string, html: string, js: string)
    ensures var doc := Concat(DocumentPieces(title, css, html, js));
      StartsWith(doc, "<!DOCTYPE html>")
      && Contains(doc, "<title>" + title + "</title>")
      && Contains(doc, "<style>\n" + css + "\n    </style>")
      && Contains(doc, html)
      && Contains(doc, "<script>\n" + js + "\n    </script>")
  {
    var pieces := DocumentPieces(title, css, html, js);
    assert Concat(pieces) == "<!DOCTYPE html>" + Concat(pieces[1..]);
    ContainsWholePiece(pieces, 2);
    ContainsWholePiece(pieces, 4);
    ContainsWholePiece(pieces, 6);
    ContainsWholePiece(pieces, 8);
  }

  /** `exportToHTML`. */
  function ExportToHtml(project: Project, options: ExportOptions, num: real -> string): string
  {
    Concat(DocumentPieces(project.name, GenerateCss(project, options), GenerateHtml(project, num),
                          GenerateJavaScript(project, options, num)))
  }

  /**
   * The document starts with the doctype, is titled with the project's name,
   * carries the sheet inside `<style>`, the slide markup, and the script
   * inside `<script>`; with animations included it holds `.fade-in {`.
   */
  lemma ExportSkeleton(project: Project, options: ExportOptions, num: real -> string)
    ensures var doc := ExportToHtml(project, options, num);
      StartsWith(doc, "<!DOCTYPE html>")
      && Contains(doc, "<title>" + project.name + "</title>")
      && Contains(doc, "<style>\n" + GenerateCss(project, options) + "\n    </style>")
      && Contains(doc, GenerateHtml(project, num))
      && Contains(doc, "<script>\n" + GenerateJavaScript(project, options, num) + "\n    </script>")
      && Contains(doc, ".slider-container")
      && Contains(doc, "class SliderRevolution")
      && (options.includeAnimations ==> Contains(doc, ".fade-in {"))
  {
    var css := GenerateCss(project, options);
    var js := GenerateJavaScript(project, options, num);
    var doc := ExportToHtml(project, options, num);
    DocumentParts(project.name, css, GenerateHtml(project, num), js);
    CssAnimationsIffIncluded(project, options, project, options);
    ScriptEmbedsSettings(project, options, num, project);
    ContainsExtend("<style>\n", css, "\n    </style>", ".slider-container");
    ContainsTrans(doc, "<style>\n" + css + "\n    </style>", ".slider-container");
    ContainsExtend("<script>\n", js, "\n    </script>", "class SliderRevolution");
    ContainsTrans(doc, "<script>\n" + js + "\n    </script>", "class SliderRevolution");
    if options.includeAnimations {
      ContainsExtend("<style>\n", css, "\n    </style>", ".fade-in {");
      ContainsTrans(doc, "<style>\n" + css + "\n    </style>", ".fade-in {");
    }
  }
}
