/**
 * The animation catalogue: the entrance and exit presets the editor offers,
 * each with its keyframes, default duration and easing, and the CSS text of
 * one preset under a chosen name.
 */
module AnimationCatalog {
  import opened JsPrelude
  import opened SliderTypes

  // The keyframe bodies, verbatim, including their surrounding line breaks.
  const FadeInFrames: string :=
    "\n      from { opacity: 0; }\n      to { opacity: 1; }\n    "
  const SlideInLeftFrames: string :=
    "\n      from { \n        opacity: 0; \n        transform: translateX(-100px); \n      }\n      to { \n        opacity: 1; \n        transform: translateX(0); \n      }\n    "
  const SlideInRightFrames: string :=
    "\n      from { \n        opacity: 0; \n        transform: translateX(100px); \n      }\n      to { \n        opacity: 1; \n        transform: translateX(0); \n      }\n    "
  const SlideInUpFrames: string :=
    "\n      from { \n        opacity: 0; \n        transform: translateY(50px); \n      }\n      to { \n        opacity: 1; \n        transform: translateY(0); \n      }\n    "
  const SlideInDownFrames: string :=
    "\n      from { \n        opacity: 0; \n        transform: translateY(-50px); \n      }\n      to { \n        opacity: 1; \n        transform: translateY(0); \n      }\n    "
  const ScaleInFrames: string :=
    "\n      from { \n        opacity: 0; \n        transform: scale(0.8); \n      }\n      to { \n        opacity: 1; \n        transform: scale(1); \n      }\n    "
  const ScaleInBigFrames: string :=
    "\n      from { \n        opacity: 0; \n        transform: scale(1.3); \n      }\n      to { \n        opacity: 1; \n        transform: scale(1); \n      }\n    "
  const RotateInFrames: string :=
    "\n      from { \n        opacity: 0; \n        transform: rotate(-10deg) scale(0.9); \n      }\n      to { \n        opacity: 1; \n        transform: rotate(0deg) scale(1); \n      }\n    "
  const FlipInXFrames: string :=
    "\n      from { \n        opacity: 0; \n        transform: perspective(400px) rotateX(-90deg); \n      }\n      to { \n        opacity: 1; \n        transform: perspective(400px) rotateX(0deg); \n      }\n    "
  const FlipInYFrames: string :=
    "\n      from { \n        opacity: 0; \n        transform: perspective(400px) rotateY(-90deg); \n      }\n      to { \n        opacity: 1; \n        transform: perspective(400px) rotateY(0deg); \n      }\n    "
  const BounceInFrames: string :=
    "\n      0% {\n        opacity: 0;\n        transform: scale3d(0.3, 0.3, 0.3);\n      }\n      20% {\n        transform: scale3d(1.1, 1.1, 1.1);\n      }\n      40% {\n        transform: scale3d(0.9, 0.9, 0.9);\n      }\n      60% {\n        opacity: 1;\n        transform: scale3d(1.03, 1.03, 1.03);\n      }\n      80% {\n        transform: scale3d(0.97, 0.97, 0.97);\n      }\n      100% {\n        opacity: 1;\n        transform: scale3d(1, 1, 1);\n      }\n    "
  const ZoomInFrames: string :=
    "\n      from { \n        opacity: 0; \n        transform: scale3d(0.1, 0.1, 0.1); \n      }\n      50% {\n        opacity: 1;\n      }\n      to { \n        transform: scale3d(1, 1, 1); \n      }\n    "
  const FadeOutFrames: string :=
    "\n      from { opacity: 1; }\n      to { opacity: 0; }\n    "
  const SlideOutLeftFrames: string :=
    "\n      from { \n        opacity: 1; \n        transform: translateX(0); \n      }\n      to { \n        opacity: 0; \n        transform: translateX(-100px); \n      }\n    "
  const SlideOutRightFrames: string :=
    "\n      from { \n        opacity: 1; \n        transform: translateX(0); \n      }\n      to { \n        opacity: 0; \n        transform: translateX(100px); \n      }\n    "
  const SlideOutUpFrames: string :=
    "\n      from { \n        opacity: 1; \n        transform: translateY(0); \n      }\n      to { \n        opacity: 0; \n        transform: translateY(-50px); \n      }\n    "
  const SlideOutDownFrames: string :=
    "\n      from { \n        opacity: 1; \n        transform: translateY(0); \n      }\n      to { \n        opacity: 0; \n        transform: translateY(50px); \n      }\n    "
  const ScaleOutFrames: string :=
    "\n      from { \n        opacity: 1; \n        transform: scale(1); \n      }\n      to { \n        opacity: 0; \n        transform: scale(0.8); \n      }\n    "
  const ZoomOutFrames: string :=
    "\n      from { \n        opacity: 1; \n      }\n      50% {\n        opacity: 0;\n        transform: scale3d(0.3, 0.3, 0.3);\n      }\n      to { \n        opacity: 0;\n        transform: scale3d(0.1, 0.1, 0.1); \n      }\n    "
  const RotateOutFrames: string :=
    "\n      from { \n        opacity: 1; \n        transform: rotate(0deg) scale(1); \n      }\n      to { \n        opacity: 0; \n        transform: rotate(10deg) scale(0.9); \n      }\n    "
  const FlipOutXFrames: string :=
    "\n      from { \n        opacity: 1; \n        transform: perspective(400px) rotateX(0deg); \n      }\n      to { \n        opacity: 0; \n        transform: perspective(400px) rotateX(90deg); \n      }\n    "
  const BounceOutFrames: string :=
    "\n      20% {\n        transform: scale3d(0.9, 0.9, 0.9);\n      }\n      50%, 55% {\n        opacity: 1;\n        transform: scale3d(1.1, 1.1, 1.1);\n      }\n      100% {\n        opacity: 0;\n        transform: scale3d(0.3, 0.3, 0.3);\n      }\n    "

  /** The entrance section of `animationPresets`. */
  function EntrancePresets(): seq<AnimationPreset>
  {
    [
      AnimationPreset("Fade In", Entrance, FadeInFrames, 600, "ease-out"),
      AnimationPreset("Slide In Left", Entrance, SlideInLeftFrames, 800, "cubic-bezier(0.25, 0.46, 0.45, 0.94)"),
      AnimationPreset("Slide In Right", Entrance, SlideInRightFrames, 800, "cubic-bezier(0.25, 0.46, 0.45, 0.94)"),
      AnimationPreset("Slide In Up", Entrance, SlideInUpFrames, 800, "cubic-bezier(0.25, 0.46, 0.45, 0.94)"),
      AnimationPreset("Slide In Down", Entrance, SlideInDownFrames, 800, "cubic-bezier(0.25, 0.46, 0.45, 0.94)"),
      AnimationPreset("Scale In", Entrance, ScaleInFrames, 600, "cubic-bezier(0.34, 1.56, 0.64, 1)"),
      AnimationPreset("Scale In Big", Entrance, ScaleInBigFrames, 600, "cubic-bezier(0.34, 1.56, 0.64, 1)"),
      AnimationPreset("Rotate In", Entrance, RotateInFrames, 800, "cubic-bezier(0.25, 0.46, 0.45, 0.94)"),
      AnimationPreset("Flip In X", Entrance, FlipInXFrames, 800, "cubic-bezier(0.25, 0.46, 0.45, 0.94)"),
      AnimationPreset("Flip In Y", Entrance, FlipInYFrames, 800, "cubic-bezier(0.25, 0.46, 0.45, 0.94)"),
      AnimationPreset("Bounce In", Entrance, BounceInFrames, 1000, "cubic-bezier(0.215, 0.61, 0.355, 1)"),
      AnimationPreset("Zoom In", Entrance, ZoomInFrames, 800, "cubic-bezier(0.55, 0.055, 0.675, 0.19)")
    ]
  }

  /** The exit section of `animationPresets`. */
  function ExitPresets(): seq<AnimationPreset>
  {
    [
      AnimationPreset("Fade Out", Exit, FadeOutFrames, 400, "ease-in"),
      AnimationPreset("Slide Out Left", Exit, SlideOutLeftFrames, 600, "cubic-bezier(0.55, 0.06, 0.68, 0.19)"),
      AnimationPreset("Slide Out Right", Exit, SlideOutRightFrames, 600, "cubic-bezier(0.55, 0.06, 0.68, 0.19)"),
      AnimationPreset("Slide Out Up", Exit, SlideOutUpFrames, 600, "cubic-bezier(0.55, 0.06, 0.68, 0.19)"),
      AnimationPreset("Slide Out Down", Exit, SlideOutDownFrames, 600, "cubic-bezier(0.55, 0.06, 0.68, 0.19)"),
      AnimationPreset("Scale Out", Exit, ScaleOutFrames, 400, "cubic-bezier(0.55, 0.06, 0.68, 0.19)"),
      AnimationPreset("Zoom Out", Exit, ZoomOutFrames, 600, "cubic-bezier(0.55, 0.055, 0.675, 0.19)"),
      AnimationPreset("Rotate Out", Exit, RotateOutFrames, 600, "cubic-bezier(0.55, 0.06, 0.68, 0.19)"),
      AnimationPreset("Flip Out X", Exit, FlipOutXFrames, 600, "cubic-bezier(0.55, 0.06, 0.68, 0.19)"),
      AnimationPreset("Bounce Out", Exit, BounceOutFrames, 800, "cubic-bezier(0.215, 0.61, 0.355, 1)")
    ]
  }

  /** The entrance section holds twelve entrance presets and the exit section ten exit presets. */
  lemma SectionKinds()
    ensures |EntrancePresets()| == 12 && |ExitPresets()| == 10
    ensures forall i :: 0 <= i < |EntrancePresets()| ==> EntrancePresets()[i].kind == Entrance
    ensures forall i :: 0 <= i < |ExitPresets()| ==> ExitPresets()[i].kind == Exit
  {
  }

  /** `animationPresets`: the entrance presets, then the exit presets. */
  function AnimationPresets(): seq<AnimationPreset>
  {
    EntrancePresets() + ExitPresets()
  }

  /**
   * Twelve entrance presets come first and ten exit presets follow, and
   * every preset's default duration lies between 400 and 1000 ms.
   */
  lemma CatalogShape()
    ensures |AnimationPresets()| == 22
    ensures forall i :: 0 <= i < 12 ==> AnimationPresets()[i].kind == Entrance
    ensures forall i :: 12 <= i < 22 ==> AnimationPresets()[i].kind == Exit
    ensures forall i :: 0 <= i < 22 ==> 400 <= AnimationPresets()[i].duration <= 1000
  {
    var e, x := EntrancePresets(), ExitPresets();
    assert |e| == 12 && |x| == 10;
    assert forall i :: 0 <= i < 12 ==> e[i].kind == Entrance && 400 <= e[i].duration <= 1000;
    assert forall i :: 0 <= i < 10 ==> x[i].kind == Exit && 400 <= x[i].duration <= 1000;
    assert forall i :: 0 <= i < 12 ==> AnimationPresets()[i] == e[i];
    assert forall i :: 12 <= i < 22 ==> AnimationPresets()[i] == x[i - 12];
  }

  /** The catalogue's preset names, in catalogue order. */
  const PresetNames: seq<string> := [
    "Fade In",
    "Slide In Left",
    "Slide In Right",
    "Slide In Up",
    "Slide In Down",
    "Scale In",
    "Scale In Big",
    "Rotate In",
    "Flip In X",
    "Flip In Y",
    "Bounce In",
    "Zoom In",
    "Fade Out",
    "Slide Out Left",
    "Slide Out Right",
    "Slide Out Up",
    "Slide Out Down",
    "Scale Out",
    "Zoom Out",
    "Rotate Out",
    "Flip Out X",
    "Bounce Out"
  ]

  /** The catalogue lists exactly these names, in this order. */
  lemma CatalogNames()
    ensures |AnimationPresets()| == |PresetNames|
    ensures forall i :: 0 <= i < |PresetNames| ==> AnimationPresets()[i].name == PresetNames[i]
  {
    var e, x := EntrancePresets(), ExitPresets();
    assert forall i :: 0 <= i < 12 ==> e[i].name == PresetNames[i];
    assert forall i :: 0 <= i < 10 ==> x[i].name == PresetNames[12 + i];
    assert forall i :: 0 <= i < 12 ==> AnimationPresets()[i] == e[i];
    assert forall i :: 12 <= i < 22 ==> AnimationPresets()[i] == x[i - 12];
  }

  /** `${duration}ms ${easing} forwards`, the timing every generated rule uses. */
  function Timing(preset: AnimationPreset): string
  {
    IntToString(preset.duration) + "ms " + preset.easing + " forwards;"
  }

  /** The pieces of `getAnimationCSS`'s template, in order. */
  function AnimationCssPieces(preset: AnimationPreset, name: string): seq<string>
  {
    ["\n    ", "@keyframes " + name + " {", "\n      ", preset.keyframes, "\n    }\n    \n    ",
     "." + name + " {", "\n      ", "animation: " + name + " " + Timing(preset), "\n    }\n  "]
  }

  /** `getAnimationCSS`: the preset's keyframes and a class rule, both under `name`. */
  function GetAnimationCss(preset: AnimationPreset, name: string): string
  {
    Concat(AnimationCssPieces(preset, name))
  }

  /**
   * The text declares keyframes under the given name, a class selector of the
   * same name, and an animation running those keyframes for the preset's
   * duration with its easing, kept at the final frame.
   */
  lemma GetAnimationCssNames(preset: AnimationPreset, name: string)
    ensures Contains(GetAnimationCss(preset, name), "@keyframes " + name + " {")
    ensures Contains(GetAnimationCss(preset, name), "." + name + " {")
    ensures Contains(GetAnimationCss(preset, name), preset.keyframes)
    ensures Contains(GetAnimationCss(preset, name), "animation: " + name + " " + Timing(preset))
  {
    var ps := AnimationCssPieces(preset, name);
    ContainsWholePiece(ps, 1);
    ContainsWholePiece(ps, 3);
    ContainsWholePiece(ps, 5);
    ContainsWholePiece(ps, 7);
  }
}
