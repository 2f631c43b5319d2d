/**
 * The name-to-class table for the catalogue's animations, the lookups over
 * it, and the style sheet generated from the catalogue.
 */
module AnimationMapper {
  import opened JsPrelude
  import opened SliderTypes
  import opened AnimationCatalog

  /** `animationClassMap`. */
  const ClassMap: map<string, string> := map[
    "Fade In" := "fade-in",
    "Slide In Left" := "slide-in-left",
    "Slide In Right" := "slide-in-right",
    "Slide In Up" := "slide-in-up",
    "Slide In Down" := "slide-in-down",
    "Scale In" := "scale-in",
    "Scale In Big" := "scale-in-big",
    "Bounce In" := "bounce-in",
    "Zoom In" := "zoom-in",
    "Flip In X" := "flip-in-x",
    "Flip In Y" := "flip-in-y",
    "Rotate In" := "rotate-in",
    "Fade Out" := "fade-out",
    "Slide Out Left" := "slide-out-left",
    "Slide Out Right" := "slide-out-right",
    "Slide Out Up" := "slide-out-up",
    "Slide Out Down" := "slide-out-down",
    "Scale Out" := "scale-out",
    "Scale Out Big" := "scale-out-big",
    "Bounce Out" := "bounce-out",
    "Zoom Out" := "zoom-out",
    "Flip Out X" := "flip-out-x",
    "Flip Out Y" := "flip-out-y",
    "Rotate Out" := "rotate-out"
  ]

  /** The names every plain JavaScript object inherits from `Object.prototype`. */
  const ObjectPrototypeKeys: set<string> := {
    "constructor", "hasOwnProperty", "isPrototypeOf", "propertyIsEnumerable",
    "toLocaleString", "toString", "valueOf", "__proto__",
    "__defineGetter__", "__defineSetter__", "__lookupGetter__", "__lookupSetter__"
  }

  /**
   * What `animationClassMap[name] || ''` yields: a class name, or, for a name
   * inherited from `Object.prototype`, that inherited member itself, which is
   * truthy and so is returned in place of a string.
   */
  datatype ClassLookup = ClassName(cls: string) | InheritedMember(key: string)

  /** `getAnimationClassName`: the mapped class, the inherited member, or "" for any other name. */
  function MapperClassName(name: string): (c: ClassLookup)
    ensures name in ClassMap ==> c == ClassName(ClassMap[name])
    ensures name !in ClassMap && name in ObjectPrototypeKeys ==> c == InheritedMember(name)
    ensures name !in ClassMap && name !in ObjectPrototypeKeys ==> c == ClassName("")
  {
    if name in ClassMap then ClassName(ClassMap[name])
    else if name in ObjectPrototypeKeys then InheritedMember(name)
    else ClassName("")
  }

  /** `getAnimationClassName` as intended: an own key's class, and "" for every other name. */
  function OwnClassName(name: string): (c: string)
    ensures c != "" <==> name in ClassMap
    ensures name in ClassMap ==> c == ClassMap[name]
  {
    assert forall k :: k in ClassMap ==> ClassMap[k] != "";
    if name in ClassMap then ClassMap[name] else ""
  }

  /** `isValidAnimation` as written: the `in` operator also finds inherited names. */
  predicate IsValidAnimationAsWritten(name: string)
  {
    name in ClassMap || name in ObjectPrototypeKeys
  }

  /** `isValidAnimation` as intended: the name is one of the table's own keys. */
  predicate IsValidAnimation(name: string)
  {
    name in ClassMap
  }

  /**
   * The written check accepts a name exactly when the lookup does not come
   * back empty; the intended check accepts it exactly when the lookup is a
   * non-empty class name, which is when the intended lookup is non-empty.
   * Away from inherited names the two lookups agree.
   */
  lemma ValidIffHasClass(name: string)
    ensures IsValidAnimationAsWritten(name) <==> MapperClassName(name) != ClassName("")
    ensures IsValidAnimation(name) <==> (MapperClassName(name).ClassName? && MapperClassName(name).cls != "")
    ensures IsValidAnimation(name) <==> OwnClassName(name) != ""
    ensures !(name in ObjectPrototypeKeys) ==> MapperClassName(name) == ClassName(OwnClassName(name))
  {
    if name in ClassMap {
      assert forall k :: k in ClassMap ==> ClassMap[k] != "";
    }
  }

  /** "toString" has no class, yet the written check accepts it and the lookup returns the inherited function; the own-key check rejects it. */
  lemma InheritedNameIsAccepted(name: string)
    requires name == "toString"
    ensures IsValidAnimationAsWritten(name)
    ensures !IsValidAnimation(name)
    ensures MapperClassName(name) == InheritedMember("toString")
  {
    assert name in ObjectPrototypeKeys;
    assert name !in ClassMap;
  }

  /** The two versions of the check agree on every name that is not inherited from `Object.prototype`. */
  lemma ValidityVersionsAgree(name: string)
    requires name !in ObjectPrototypeKeys
    ensures IsValidAnimationAsWritten(name) <==> IsValidAnimation(name)
  {
  }

  /** Every catalogue preset has a class. */
  lemma EveryPresetIsMapped()
    ensures forall i :: 0 <= i < |AnimationPresets()| ==> AnimationPresets()[i].name in ClassMap
  {
    CatalogShape();
    var e, x := EntrancePresets(), ExitPresets();
    assert forall i :: 0 <= i < |e| ==> e[i].name in ClassMap;
    assert forall i :: 0 <= i < |x| ==> x[i].name in ClassMap;
    assert forall i :: 0 <= i < 12 ==> AnimationPresets()[i] == e[i];
    assert forall i :: 12 <= i < 22 ==> AnimationPresets()[i] == x[i - 12];
  }

  // ------------------------------------------------------------ getAvailableAnimations

  function OfKind(ps: seq<AnimationPreset>, kind: AnimationKind): (r: seq<AnimationPreset>)
    ensures |r| <= |ps|
    ensures forall p :: p in r <==> p in ps && p.kind == kind
  {
    if ps == [] then []
    else (if ps[0].kind == kind then [ps[0]] else []) + OfKind(ps[1..], kind)
  }

  function Names(ps: seq<AnimationPreset>): (r: seq<string>)
    ensures |r| == |ps|
    ensures forall i :: 0 <= i < |ps| ==> r[i] == ps[i].name
  {
    if ps == [] then [] else [ps[0].name] + Names(ps[1..])
  }

  /** `getAvailableAnimations`: the names of the presets of a kind, or of all presets. */
  function GetAvailableAnimations(kind: Option<AnimationKind>): seq<string>
  {
    if kind.Some? then Names(OfKind(AnimationPresets(), kind.value)) else Names(AnimationPresets())
  }

  lemma {:induction false} OfKindConcat(a: seq<AnimationPreset>, b: seq<AnimationPreset>, kind: AnimationKind)
    ensures OfKind(a + b, kind) == OfKind(a, kind) + OfKind(b, kind)
    decreases |a|
  {
    if a == [] {
      assert a + b == b;
    } else {
      assert (a + b)[1..] == a[1..] + b;
      OfKindConcat(a[1..], b, kind);
    }
  }

  lemma {:induction false} OfKindAll(ps: seq<AnimationPreset>, kind: AnimationKind)
    requires forall i :: 0 <= i < |ps| ==> ps[i].kind == kind
    ensures OfKind(ps, kind) == ps
    decreases |ps|
  {
    if ps != [] {
      OfKindAll(ps[1..], kind);
    }
  }

  lemma {:induction false} OfKindNone(ps: seq<AnimationPreset>, kind: AnimationKind)
    requires forall i :: 0 <= i < |ps| ==> ps[i].kind != kind
    ensures OfKind(ps, kind) == []
    decreases |ps|
  {
    if ps != [] {
      OfKindNone(ps[1..], kind);
    }
  }

  lemma {:induction false} NamesConcat(a: seq<AnimationPreset>, b: seq<AnimationPreset>)
    ensures Names(a + b) == Names(a) + Names(b)
    decreases |a|
  {
    if a == [] {
      assert a + b == b;
    } else {
      assert (a + b)[1..] == a[1..] + b;
      NamesConcat(a[1..], b);
    }
  }

  /** Filtering an entrance section followed by an exit section picks out one section. */
  lemma SectionsByKind(e: seq<AnimationPreset>, x: seq<AnimationPreset>)
    requires forall i :: 0 <= i < |e| ==> e[i].kind == Entrance
    requires forall i :: 0 <= i < |x| ==> x[i].kind == Exit
    ensures OfKind(e + x, Entrance) == e && OfKind(e + x, Exit) == x
  {
    OfKindConcat(e, x, Entrance);
    OfKindConcat(e, x, Exit);
    OfKindAll(e, Entrance);
    OfKindNone(x, Entrance);
    OfKindAll(x, Exit);
    OfKindNone(e, Exit);
    assert e + [] == e;
    assert [] + x == x;
  }

  /**
   * The entrance names are the twelve entrance presets' names and the exit
   * names the ten exit presets', each in catalogue order; without a kind all
   * twenty-two names are listed.
   */
  lemma AvailableAnimationsByKind()
    ensures GetAvailableAnimations(Some(Entrance)) == Names(EntrancePresets())
    ensures GetAvailableAnimations(Some(Exit)) == Names(ExitPresets())
    ensures |GetAvailableAnimations(Some(Entrance))| == 12 && |GetAvailableAnimations(Some(Exit))| == 10
    ensures GetAvailableAnimations(None) == Names(EntrancePresets()) + Names(ExitPresets())
  {
    SectionKinds();
    var e, x := EntrancePresets(), ExitPresets();
    SectionsByKind(e, x);
    NamesConcat(e, x);
  }

  // ------------------------------------------------------------ generateAnimationCSS

  /** `className.replace(/^(.*?)$/, '$1-keyframes')` on a one-line class name. */
  function KeyframesName(cls: string): string
  {
    cls + "-keyframes"
  }

  /** The pieces `generateAnimationCSS` appends for one mapped preset. */
  function PresetCssPieces(cls: string, p: AnimationPreset): seq<string>
  {
    ["\n", "@keyframes " + KeyframesName(cls) + " {", "\n", p.keyframes, "\n}\n\n\n",
     "." + cls + " {", "\n  ", "animation: " + KeyframesName(cls) + " " + Timing(p), "\n}\n\n"]
  }

  function PresetCss(cls: string, p: AnimationPreset): string
  {
    Concat(PresetCssPieces(cls, p))
  }

  /** The style sheet for a list of presets: one block per mapped preset, in list order. */
  function MappedCss(ps: seq<AnimationPreset>): string
    decreases |ps|
  {
    if ps == [] then ""
    else
      var p := ps[|ps| - 1];
      MappedCss(ps[..|ps| - 1]) + (if p.name in ClassMap then PresetCss(ClassMap[p.name], p) else "")
  }

  /** The `for` loop of `generateAnimationCSS` over a preset list: each mapped preset's block, appended in turn. */
  method AppendPresetBlocks(presets: seq<AnimationPreset>) returns (css: string)
    ensures css == MappedCss(presets)
  {
    css := "";
    var i := 0;
    while i < |presets|
      invariant 0 <= i <= |presets|
      invariant css == MappedCss(presets[..i])
    {
      var preset := presets[i];
      assert presets[..i + 1][..i] == presets[..i];
      if preset.name in ClassMap {
        var className := ClassMap[preset.name];
        css := css + PresetCss(className, preset);
      }
      i := i + 1;
    }
    assert presets[..|presets|] == presets;
  }

  /** `generateAnimationCSS`: the loop run over the catalogue. */
  method GenerateAnimationCss() returns (css: string)
    ensures css == MappedCss(AnimationPresets())
  {
    css := AppendPresetBlocks(AnimationPresets());
  }

  /** A preset's block declares its keyframes and a class rule that runs them with the preset's timing. */
  lemma PresetCssContents(cls: string, p: AnimationPreset)
    ensures Contains(PresetCss(cls, p), "@keyframes " + KeyframesName(cls) + " {")
    ensures Contains(PresetCss(cls, p), p.keyframes)
    ensures Contains(PresetCss(cls, p), "." + cls + " {")
    ensures Contains(PresetCss(cls, p), "animation: " + KeyframesName(cls) + " " + Timing(p))
  {
    var ps := PresetCssPieces(cls, p);
    ContainsWholePiece(ps, 1);
    ContainsWholePiece(ps, 3);
    ContainsWholePiece(ps, 5);
    ContainsWholePiece(ps, 7);
  }

  /** Every mapped preset's block is in the sheet. */
  lemma {:induction false} MappedCssHasEachBlock(ps: seq<AnimationPreset>, i: int)
    requires 0 <= i < |ps| && ps[i].name in ClassMap
    ensures Contains(MappedCss(ps), PresetCss(ClassMap[ps[i].name], ps[i]))
    decreases |ps|
  {
    var init, last := ps[..|ps| - 1], ps[|ps| - 1];
    var block := PresetCss(ClassMap[ps[i].name], ps[i]);
    if i == |ps| - 1 {
      ContainsItself(block);
      ContainsExtend(MappedCss(init), block, "", block);
    } else {
      assert init[i] == ps[i];
      MappedCssHasEachBlock(init, i);
      ContainsExtend("", MappedCss(init), if last.name in ClassMap then PresetCss(ClassMap[last.name], last) else "", block);
    }
  }

  /** The blocks come out in list order: the sheet of a prefix of the list is a prefix of the sheet. */
  lemma {:induction false} MappedCssPrefix(ps: seq<AnimationPreset>, j: int)
    requires 0 <= j <= |ps|
    ensures StartsWith(MappedCss(ps), MappedCss(ps[..j]))
    decreases |ps| - j
  {
    if j == |ps| {
      assert ps[..j] == ps;
    } else {
      var init := ps[..|ps| - 1];
      assert init[..j] == ps[..j];
      MappedCssPrefix(init, j);
      var a := MappedCss(init);
      var b := MappedCss(ps);
      assert b[..|a|] == a;
      assert b[..|MappedCss(ps[..j])|] == a[..|MappedCss(ps[..j])|];
    }
  }

  /** A preset without a class adds nothing. */
  lemma UnmappedPresetIsSkipped(ps: seq<AnimationPreset>, p: AnimationPreset)
    requires p.name !in ClassMap
    ensures MappedCss(ps + [p]) == MappedCss(ps)
  {
    assert (ps + [p])[..|ps|] == ps;
  }

  /**
   * The generated sheet holds a block for each of the twenty-two catalogue
   * presets, under its mapped class and its keyframes name.
   */
  lemma SheetCoversCatalogue(i: int)
    requires 0 <= i < |AnimationPresets()|
    ensures var p := AnimationPresets()[i];
      p.name in ClassMap
      && Contains(MappedCss(AnimationPresets()), PresetCss(ClassMap[p.name], p))
  {
    EveryPresetIsMapped();
    MappedCssHasEachBlock(AnimationPresets(), i);
  }
}
