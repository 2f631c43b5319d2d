/**
 * The animations panel's decision logic: the icon shown for an animation
 * name, and the entrance and exit option lists built from the catalogue.
 */
module AnimationsPanel {
  import opened JsPrelude
  import opened SliderTypes
  import opened AnimationCatalog
  import opened AnimationMapper

  /** The substring-to-icon rules of `getAnimationIcon`, in the order they are tried. */
  const IconRules: seq<(string, string)> := [
    ("fade in", "fas fa-eye"),
    ("fade out", "fas fa-eye-slash"),
    ("slide in left", "fas fa-arrow-right"),
    ("slide in right", "fas fa-arrow-left"),
    ("slide in up", "fas fa-arrow-down"),
    ("slide in down", "fas fa-arrow-up"),
    ("slide out left", "fas fa-arrow-left"),
    ("slide out right", "fas fa-arrow-right"),
    ("slide out up", "fas fa-arrow-up"),
    ("slide out down", "fas fa-arrow-down"),
    ("scale in big", "fas fa-expand-arrows-alt"),
    ("scale in", "fas fa-search-plus"),
    ("scale out", "fas fa-search-minus"),
    ("rotate in", "fas fa-redo"),
    ("rotate out", "fas fa-undo"),
    ("flip in x", "fas fa-arrows-alt-v"),
    ("flip in y", "fas fa-arrows-alt-h"),
    ("flip out x", "fas fa-arrows-alt-v"),
    ("flip out y", "fas fa-arrows-alt-h"),
    ("bounce in", "fas fa-basketball-ball"),
    ("bounce out", "fas fa-futbol"),
    ("zoom in", "fas fa-plus"),
    ("zoom out", "fas fa-minus"),
    ("roll in", "fas fa-circle"),
    ("roll out", "fas fa-dot-circle"),
    ("light speed in", "fas fa-bolt"),
    ("light speed out", "fas fa-fire"),
    ("swing", "fas fa-pendulum"),
    ("wobble", "fas fa-wave-square"),
    ("shake", "fas fa-hand-rock"),
    ("pulse", "fas fa-heartbeat"),
    ("rubber band", "fas fa-ellipsis-h"),
    ("jello", "fas fa-water")
  ]

  /** The icon of the first rule (from index `from`) whose text occurs in `name`. */
  function FirstRuleIcon(rules: seq<(string, string)>, name: string, from: nat): (r: Option<string>)
    requires from <= |rules|
    ensures r.None? <==> forall j :: from <= j < |rules| ==> !Includes(name, rules[j].0)
    ensures r.Some? ==> exists k :: (from <= k < |rules| && Includes(name, rules[k].0) && r.value == rules[k].1
      && forall j :: from <= j < k ==> !Includes(name, rules[j].0))
    decreases |rules| - from
  {
    if from == |rules| then None
    else if Includes(name, rules[from].0) then Some(rules[from].1)
    else FirstRuleIcon(rules, name, from + 1)
  }

  /** The icon used when no rule matches. */
  function FallbackIcon(name: string): string
  {
    if Includes(name, "in") || Includes(name, "entrance") then "fas fa-sign-in-alt" else "fas fa-sign-out-alt"
  }

  /** `getAnimationIcon`. */
  function GetAnimationIcon(animationName: string): string
  {
    var name := Lower(animationName);
    var r := FirstRuleIcon(IconRules, name, 0);
    if r.Some? then r.value else FallbackIcon(name)
  }

  /**
   * The first rule whose text occurs in the lower-cased name decides the icon,
   * whatever later rules also match.
   */
  lemma FirstMatchWins(animationName: string, k: int)
    requires 0 <= k < |IconRules|
    requires Contains(Lower(animationName), IconRules[k].0)
    requires forall j :: 0 <= j < k ==> !Contains(Lower(animationName), IconRules[j].0)
    ensures GetAnimationIcon(animationName) == IconRules[k].1
  {
    var r := FirstRuleIcon(IconRules, Lower(animationName), 0);
    var k' :| 0 <= k' < |IconRules| && Includes(Lower(animationName), IconRules[k'].0) && r.value == IconRules[k'].1
      && forall j :: 0 <= j < k' ==> !Includes(Lower(animationName), IconRules[j].0);
    assert k' == k;
  }

  /** With no rule matching, a name holding "in" or "entrance" gets the sign-in icon and any other the sign-out icon. */
  lemma FallbackRule(animationName: string)
    requires forall j :: 0 <= j < |IconRules| ==> !Contains(Lower(animationName), IconRules[j].0)
    ensures Contains(Lower(animationName), "in") ==> GetAnimationIcon(animationName) == "fas fa-sign-in-alt"
    ensures !Contains(Lower(animationName), "in") && !Contains(Lower(animationName), "entrance") ==>
      GetAnimationIcon(animationName) == "fas fa-sign-out-alt"
  {
  }

  /** "Scale In Big" is caught by its own rule before the shorter "scale in" rule. */
  lemma ScaleInBigIcon(animationName: string)
    requires animationName == "Scale In Big"
    ensures GetAnimationIcon(animationName) == "fas fa-expand-arrows-alt"
  {
    var name := Lower(animationName);
    assert name == "scale in big";
    forall j | 0 <= j < 10 ensures !Contains(name, IconRules[j].0) {
      AbsentByChar(name, IconRules[j].0, 'd');
    }
    ContainsItself(name);
    FirstMatchWins(animationName, 10);
  }

  /** A name that lower-cases to a rule's text contains that rule's text. */
  lemma NameIsRule(animationName: string, lowered: string, k: int)
    requires 0 <= k < |IconRules| && IconRules[k].0 == lowered
    requires |animationName| == |lowered| && forall j :: 0 <= j < |animationName| ==> LowerChar(animationName[j]) == lowered[j]
    ensures Contains(Lower(animationName), IconRules[k].0)
  {
    LowerPointwise(animationName, lowered);
    ContainsItself(lowered);
  }

  lemma NameIcons0To3(i: int)
    requires 0 <= i < 4 <= |PresetNames|
    ensures exists k :: 0 <= k < |IconRules| && Contains(Lower(PresetNames[i]), IconRules[k].0)
  {
    if i == 0 {
      assert PresetNames[i] == "Fade In";
      NameIsRule(PresetNames[i], "fade in", 0);
    } else if i == 1 {
      assert PresetNames[i] == "Slide In Left";
      NameIsRule(PresetNames[i], "slide in left", 2);
    } else if i == 2 {
      assert PresetNames[i] == "Slide In Right";
      NameIsRule(PresetNames[i], "slide in right", 3);
    } else if i == 3 {
      assert PresetNames[i] == "Slide In Up";
      NameIsRule(PresetNames[i], "slide in up", 4);
    }
  }

  lemma NameIcons4To7(i: int)
    requires 4 <= i < 8 <= |PresetNames|
    ensures exists k :: 0 <= k < |IconRules| && Contains(Lower(PresetNames[i]), IconRules[k].0)
  {
    if i == 4 {
      assert PresetNames[i] == "Slide In Down";
      NameIsRule(PresetNames[i], "slide in down", 5);
    } else if i == 5 {
      assert PresetNames[i] == "Scale In";
      NameIsRule(PresetNames[i], "scale in", 11);
    } else if i == 6 {
      assert PresetNames[i] == "Scale In Big";
      NameIsRule(PresetNames[i], "scale in big", 10);
    } else if i == 7 {
      assert PresetNames[i] == "Rotate In";
      NameIsRule(PresetNames[i], "rotate in", 13);
    }
  }

  lemma NameIcons8To11(i: int)
    requires 8 <= i < 12 <= |PresetNames|
    ensures exists k :: 0 <= k < |IconRules| && Contains(Lower(PresetNames[i]), IconRules[k].0)
  {
    if i == 8 {
      assert PresetNames[i] == "Flip In X";
      NameIsRule(PresetNames[i], "flip in x", 15);
    } else if i == 9 {
      assert PresetNames[i] == "Flip In Y";
      NameIsRule(PresetNames[i], "flip in y", 16);
    } else if i == 10 {
      assert PresetNames[i] == "Bounce In";
      NameIsRule(PresetNames[i], "bounce in", 19);
    } else if i == 11 {
      assert PresetNames[i] == "Zoom In";
      NameIsRule(PresetNames[i], "zoom in", 21);
    }
  }

  lemma NameIcons12To15(i: int)
    requires 12 <= i < 16 <= |PresetNames|
    ensures exists k :: 0 <= k < |IconRules| && Contains(Lower(PresetNames[i]), IconRules[k].0)
  {
    if i == 12 {
      assert PresetNames[i] == "Fade Out";
      NameIsRule(PresetNames[i], "fade out", 1);
    } else if i == 13 {
      assert PresetNames[i] == "Slide Out Left";
      NameIsRule(PresetNames[i], "slide out left", 6);
    } else if i == 14 {
      assert PresetNames[i] == "Slide Out Right";
      NameIsRule(PresetNames[i], "slide out right", 7);
    } else if i == 15 {
      assert PresetNames[i] == "Slide Out Up";
      NameIsRule(PresetNames[i], "slide out up", 8);
    }
  }

  lemma NameIcons16To19(i: int)
    requires 16 <= i < 20 <= |PresetNames|
    ensures exists k :: 0 <= k < |IconRules| && Contains(Lower(PresetNames[i]), IconRules[k].0)
  {
    if i == 16 {
      assert PresetNames[i] == "Slide Out Down";
      NameIsRule(PresetNames[i], "slide out down", 9);
    } else if i == 17 {
      assert PresetNames[i] == "Scale Out";
      NameIsRule(PresetNames[i], "scale out", 12);
    } else if i == 18 {
      assert PresetNames[i] == "Zoom Out";
      NameIsRule(PresetNames[i], "zoom out", 22);
    } else if i == 19 {
      assert PresetNames[i] == "Rotate Out";
      NameIsRule(PresetNames[i], "rotate out", 14);
    }
  }

  lemma NameIcons20To21(i: int)
    requires 20 <= i < 22 <= |PresetNames|
    ensures exists k :: 0 <= k < |IconRules| && Contains(Lower(PresetNames[i]), IconRules[k].0)
  {
    if i == 20 {
      assert PresetNames[i] == "Flip Out X";
      NameIsRule(PresetNames[i], "flip out x", 17);
    } else if i == 21 {
      assert PresetNames[i] == "Bounce Out";
      NameIsRule(PresetNames[i], "bounce out", 20);
    }
  }

  /** Every catalogue preset's name is caught by one of the specific rules, never by the fallback. */
  lemma CatalogIconsAreSpecific(i: int)
    requires 0 <= i < |AnimationPresets()|
    ensures FirstRuleIcon(IconRules, Lower(AnimationPresets()[i].name), 0).Some?
  {
    CatalogNames();
    PresetNameIconIsSpecific(i);
  }

  /** The specific rule that catches the `i`-th listed preset name. */
  lemma PresetNameIconIsSpecific(i: int)
    requires 0 <= i < |PresetNames|
    ensures FirstRuleIcon(IconRules, Lower(PresetNames[i]), 0).Some?
  {
    if i < 4 { NameIcons0To3(i); }
    else if i < 8 { NameIcons4To7(i); }
    else if i < 12 { NameIcons8To11(i); }
    else if i < 16 { NameIcons12To15(i); }
    else if i < 20 { NameIcons16To19(i); }
    else { NameIcons20To21(i); }
  }

  // ------------------------------------------------------------ option lists

  /** One button of the animation selector; `caption` is its `label`. */
  datatype PanelOption = PanelOption(value: string, caption: string, icon: string, description: string)

  /** The button for one preset: its name twice, its icon and "<duration>ms duration". */
  function PresetOption(preset: AnimationPreset): PanelOption
  {
    PanelOption(preset.name, preset.name, GetAnimationIcon(preset.name), IntToString(preset.duration) + "ms duration")
  }

  /** `.map(preset => ({ ... }))`: one button per preset, in order; OptionAt states each button's contents. */
  function OptionsOf(ps: seq<AnimationPreset>): (r: seq<PanelOption>)
    ensures |r| == |ps|
  {
    if ps == [] then [] else [PresetOption(ps[0])] + OptionsOf(ps[1..])
  }

  /** The i-th option is the i-th preset's button. */
  lemma {:induction false} OptionAt(ps: seq<AnimationPreset>, i: int)
    requires 0 <= i < |ps|
    ensures OptionsOf(ps)[i] == PresetOption(ps[i])
    decreases i
  {
    if i > 0 {
      OptionAt(ps[1..], i - 1);
    }
  }

  /** The entrance or the exit selector's options: the catalogue filtered by type, then mapped. */
  function PanelOptions(kind: AnimationKind): seq<PanelOption>
  {
    OptionsOf(OfKind(AnimationPresets(), kind))
  }

  /** A preset's button shows its name and its duration. */
  lemma PresetOptionFields(preset: AnimationPreset)
    ensures PresetOption(preset).value == preset.name && PresetOption(preset).caption == preset.name
    ensures PresetOption(preset).description == IntToString(preset.duration) + "ms duration"
  {
  }

  /** A preset whose name some rule catches gets that rule's icon on its button. */
  lemma OptionIcon(preset: AnimationPreset)
    requires FirstRuleIcon(IconRules, Lower(preset.name), 0).Some?
    ensures exists k :: 0 <= k < |IconRules| && PresetOption(preset).icon == IconRules[k].1
  {
  }

  /**
   * The i-th option of a filtered list is the button of a preset of that type
   * from the list: the i-th filtered name, described by that preset's duration.
   */
  lemma OptionOfKindAt(all: seq<AnimationPreset>, kind: AnimationKind, i: int)
    requires 0 <= i < |OfKind(all, kind)|
    ensures var o := OptionsOf(OfKind(all, kind))[i];
      o.value == Names(OfKind(all, kind))[i] && o.caption == o.value
      && exists j :: (0 <= j < |all| && all[j].kind == kind && all[j] == OfKind(all, kind)[i]
           && o.value == all[j].name && o.description == IntToString(all[j].duration) + "ms duration"
           && o.icon == GetAnimationIcon(all[j].name))
  {
    var ps := OfKind(all, kind);
    assert ps[i] in ps;
    var j :| 0 <= j < |all| && all[j] == ps[i];
    OptionAt(ps, i);
    PresetOptionFields(all[j]);
  }

  /**
   * A selector offers exactly the catalogue's presets of its type, in
   * catalogue order (twelve entrance and ten exit options), each described by
   * its duration and shown with a specific rule's icon, never the fallback.
   */
  lemma PanelOptionsOfKind(kind: AnimationKind, i: int)
    requires 0 <= i < |PanelOptions(kind)|
    ensures |PanelOptions(kind)| == |GetAvailableAnimations(Some(kind))|
    ensures var o := PanelOptions(kind)[i];
      o.value == GetAvailableAnimations(Some(kind))[i] && o.caption == o.value
      && (exists j :: (0 <= j < |AnimationPresets()| && AnimationPresets()[j].kind == kind
           && o.value == AnimationPresets()[j].name
           && o.description == IntToString(AnimationPresets()[j].duration) + "ms duration"))
      && (exists k :: 0 <= k < |IconRules| && o.icon == IconRules[k].1)
  {
    var all := AnimationPresets();
    OptionOfKindAt(all, kind, i);
    var j :| (0 <= j < |all| && all[j].kind == kind && all[j] == OfKind(all, kind)[i]
           && PanelOptions(kind)[i].value == all[j].name
           && PanelOptions(kind)[i].description == IntToString(all[j].duration) + "ms duration"
           && PanelOptions(kind)[i].icon == GetAnimationIcon(all[j].name));
    CatalogIconsAreSpecific(j);
    OptionIcon(all[j]);
  }
}
