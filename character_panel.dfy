/**
 * The character panel: the reset table, the four character presets and the
 * underline/strikethrough option editors. Every control calls the sidebar's
 * `updateLayerProperty` with a `style.<key>` path; the reset and preset
 * buttons call it once per key in a single click handler, so every call is
 * computed from the layer of the same render.
 */
module CharacterPanel {
  import opened JsPrelude
  import opened SliderTypes
  import opened SliderStore
  import opened SidebarEdits

  /** One `onUpdateProperty('style.<key>', value)` call. */
  datatype StyleWrite = StyleWrite(key: string, value: Value)

  // ------------------------------------------------------------ the reset table

  /** The fourteen settings the reset button restores, in the order it writes them. */
  const ResetProperties: seq<string> := [
    "verticalScale", "horizontalScale", "baseline", "characterRotation",
    "characterSpacing", "kerning", "leadingType", "caps", "position",
    "ligatures", "alternates", "hyphenation", "underlineOptions", "strikethroughOptions"]

  /** `{ style: 'none' }`. */
  const NoLine: Value := Obj(map["style" := Str("none")])

  /** The value the reset writes for one setting: the conditional chain, tried in order. */
  function ResetValue(prop: string): Value
  {
    if prop == "kerning" || prop == "leadingType" then Str("auto")
    else if prop == "verticalScale" || prop == "horizontalScale" then Num(100.0)
    else if prop == "caps" || prop == "position" then Str("normal")
    else if prop == "underlineOptions" || prop == "strikethroughOptions" then NoLine
    else if Includes(prop, "Scale") then Num(100.0)
    else Num(0.0)
  }

  /** The reset button's calls: one per setting, in list order. */
  function ResetWrites(): (r: seq<StyleWrite>)
    ensures |r| == |ResetProperties|
  {
    seq(|ResetProperties|, i requires 0 <= i < |ResetProperties| =>
      StyleWrite(ResetProperties[i], ResetValue(ResetProperties[i])))
  }

  /** The keys a list of writes touches, in order. */
  function Keys(ws: seq<StyleWrite>): (ks: seq<string>)
    ensures |ks| == |ws|
    ensures forall i :: 0 <= i < |ws| ==> ks[i] == ws[i].key
  {
    if ws == [] then [] else [ws[0].key] + Keys(ws[1..])
  }

  predicate Distinct(ks: seq<string>)
  {
    forall i, j :: 0 <= i < j < |ks| ==> ks[i] != ks[j]
  }

  /** The reset writes the fourteen settings in list order, each exactly once, none of them a geometry key. */
  lemma ResetKeys()
    ensures Keys(ResetWrites()) == ResetProperties && Distinct(ResetProperties)
    ensures forall i :: 0 <= i < |ResetProperties| ==> !IsGeometryKey(ResetProperties[i])
  {
    ResetWriteKeys();
    ResetNamesDistinct();
    ResetNamesNotGeometry();
  }

  lemma ResetWriteKeys()
    ensures Keys(ResetWrites()) == ResetProperties
  {
    var ps := ResetProperties;
    var ks := Keys(ResetWrites());
    forall i | 0 <= i < |ps| ensures ks[i] == ps[i] { }
  }

  lemma ResetNamesNotGeometry()
    ensures forall i :: 0 <= i < |ResetProperties| ==> !IsGeometryKey(ResetProperties[i])
  {
    var ps := ResetProperties;
    var lengths := [13, 15, 8, 17, 16, 7, 11, 4, 8, 9, 10, 11, 16, 20];
    var firsts := "vhbcckl" + "cplahus";
    forall i | 0 <= i < |ps| ensures |ps[i]| == lengths[i] && ps[i][0] == firsts[i] { }
  }

  /** No two reset names are equal: they differ in length or in their first letter. */
  lemma ResetNamesDistinct()
    ensures Distinct(ResetProperties)
  {
    var ps := ResetProperties;
    var lengths := [13, 15, 8, 17, 16, 7, 11, 4, 8, 9, 10, 11, 16, 20];
    var firsts := "vhbcckl" + "cplahus";
    forall i | 0 <= i < |ps| ensures |ps[i]| == lengths[i] && ps[i][0] == firsts[i] { }
    forall i, j | 0 <= i < j < |ps| ensures ps[i] != ps[j] {
      assert lengths[i] != lengths[j] || firsts[i] != firsts[j];
    }
  }

  /**
   * The reset values: kerning and leading type become 'auto', the two scales
   * 100, caps and position 'normal', both line options `{ style: 'none' }`,
   * and the other six settings 0.
   */
  lemma ResetValueAt(i: int)
    requires 0 <= i < |ResetProperties|
    ensures ResetValue(ResetProperties[i]) ==
        if i == 5 || i == 6 then Str("auto")
        else if i == 0 || i == 1 then Num(100.0)
        else if i == 7 || i == 8 then Str("normal")
        else if i == 12 || i == 13 then NoLine
        else Num(0.0)
  {
    var p := ResetProperties[i];
    if i in {2, 3, 9, 10, 11} {
      AbsentByChar(p, "Scale", 'S');
    } else if i == 4 {
      AbsentByChar(p, "Scale", 'l');
    }
  }

  // ------------------------------------------------------------ the character presets

  /** A preset button: its name and its settings in object order. */
  datatype CharacterPreset = CharacterPreset(name: string, settings: seq<StyleWrite>)

  const CharacterPresets: seq<CharacterPreset> := [
    CharacterPreset("Display Text", [
      StyleWrite("characterSpacing", Num(50.0)), StyleWrite("verticalScale", Num(120.0)),
      StyleWrite("horizontalScale", Num(95.0)), StyleWrite("caps", Str("small-caps"))]),
    CharacterPreset("Condensed", [
      StyleWrite("horizontalScale", Num(75.0)), StyleWrite("characterSpacing", Num(-20.0)),
      StyleWrite("verticalScale", Num(110.0))]),
    CharacterPreset("Extended", [
      StyleWrite("horizontalScale", Num(125.0)), StyleWrite("characterSpacing", Num(30.0)),
      StyleWrite("verticalScale", Num(95.0))]),
    CharacterPreset("Elegant", [
      StyleWrite("ligatures", Bool(true)), StyleWrite("alternates", Bool(true)),
      StyleWrite("characterSpacing", Num(15.0)), StyleWrite("baseline", Num(2.0))])]

  /**
   * Each preset sets distinct non-geometry keys, so applying it can give
   * every key its value.
   */
  lemma PresetsAreWellFormed(i: int)
    requires 0 <= i < |CharacterPresets|
    ensures Distinct(Keys(CharacterPresets[i].settings))
    ensures forall j :: 0 <= j < |CharacterPresets[i].settings| ==> !IsGeometryKey(CharacterPresets[i].settings[j].key)
  {
    var ks := Keys(CharacterPresets[i].settings);
    if i == 0 {
      assert ks == ["characterSpacing", "verticalScale", "horizontalScale", "caps"];
    } else if i == 1 {
      assert ks == ["horizontalScale", "characterSpacing", "verticalScale"];
    } else if i == 2 {
      assert ks == ["horizontalScale", "characterSpacing", "verticalScale"];
    } else {
      assert ks == ["ligatures", "alternates", "characterSpacing", "baseline"];
    }
  }

  // ------------------------------------------------------------ the calls as the source issues them

  /** The actions the sidebar dispatches for the calls, all computed from the state of one render. */
  function IssuedActions(state: SliderState, ws: seq<StyleWrite>): (r: seq<Action>)
    ensures |r| <= |ws|
  {
    if ws == [] then []
    else
      var first := UpdateLayerProperty(state, "style." + ws[0].key, ws[0].value);
      (if first.Some? then [first.value] else []) + IssuedActions(state, ws[1..])
  }

  /** The style each call builds: `{ ...renderedLayer.style, [key]: value }`, from the rendered layer every time. */
  function StaleStyles(layer: Layer, ws: seq<StyleWrite>): (r: seq<Style>)
    ensures |r| == |ws|
    ensures forall i :: 0 <= i < |ws| ==> r[i] == SetStyleKey(layer.style, ws[i].key, ws[i].value)
  {
    seq(|ws|, i requires 0 <= i < |ws| => SetStyleKey(layer.style, ws[i].key, ws[i].value))
  }

  /**
   * With a layer selected on an existing slide, each call dispatches one
   * style-only update of that layer, built from the rendered layer. Without
   * one nothing is dispatched.
   */
  lemma {:induction false} IssuedAreStaleStyleUpdates(state: SliderState, ws: seq<StyleWrite>)
    ensures SelectedLayer(state).None? ==> IssuedActions(state, ws) == []
    ensures SelectedLayer(state).Some? ==>
      IssuedActions(state, ws) ==
        StyleUpdates(CurrentSlide(state).value.id, SelectedLayer(state).value.id, StaleStyles(SelectedLayer(state).value, ws))
  {
    if ws != [] {
      IssuedAreStaleStyleUpdates(state, ws[1..]);
      StartsWithConcat("style.", ws[0].key);
      var layer := SelectedLayer(state);
      if layer.Some? {
        var sid, lid := CurrentSlide(state).value.id, layer.value.id;
        var styles := StaleStyles(layer.value, ws);
        assert StaleStyles(layer.value, ws[1..]) == styles[1..];
        assert StyleUpdates(sid, lid, styles) == [StyleUpdates(sid, lid, styles)[0]] + StyleUpdates(sid, lid, styles[1..]);
      }
    }
  }

  /**
   * As written, a multi-key button keeps only its last key: the store ends
   * exactly as if only the last call had been made. Earlier keys keep their
   * old values.
   */
  lemma ApplyAsWrittenKeepsLastOnly(state: SliderState, ws: seq<StyleWrite>)
    requires SelectedLayer(state).Some? && |ws| > 0
    ensures var layer := SelectedLayer(state).value;
      var last := ws[|ws| - 1];
      ReduceAll(state, IssuedActions(state, ws))
        == Reduce(state, UpdateLayer(CurrentSlide(state).value.id, layer.id,
                                     StyleOnly(SetStyleKey(layer.style, last.key, last.value))))
  {
    var layer := SelectedLayer(state).value;
    IssuedAreStaleStyleUpdates(state, ws);
    StyleWritesCollapse(state, CurrentSlide(state).value.id, layer.id, StaleStyles(layer, ws));
  }

  /**
   * A reset of a layer whose vertical scale is 150 leaves it at 150: the
   * store ends with the layer's style having only strikethroughOptions reset.
   */
  lemma ResetAsWrittenLosesVerticalScale(state: SliderState)
    requires SelectedLayer(state).Some?
    requires StyleGet(SelectedLayer(state).value.style, "verticalScale") == Num(150.0)
    ensures var layer := SelectedLayer(state).value;
      var kept := SetStyleKey(layer.style, "strikethroughOptions", NoLine);
      ReduceAll(state, IssuedActions(state, ResetWrites()))
        == Reduce(state, UpdateLayer(CurrentSlide(state).value.id, layer.id, StyleOnly(kept)))
      && StyleGet(kept, "verticalScale") == Num(150.0)
      && ResetValue("verticalScale") == Num(100.0)
  {
    var ws := ResetWrites();
    ApplyAsWrittenKeepsLastOnly(state, ws);
    assert ws[|ws| - 1] == StyleWrite("strikethroughOptions", NoLine);
    SetStyleKeyKeepsOthers(SelectedLayer(state).value.style, "strikethroughOptions", NoLine, "verticalScale");
  }

  // ------------------------------------------------------------ the intended batch write

  /** Every write applied in turn to the style the previous one produced. */
  function StyleFold(s: Style, ws: seq<StyleWrite>): Style
    decreases |ws|
  {
    if ws == [] then s else StyleFold(SetStyleKey(s, ws[0].key, ws[0].value), ws[1..])
  }

  /** A fold leaves every key it does not write as it was. */
  lemma {:induction false} StyleFoldKeepsOthers(s: Style, ws: seq<StyleWrite>, other: string)
    requires other !in Keys(ws)
    ensures StyleGet(StyleFold(s, ws), other) == StyleGet(s, other)
    decreases |ws|
  {
    if ws != [] {
      assert other != Keys(ws)[0];
      assert Keys(ws[1..]) == Keys(ws)[1..];
      StyleFoldKeepsOthers(SetStyleKey(s, ws[0].key, ws[0].value), ws[1..], other);
      SetStyleKeyKeepsOthers(s, ws[0].key, ws[0].value, other);
    }
  }

  /** With distinct keys, every key a fold writes reads back the value written for it. */
  lemma {:induction false} StyleFoldReadBack(s: Style, ws: seq<StyleWrite>, j: int)
    requires Distinct(Keys(ws)) && 0 <= j < |ws|
    requires IsGeometryKey(ws[j].key) ==> ws[j].value.Num?
    ensures StyleGet(StyleFold(s, ws), ws[j].key) == ws[j].value
    decreases |ws|
  {
    var ks := Keys(ws);
    assert Keys(ws[1..]) == ks[1..];
    var next := SetStyleKey(s, ws[0].key, ws[0].value);
    if j == 0 {
      assert ws[0].key !in ks[1..] by {
        forall m | 0 <= m < |ks[1..]| ensures ks[1..][m] != ws[0].key {
          assert ks[1..][m] == ks[m + 1];
        }
      }
      StyleFoldKeepsOthers(next, ws[1..], ws[0].key);
      SetStyleKeyReadBack(s, ws[0].key, ws[0].value);
    } else {
      assert Distinct(ks[1..]) by {
        forall a, b | 0 <= a < b < |ks[1..]| ensures ks[1..][a] != ks[1..][b] {
          assert ks[1..][a] == ks[a + 1] && ks[1..][b] == ks[b + 1];
        }
      }
      StyleFoldReadBack(next, ws[1..], j - 1);
    }
  }

  /**
   * The evidently intended multi-key write: one style-only update carrying
   * every write folded into the rendered layer's style. Nothing without a
   * selected layer on an existing slide.
   */
  function BatchAction(state: SliderState, ws: seq<StyleWrite>): (r: Option<Action>)
    ensures r.Some? <==> SelectedLayer(state).Some?
  {
    var layer := SelectedLayer(state);
    if layer.None? then None
    else Some(UpdateLayer(CurrentSlide(state).value.id, layer.value.id, StyleOnly(StyleFold(layer.value.style, ws))))
  }

  /**
   * The batched reset gives all fourteen settings their reset values and
   * leaves every other style key as it was.
   */
  lemma BatchResetRestoresAll(state: SliderState, i: int, other: string)
    requires SelectedLayer(state).Some? && 0 <= i < |ResetProperties|
    requires other !in ResetProperties
    ensures var s := SelectedLayer(state).value.style;
      var a := BatchAction(state, ResetWrites()).value;
      a.UpdateLayer? && a.updates.style.Some?
      && StyleGet(a.updates.style.value, ResetProperties[i]) == ResetValue(ResetProperties[i])
      && StyleGet(a.updates.style.value, other) == StyleGet(s, other)
  {
    var s := SelectedLayer(state).value.style;
    ResetKeys();
    assert ResetWrites()[i].key == ResetProperties[i];
    StyleFoldReadBack(s, ResetWrites(), i);
    StyleFoldKeepsOthers(s, ResetWrites(), other);
  }

  /** A batched preset gives each of its keys its value and leaves every other key as it was. */
  lemma BatchPresetApplies(state: SliderState, p: int, j: int, other: string)
    requires SelectedLayer(state).Some? && 0 <= p < |CharacterPresets|
    requires 0 <= j < |CharacterPresets[p].settings|
    requires other !in Keys(CharacterPresets[p].settings)
    ensures var s := SelectedLayer(state).value.style;
      var w := CharacterPresets[p].settings[j];
      var a := BatchAction(state, CharacterPresets[p].settings).value;
      a.UpdateLayer? && a.updates.style.Some?
      && StyleGet(a.updates.style.value, w.key) == w.value
      && StyleGet(a.updates.style.value, other) == StyleGet(s, other)
  {
    var s := SelectedLayer(state).value.style;
    PresetsAreWellFormed(p);
    StyleFoldReadBack(s, CharacterPresets[p].settings, j);
    StyleFoldKeepsOthers(s, CharacterPresets[p].settings, other);
  }

  // ------------------------------------------------------------ underline and strikethrough

  /** `{ ...v }`: an object's own fields; undefined, null, numbers and booleans spread to nothing. */
  function FieldsOf(v: Value): map<string, Value>
  {
    if v.Obj? then v.fields else map[]
  }

  /** `{ ...options, [field]: value }`: the line-options object an editor writes back. */
  function MergeOption(options: Value, field: string, value: Value): (r: Value)
    ensures r.Obj?
  {
    Obj(FieldsOf(options)[field := value])
  }

  /** The merged field reads back its new value; every other field keeps its old one. */
  lemma MergeOptionKeepsRest(options: Value, field: string, value: Value, other: string)
    requires other != field
    ensures Get(MergeOption(options, field, value).fields, field) == value
    ensures Get(MergeOption(options, field, value).fields, other) == Get(FieldsOf(options), other)
  {
  }

  /**
   * A line editor — style button, thickness slider or colour picker — writes
   * `style.<line>` with the old options merged with its one field, and
   * changes no other style key.
   */
  lemma LineEditMerges(state: SliderState, line: string, field: string, value: Value, other: string)
    requires line == "underlineOptions" || line == "strikethroughOptions"
    requires SelectedLayer(state).Some? && other != line
    ensures var s := SelectedLayer(state).value.style;
      var a := UpdateLayerProperty(state, "style." + line, MergeOption(StyleGet(s, line), field, value));
      a.Some? && a.value.UpdateLayer? && a.value.updates.style.Some?
      && StyleGet(a.value.updates.style.value, line) == MergeOption(StyleGet(s, line), field, value)
      && StyleGet(a.value.updates.style.value, other) == StyleGet(s, other)
  {
    var s := SelectedLayer(state).value.style;
    StartsWithConcat("style.", line);
    SetStyleKeyReadBack(s, line, MergeOption(StyleGet(s, line), field, value));
    SetStyleKeyKeepsOthers(s, line, MergeOption(StyleGet(s, line), field, value), other);
  }

  /** `options?.style`. */
  function LineStyleField(options: Value): Value
  {
    Get(FieldsOf(options), "style")
  }

  /** `(options?.style || 'none')`: the line style whose button shows as selected. */
  function SelectedLineStyle(options: Value): (r: Value)
    ensures Truthy(r)
  {
    var f := LineStyleField(options);
    if Truthy(f) then f else Str("none")
  }

  /** `options?.style !== 'none'`: whether the thickness and colour controls show, as written. */
  predicate ShowsLineControlsAsWritten(options: Value)
  {
    LineStyleField(options) != Str("none")
  }

  /**
   * As written, a layer with no line options shows the None button selected
   * and the thickness and colour controls at the same time.
   */
  lemma NoOptionsShowsControlsUnderNone()
    ensures SelectedLineStyle(Undefined) == Str("none") && ShowsLineControlsAsWritten(Undefined)
  {
  }

  /** The evidently intended test: the controls show exactly when a line style other than None is selected. */
  predicate ShowsLineControls(options: Value)
  {
    SelectedLineStyle(options) != Str("none")
  }

  /**
   * With the intended test the controls show exactly when the selected
   * button is not None, and agree with the written test whenever a style is
   * set.
   */
  lemma LineControlsFollowSelection(options: Value)
    ensures ShowsLineControls(options) <==> SelectedLineStyle(options) != Str("none")
    ensures !ShowsLineControls(Undefined) && !ShowsLineControls(NoLine)
    ensures Truthy(LineStyleField(options)) ==> (ShowsLineControls(options) <==> ShowsLineControlsAsWritten(options))
  {
    assert LineStyleField(NoLine) == Str("none");
  }
}
