/**
 * The canvas animation-preview hook: the CSS class of an animation name, the
 * per-layer animation state written when a preview starts, and the pure part
 * of previewing a whole slide (the delay-ordered schedule and the time at
 * which preview mode ends). The timers themselves are not modelled.
 */
module CanvasAnimations {
  import opened JsPrelude
  import opened SliderTypes

  /** `getAnimationClassName`: lower-case, each whitespace run becomes one '-'. */
  function AnimationClassName(name: string): (r: string)
  {
    ReplaceSpaceRuns(Lower(name), "-")
  }

  /** A class name never contains whitespace. */
  lemma AnimationClassNameHasNoSpace(name: string)
    ensures forall i :: 0 <= i < |AnimationClassName(name)| ==> !IsJsSpace(AnimationClassName(name)[i])
  {
    ReplaceSpaceRunsNoSpace(Lower(name), "-");
  }

  /** "Slide In Left" becomes "slide-in-left". */
  lemma AnimationClassNameExample(name: string)
    requires name == "Slide In Left"
    ensures AnimationClassName(name) == "slide-in-left"
  {
    SlideInLeftSpaced();
    assert Lower(name) == "slide in left";
    assert "slide in left" == "slide" + ([' '] + ("in" + ([' '] + "left")));
  }

  lemma InLeftSpaced()
    ensures ReplaceSpaceRuns("in" + ([' '] + "left"), "-") == "in-left"
  {
    ReplaceSpaceRunsIdentity("left", "-");
    ReplaceSpaceRunsBlank("left", "-");
    ReplaceSpaceRunsWord("in", [' '] + "left", "-");
  }

  lemma SlideInLeftSpaced()
    ensures ReplaceSpaceRuns("slide" + ([' '] + ("in" + ([' '] + "left"))), "-") == "slide-in-left"
  {
    InLeftSpaced();
    ReplaceSpaceRunsBlank("in" + ([' '] + "left"), "-");
    ReplaceSpaceRunsWord("slide", [' '] + ("in" + ([' '] + "left")), "-");
  }

  /** One layer's entry in `animationStates`. */
  datatype LayerAnimationState = LayerAnimationState(isAnimating: bool, currentAnimation: Option<AnimationKind>)

  type AnimationStates = map<string, LayerAnimationState>

  /** The state write of `previewLayerAnimation`: this layer animates `kind`; the other entries stay. */
  function StartLayerAnimation(states: AnimationStates, layer: Layer, kind: AnimationKind): (r: AnimationStates)
    ensures r.Keys == states.Keys + {layer.id}
    ensures r[layer.id] == LayerAnimationState(true, Some(kind))
    ensures forall id :: id in states && id != layer.id ==> r[id] == states[id]
  {
    states[layer.id := LayerAnimationState(true, Some(kind))]
  }

  /** The name `previewLayerAnimation` looks up for the kind. */
  function AnimationNameFor(layer: Layer, kind: AnimationKind): string
  {
    if kind == Entrance then layer.animation.entrance else layer.animation.exit
  }

  // ------------------------------------------------------------ the preview schedule

  predicate SortedByDelay(s: seq<Layer>)
  {
    forall i, j :: 0 <= i < j < |s| ==> s[i].animation.delay <= s[j].animation.delay
  }

  /** Insert after every layer whose delay is at most the new one's. */
  function InsertByDelay(s: seq<Layer>, x: Layer): (r: seq<Layer>)
    ensures multiset(r) == multiset(s) + multiset{x}
    ensures |r| == |s| + 1
    decreases |s|
  {
    if s == [] then [x]
    else if s[|s| - 1].animation.delay <= x.animation.delay then s + [x]
    else
      assert s == s[..|s| - 1] + [s[|s| - 1]];
      InsertByDelay(s[..|s| - 1], x) + [s[|s| - 1]]
  }

  /** `[...layers].sort((a, b) => a.animation.delay - b.animation.delay)`: a stable sort. */
  function SortByDelay(s: seq<Layer>): (r: seq<Layer>)
    ensures multiset(r) == multiset(s)
    decreases |s|
  {
    if s == [] then []
    else
      assert s == s[..|s| - 1] + [s[|s| - 1]];
      InsertByDelay(SortByDelay(s[..|s| - 1]), s[|s| - 1])
  }

  lemma {:induction false} InsertKeepsSorted(s: seq<Layer>, x: Layer)
    requires SortedByDelay(s)
    ensures SortedByDelay(InsertByDelay(s, x))
    decreases |s|
  {
    if s != [] && s[|s| - 1].animation.delay > x.animation.delay {
      var init := s[..|s| - 1];
      assert SortedByDelay(init);
      InsertKeepsSorted(init, x);
      var r := InsertByDelay(init, x);
      assert multiset(r) == multiset(init) + multiset{x};
      forall i | 0 <= i < |r| ensures r[i].animation.delay <= s[|s| - 1].animation.delay {
        assert r[i] in multiset(r);
        assert r[i] == x || r[i] in multiset(init);
        if r[i] != x {
          var k :| 0 <= k < |init| && init[k] == r[i];
          assert init[k] == s[k];
        }
      }
    }
  }

  lemma {:induction false} SortIsSorted(s: seq<Layer>)
    ensures SortedByDelay(SortByDelay(s))
    decreases |s|
  {
    if s != [] {
      SortIsSorted(s[..|s| - 1]);
      InsertKeepsSorted(SortByDelay(s[..|s| - 1]), s[|s| - 1]);
    }
  }

  /** The layers of a list whose delay is `d`, in list order. */
  function WithDelay(s: seq<Layer>, d: real): seq<Layer>
  {
    if s == [] then []
    else WithDelay(s[..|s| - 1], d) + (if s[|s| - 1].animation.delay == d then [s[|s| - 1]] else [])
  }

  lemma WithDelayAppend(s: seq<Layer>, x: Layer, d: real)
    ensures WithDelay(s + [x], d) == WithDelay(s, d) + (if x.animation.delay == d then [x] else [])
  {
    assert (s + [x])[..|s + [x]| - 1] == s;
  }

  lemma {:induction false} WithDelayAllBelow(s: seq<Layer>, d: real)
    requires forall i :: 0 <= i < |s| ==> s[i].animation.delay < d
    ensures WithDelay(s, d) == []
    decreases |s|
  {
    if s != [] {
      WithDelayAllBelow(s[..|s| - 1], d);
    }
  }

  lemma {:induction false} InsertStable(s: seq<Layer>, x: Layer, d: real)
    ensures WithDelay(InsertByDelay(s, x), d) == WithDelay(s, d) + (if x.animation.delay == d then [x] else [])
    decreases |s|
  {
    if s == [] {
      WithDelayAppend([], x, d);
    } else if s[|s| - 1].animation.delay <= x.animation.delay {
      WithDelayAppend(s, x, d);
    } else {
      var init, last := s[..|s| - 1], s[|s| - 1];
      assert s == init + [last];
      assert InsertByDelay(s, x) == InsertByDelay(init, x) + [last];
      InsertStable(init, x, d);
      WithDelayAppend(InsertByDelay(init, x), last, d);
      WithDelayAppend(init, last, d);
    }
  }

  /**
   * The sort is stable: the layers sharing any one delay keep their original
   * relative order, so the copy differs from the input only across delays.
   */
  lemma {:induction false} SortIsStable(s: seq<Layer>, d: real)
    ensures WithDelay(SortByDelay(s), d) == WithDelay(s, d)
    decreases |s|
  {
    if s != [] {
      var init, last := s[..|s| - 1], s[|s| - 1];
      SortIsStable(init, d);
      InsertStable(SortByDelay(init), last, d);
      var tail := if last.animation.delay == d then [last] else [];
      assert WithDelay(s, d) == WithDelay(init, d) + tail;
      assert SortByDelay(s) == InsertByDelay(SortByDelay(init), last);
    }
  }

  lemma SplitLast(s: seq<Layer>)
    requires s != []
    ensures s == s[..|s| - 1] + [s[|s| - 1]]
  {
  }

  /** A layer whose delay is at least the last one's is appended. */
  lemma InsertAfterLast(s: seq<Layer>, x: Layer)
    requires s == [] || s[|s| - 1].animation.delay <= x.animation.delay
    ensures InsertByDelay(s, x) == s + [x]
  {
  }

  /** Without its last layer an ordered list stays ordered, and that layer's delay is at least the new last one's. */
  lemma SortedSplit(s: seq<Layer>)
    requires SortedByDelay(s) && s != []
    ensures SortedByDelay(s[..|s| - 1])
    ensures |s| >= 2 ==> s[..|s| - 1][|s| - 2].animation.delay <= s[|s| - 1].animation.delay
  {
  }

  /** An already ordered list is its own sorted copy. */
  lemma {:induction false} SortOfSortedIsIdentity(s: seq<Layer>)
    requires SortedByDelay(s)
    ensures SortByDelay(s) == s
    decreases |s|
  {
    if s != [] {
      var init, last := s[..|s| - 1], s[|s| - 1];
      SortedSplit(s);
      SortOfSortedIsIdentity(init);
      InsertAfterLast(init, last);
      SplitLast(s);
    }
  }

  /** `Math.max(...layers.map(l => l.animation.delay + l.animation.duration))`. */
  function MaxEnd(s: seq<Layer>): (m: real)
    requires s != []
    ensures forall i :: 0 <= i < |s| ==> s[i].animation.delay + s[i].animation.duration <= m
    ensures exists i :: 0 <= i < |s| && s[i].animation.delay + s[i].animation.duration == m
    decreases |s|
  {
    var last := s[|s| - 1];
    if |s| == 1 then last.animation.delay + last.animation.duration
    else
      var m := MaxEnd(s[..|s| - 1]);
      assert forall i :: 0 <= i < |s| - 1 ==> s[..|s| - 1][i] == s[i];
      Max(m, last.animation.delay + last.animation.duration)
  }

  /** The gap between the last animation's end and the end of preview mode. */
  const PreviewTail: real := 500.0

  /** What `previewAllAnimations` arranges: the entrance order and when preview mode ends. */
  datatype PreviewPlan = PreviewPlan(order: seq<Layer>, previewEndsAt: real)

  function PreviewAll(layers: seq<Layer>): (p: Option<PreviewPlan>)
  {
    if layers == [] then None
    else
      var sorted := SortByDelay(layers);
      assert multiset(sorted) == multiset(layers);
      assert sorted != [] by {
        assert layers[0] in multiset(layers);
      }
      Some(PreviewPlan(sorted, MaxEnd(sorted) + PreviewTail))
  }

  /** Sorting does not change the largest end time. */
  lemma MaxEndOfPermutation(a: seq<Layer>, b: seq<Layer>)
    requires a != [] && multiset(a) == multiset(b)
    ensures b != [] && MaxEnd(a) == MaxEnd(b)
  {
    assert a[0] in multiset(b);
    var i :| 0 <= i < |a| && a[i].animation.delay + a[i].animation.duration == MaxEnd(a);
    assert a[i] in multiset(b);
    var j :| 0 <= j < |b| && b[j] == a[i];
    var k :| 0 <= k < |b| && b[k].animation.delay + b[k].animation.duration == MaxEnd(b);
    assert b[k] in multiset(a);
    var l :| 0 <= l < |a| && a[l] == b[k];
  }

  /**
   * An empty list schedules nothing. Otherwise the entrance order is the layers
   * sorted stably by delay (a permutation of the input, which is itself left as
   * it is), and preview mode ends 500 ms after the latest end time of any layer.
   */
  lemma PreviewAllPlan(layers: seq<Layer>)
    ensures PreviewAll(layers).None? <==> layers == []
    ensures PreviewAll(layers).Some? ==>
      var p := PreviewAll(layers).value;
      SortedByDelay(p.order) && multiset(p.order) == multiset(layers)
      && p.previewEndsAt == MaxEnd(layers) + PreviewTail
      && (forall i :: 0 <= i < |layers| ==>
            layers[i].animation.delay + layers[i].animation.duration + PreviewTail <= p.previewEndsAt)
  {
    if layers != [] {
      SortIsSorted(layers);
      MaxEndOfPermutation(layers, SortByDelay(layers));
    }
  }
}
