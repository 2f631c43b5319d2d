/**
 * The slide strip: adding a slide (and moving to it) and deleting a slide
 * with the current-index repair. Each handler dispatches a fixed sequence of
 * actions whose payloads are all computed from the state of the render it
 * belongs to; the result is the state after those dispatches.
 */
module SlideThumbnails {
  import opened JsPrelude
  import opened SliderTypes
  import opened SliderStore

  /** "Slide N+1", no layers, 5000 ms; the id and the random gradient are the caller's. */
  function NewSlide(count: nat, id: string, background: Background): Slide
  {
    Slide(id, "Slide " + NatToString(count + 1), background, [], 5000.0)
  }

  /** `addSlide`: ADD_SLIDE, then SET_CURRENT_SLIDE to the old slide count. */
  function ThumbnailsAddSlide(state: SliderState, id: string, background: Background): SliderState
  {
    if state.project.None? then state
    else
      var n := |state.project.value.slides|;
      ReduceAll(state, [AddSlide(NewSlide(n, id, background)), SetCurrentSlide(n)])
  }

  /**
   * With a project, the new slide is appended after the existing ones, which
   * are kept, and becomes the current slide; without one nothing changes.
   */
  lemma AddSlideSelectsIt(state: SliderState, id: string, background: Background)
    ensures state.project.None? ==> ThumbnailsAddSlide(state, id, background) == state
    ensures state.project.Some? ==>
      var n := |state.project.value.slides|;
      var r := ThumbnailsAddSlide(state, id, background);
      r.project.Some? && r.project.value.slides == state.project.value.slides + [NewSlide(n, id, background)]
      && r.currentSlideIndex == n
      && SlideAt(r.project, r.currentSlideIndex) == Some(NewSlide(n, id, background))
      && r.selectedLayerId == state.selectedLayerId && r.isPlaying == state.isPlaying
  {
    if state.project.Some? {
      var n := |state.project.value.slides|;
      var s := NewSlide(n, id, background);
      ReduceAllTwo(state, AddSlide(s), SetCurrentSlide(n));
      AddSlideAppends(state, s);
      var mid := Reduce(state, AddSlide(s));
      assert mid.project.value.slides == state.project.value.slides + [s];
    }
  }

  /** The index after a delete from `count` slides: an index at or past the last moves back one, floored at 0. */
  function RepairIndex(index: int, count: int): (r: int)
  {
    if index >= count - 1 then IntMax(0, index - 1) else index
  }

  /** `deleteSlide`: nothing with no project or a single slide; else DELETE_SLIDE and, when needed, SET_CURRENT_SLIDE. */
  function ThumbnailsDeleteSlide(state: SliderState, slideId: string): SliderState
  {
    if state.project.None? || |state.project.value.slides| <= 1 then state
    else
      var n := |state.project.value.slides|;
      var i := state.currentSlideIndex;
      ReduceAll(state, [DeleteSlide(slideId)] + (if i >= n - 1 then [SetCurrentSlide(IntMax(0, i - 1))] else []))
  }

  /** The index repair moves an index that was valid for `count` slides to one valid for `count - 1`. */
  lemma RepairIndexInRange(index: int, count: int)
    requires count >= 2 && 0 <= index < count
    ensures 0 <= RepairIndex(index, count) < count - 1
    ensures index < count - 1 ==> RepairIndex(index, count) == index
  {
  }

  function CountId(slides: seq<Slide>, id: string): nat
  {
    if slides == [] then 0 else CountId(slides[..|slides| - 1], id) + (if slides[|slides| - 1].id == id then 1 else 0)
  }

  lemma {:induction false} RemoveSlidesCount(slides: seq<Slide>, id: string)
    ensures |RemoveSlides(slides, id)| == |slides| - CountId(slides, id)
    decreases |slides|
  {
    if slides != [] {
      RemoveSlidesCount(slides[..|slides| - 1], id);
      RemoveSlidesEnd(slides, id);
    }
  }

  lemma RemoveSlidesEnd(slides: seq<Slide>, id: string)
    requires slides != []
    ensures RemoveSlides(slides, id) == RemoveSlides(slides[..|slides| - 1], id)
      + (if slides[|slides| - 1].id == id then [] else [slides[|slides| - 1]])
  {
    var init, last := slides[..|slides| - 1], slides[|slides| - 1];
    assert slides == init + [last];
    RemoveSlidesConcat(init, [last], id);
    assert RemoveSlides([last], id) == (if last.id == id then [] else [last]) by {
      assert [last][1..] == [];
    }
  }

  lemma {:induction false} RemoveSlidesConcat(a: seq<Slide>, b: seq<Slide>, id: string)
    ensures RemoveSlides(a + b, id) == RemoveSlides(a, id) + RemoveSlides(b, id)
    decreases |a|
  {
    if a != [] {
      RemoveSlidesConcat(a[1..], b, id);
      assert (a + b)[1..] == a[1..] + b;
      assert (a + b)[0] == a[0];
    } else {
      assert a + b == b;
    }
  }

  /**
   * Deleting from at most one slide, or without a project, changes nothing.
   * Otherwise every slide with that id is removed and the index is repaired
   * from the pre-delete count only; when exactly one slide carries the id and
   * the index was valid before, it is valid after.
   */
  lemma DeleteSlideRepairsIndex(state: SliderState, slideId: string)
    ensures (state.project.None? || |state.project.value.slides| <= 1) ==> ThumbnailsDeleteSlide(state, slideId) == state
    ensures state.project.Some? && |state.project.value.slides| > 1 ==>
      var before := state.project.value.slides;
      var r := ThumbnailsDeleteSlide(state, slideId);
      r.project.Some? && r.project.value.slides == RemoveSlides(before, slideId)
      && r.currentSlideIndex == RepairIndex(state.currentSlideIndex, |before|)
      && (CountId(before, slideId) == 1 && 0 <= state.currentSlideIndex < |before| ==>
            0 <= r.currentSlideIndex < |r.project.value.slides|)
  {
    if state.project.Some? && |state.project.value.slides| > 1 {
      var before := state.project.value.slides;
      var n, i := |before|, state.currentSlideIndex;
      var mid := Reduce(state, DeleteSlide(slideId));
      assert mid.project.value.slides == RemoveSlides(before, slideId);
      assert mid.currentSlideIndex == i;
      if i >= n - 1 {
        ReduceAllTwo(state, DeleteSlide(slideId), SetCurrentSlide(IntMax(0, i - 1)));
        assert [DeleteSlide(slideId)] + [SetCurrentSlide(IntMax(0, i - 1))]
          == [DeleteSlide(slideId), SetCurrentSlide(IntMax(0, i - 1))];
      } else {
        ReduceAllOne(state, DeleteSlide(slideId));
        assert [DeleteSlide(slideId)] + [] == [DeleteSlide(slideId)];
      }
      RemoveSlidesCount(before, slideId);
      if 0 <= i < n {
        RepairIndexInRange(i, n);
      }
    }
  }

  /** The delete button is offered only while deleting can do something. */
  function ShowsDeleteButton(state: SliderState): (b: bool)
    ensures !b ==> forall id :: ThumbnailsDeleteSlide(state, id) == state
  {
    state.project.Some? && |state.project.value.slides| > 1
  }
}
