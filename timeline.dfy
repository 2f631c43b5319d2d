/**
 * The timeline panel: the playback clock that advances the playhead frame by
 * frame, the play/pause and reset buttons, click and drag scrubbing, and the
 * resizable panel height. Wall-clock readings (`Date.now()`), pointer
 * positions and the strip's bounding box are parameters.
 */
module Timeline {
  import opened JsPrelude
  import opened SliderTypes
  import opened SliderStore

  const DefaultMaxTime: real := 15000.0
  const MinHeight: real := 100.0
  const MaxHeight: real := 400.0
  const DefaultHeight: real := 128.0
  const HeightStep: real := 20.0
  /** The "at the end" window of the play button, in ms. */
  const RestartWindow: real := 100.0
  const HeightPresets: seq<real> := [100.0, 150.0, 200.0, 300.0]

  /** `currentSlide?.duration || 15000`: a missing slide or a zero duration falls back to 15000. */
  function MaxTime(state: SliderState): (m: real)
    ensures m != 0.0
  {
    var s := SlideAt(state.project, state.currentSlideIndex);
    if s.Some? && s.value.duration != 0.0 then s.value.duration else DefaultMaxTime
  }

  lemma MaxTimeFromCurrentSlide(state: SliderState)
    ensures SlideAt(state.project, state.currentSlideIndex).None? ==> MaxTime(state) == 15000.0
    ensures state.project.Some? && 0 <= state.currentSlideIndex < |state.project.value.slides|
      && state.project.value.slides[state.currentSlideIndex].duration != 0.0
      ==> MaxTime(state) == state.project.value.slides[state.currentSlideIndex].duration
  {
  }

  // ------------------------------------------------------------ the frame tick

  /** What one animation frame decides, given the elapsed time since playback (re)started. */
  datatype TickOutcome = Finished | Continue(elapsed: real)

  function Tick(elapsed: real, maxTime: real): TickOutcome
  {
    if elapsed >= maxTime then Finished else Continue(elapsed)
  }

  /** The dispatches of one frame. */
  function TickActions(o: TickOutcome, maxTime: real): seq<Action>
  {
    match o
    case Finished => [SetCurrentTime(maxTime), SetPlaying(false)]
    case Continue(e) => [SetCurrentTime(e)]
  }

  /**
   * A frame at or past the end parks the playhead on maxTime and stops; an
   * earlier frame moves the playhead to the elapsed time and keeps playing.
   * Either way the playhead ends at min(elapsed, maxTime) and nothing but the
   * playhead and the playing flag changes.
   */
  lemma {:induction false} TickNeverOvershoots(s: SliderState, elapsed: real, maxTime: real)
    ensures var o := Tick(elapsed, maxTime);
      var r := ReduceAll(s, TickActions(o, maxTime));
      r.currentTime == Min(elapsed, maxTime) && r.currentTime <= maxTime
      && (o.Finished? <==> elapsed >= maxTime)
      && (o.Finished? ==> !r.isPlaying)
      && (o.Continue? ==> r.isPlaying == s.isPlaying)
      && r == s.(currentTime := r.currentTime, isPlaying := r.isPlaying)
  {
    if elapsed >= maxTime {
      ReduceAllTwo(s, SetCurrentTime(maxTime), SetPlaying(false));
    } else {
      ReduceAllOne(s, SetCurrentTime(elapsed));
    }
  }

  /**
   * The frame chain as a function of the frame timestamps: the final state and
   * whether another frame is still requested.
   */
  function Play(s: SliderState, startTime: real, maxTime: real, nows: seq<real>): (SliderState, bool)
    decreases |nows|
  {
    if nows == [] then (s, true)
    else
      var o := Tick(nows[0] - startTime, maxTime);
      var next := ReduceAll(s, TickActions(o, maxTime));
      if o.Finished? then (next, false) else Play(next, startTime, maxTime, nows[1..])
  }

  /**
   * However many frames run, the playhead never passes maxTime, and once the
   * chain stops the playhead sits exactly on maxTime with playback off.
   */
  lemma {:induction false} PlayNeverOvershoots(s: SliderState, startTime: real, maxTime: real, nows: seq<real>)
    requires nows != [] || s.currentTime <= maxTime
    ensures Play(s, startTime, maxTime, nows).0.currentTime <= maxTime
    ensures !Play(s, startTime, maxTime, nows).1 ==>
      Play(s, startTime, maxTime, nows).0.currentTime == maxTime && !Play(s, startTime, maxTime, nows).0.isPlaying
    ensures Play(s, startTime, maxTime, nows).0.project == s.project
    decreases |nows|
  {
    if nows != [] {
      var o := Tick(nows[0] - startTime, maxTime);
      TickNeverOvershoots(s, nows[0] - startTime, maxTime);
      var next := ReduceAll(s, TickActions(o, maxTime));
      if o.Continue? {
        PlayNeverOvershoots(next, startTime, maxTime, nows[1..]);
      }
    }
  }

  /**
   * Playback resumes where the playhead is: with startTime = now − currentTime
   * a frame at that same instant leaves the playhead where it was.
   */
  lemma ResumeFromCurrentPosition(s: SliderState, now: real, maxTime: real)
    requires s.currentTime < maxTime
    ensures Play(s, now - s.currentTime, maxTime, [now]) == (s, true)
  {
    TickNeverOvershoots(s, now - (now - s.currentTime), maxTime);
  }

  // ------------------------------------------------------------ the buttons

  /** `togglePlayback`, as the dispatches it issues from the render's state. */
  function ToggleActions(s: SliderState): seq<Action>
  {
    if !s.isPlaying then
      (if s.currentTime >= MaxTime(s) - RestartWindow then [SetCurrentTime(0.0)] else [])
      + [SetPlaying(true)]
    else [SetPlaying(false)]
  }

  /**
   * While stopped, the play button starts playback, rewinding to 0 when the
   * playhead is within 100 ms of the end; while playing it only pauses.
   */
  lemma TogglePlayback(s: SliderState)
    ensures var r := ReduceAll(s, ToggleActions(s));
      r.isPlaying == !s.isPlaying && r.project == s.project
      && r.currentSlideIndex == s.currentSlideIndex && r.selectedLayerId == s.selectedLayerId
      && r.currentTime == (if !s.isPlaying && s.currentTime >= MaxTime(s) - 100.0 then 0.0 else s.currentTime)
  {
    if !s.isPlaying && s.currentTime >= MaxTime(s) - RestartWindow {
      ReduceAllTwo(s, SetCurrentTime(0.0), SetPlaying(true));
    } else if !s.isPlaying {
      ReduceAllOne(s, SetPlaying(true));
    } else {
      ReduceAllOne(s, SetPlaying(false));
    }
  }

  const ResetActions: seq<Action> := [SetCurrentTime(0.0), SetPlaying(false)]

  /** `resetTimeline`: the playhead goes to 0 and playback stops. */
  lemma ResetTimeline(s: SliderState)
    ensures ReduceAll(s, ResetActions) == s.(currentTime := 0.0, isPlaying := false)
  {
    ReduceAllTwo(s, SetCurrentTime(0.0), SetPlaying(false));
  }

  // ------------------------------------------------------------ scrubbing and layout

  /** The time under the pointer: (x / width) · maxTime, clamped to [0, maxTime]. */
  function ScrubTime(clientX: real, rectLeft: real, width: real, maxTime: real): (t: real)
    requires width > 0.0
    ensures 0.0 <= t && (0.0 <= maxTime ==> t <= maxTime)
    ensures 0.0 <= (clientX - rectLeft) / width * maxTime <= maxTime ==> t == (clientX - rectLeft) / width * maxTime
    ensures 0.0 <= maxTime && clientX - rectLeft <= 0.0 ==> t == 0.0
    ensures 0.0 <= maxTime && clientX - rectLeft >= width ==> t == maxTime
  {
    var x := clientX - rectLeft;
    var raw := (x / width) * maxTime;
    assert x >= width && maxTime >= 0.0 ==> raw >= maxTime by {
      if x >= width && maxTime >= 0.0 {
        assert x / width >= 1.0;
        ScaleAtLeast(x / width, maxTime);
      }
    }
    Max(0.0, Min(raw, maxTime))
  }

  /** Resize drag: dragging up (negative movementY) grows the panel, always within [100, 400]. */
  function DragHeight(height: real, movementY: real): (h: real)
    ensures MinHeight <= h <= MaxHeight
    ensures MinHeight <= height - movementY <= MaxHeight ==> h == height - movementY
    ensures height - movementY < MinHeight ==> h == MinHeight
    ensures height - movementY > MaxHeight ==> h == MaxHeight
  {
    Max(MinHeight, Min(MaxHeight, height + (movementY * -1.0)))
  }

  /** Ctrl/Cmd+Shift+ArrowUp. */
  function HeightUp(height: real): (h: real)
    ensures h <= MaxHeight
    ensures height + HeightStep <= MaxHeight ==> h == height + HeightStep
    ensures height + HeightStep > MaxHeight ==> h == MaxHeight
  {
    Min(MaxHeight, height + HeightStep)
  }

  /** Ctrl/Cmd+Shift+ArrowDown. */
  function HeightDown(height: real): (h: real)
    ensures h >= MinHeight
    ensures height - HeightStep >= MinHeight ==> h == height - HeightStep
    ensures height - HeightStep < MinHeight ==> h == MinHeight
  {
    Max(MinHeight, height - HeightStep)
  }

  /** Every height change keeps a panel that starts within [100, 400] inside it. */
  lemma HeightStaysInRange(height: real, movementY: real)
    requires MinHeight <= height <= MaxHeight
    ensures MinHeight <= DragHeight(height, movementY) <= MaxHeight
    ensures MinHeight <= HeightUp(height) <= MaxHeight
    ensures MinHeight <= HeightDown(height) <= MaxHeight
    ensures forall i :: 0 <= i < |HeightPresets| ==> MinHeight <= HeightPresets[i] <= MaxHeight
  {
  }

  /** `getLayerPosition`: the block's left edge and width as percentages of maxTime. */
  datatype BlockPosition = BlockPosition(leftPercent: real, widthPercent: real)

  function LayerPosition(layer: Layer, maxTime: real): (p: BlockPosition)
    requires maxTime != 0.0
    ensures p.leftPercent * maxTime == layer.animation.delay * 100.0
    ensures p.widthPercent * maxTime == layer.animation.duration * 100.0
  {
    BlockPosition(layer.animation.delay / maxTime * 100.0, layer.animation.duration / maxTime * 100.0)
  }

  /** A block that ends by maxTime lies inside the strip. */
  lemma LayerPositionWithinStrip(layer: Layer, maxTime: real)
    requires maxTime > 0.0
    requires 0.0 <= layer.animation.delay && 0.0 <= layer.animation.duration
    requires layer.animation.delay + layer.animation.duration <= maxTime
    ensures var p := LayerPosition(layer, maxTime);
      0.0 <= p.leftPercent && 0.0 <= p.widthPercent && p.leftPercent + p.widthPercent <= 100.0
  {
    var delay, duration := layer.animation.delay, layer.animation.duration;
    QuotientBounds(delay, maxTime);
    QuotientBounds(duration, maxTime);
    QuotientBounds(delay + duration, maxTime);
    QuotientSum(delay, duration, maxTime);
  }

  lemma QuotientBounds(x: real, m: real)
    requires m > 0.0 && 0.0 <= x <= m
    ensures 0.0 <= x / m <= 1.0
  {
  }

  lemma QuotientSum(a: real, b: real, m: real)
    requires m != 0.0
    ensures a / m + b / m == (a + b) / m
  {
  }

  // ------------------------------------------------------------ the panel

  /**
   * The timeline panel's own state (drag and resize flags, height) and the
   * running frame chain: whether a frame is requested, and the start time and
   * maxTime its closure captured.
   */
  class TimelinePanel {
    const store: Store
    var isDragging: bool
    var isResizing: bool
    var timelineHeight: real
    var frameRequested: bool
    var startTime: real
    var chainMaxTime: real

    ghost predicate Valid()
      reads this
    {
      MinHeight <= timelineHeight <= MaxHeight
    }

    constructor (store: Store)
      ensures this.store == store && Valid()
      ensures !isDragging && !isResizing && timelineHeight == DefaultHeight && !frameRequested
    {
      this.store := store;
      isDragging := false;
      isResizing := false;
      timelineHeight := DefaultHeight;
      frameRequested := false;
      startTime := 0.0;
      chainMaxTime := DefaultMaxTime;
    }

    /** The effect run when playback turns on: remember where to resume from and request a frame. */
    method StartPlayback(now: real)
      requires store.state.isPlaying
      modifies this
      ensures startTime == now - store.state.currentTime && chainMaxTime == MaxTime(store.state)
      ensures frameRequested
      ensures isDragging == old(isDragging) && isResizing == old(isResizing)
      ensures timelineHeight == old(timelineHeight)
    {
      startTime := now - store.state.currentTime;
      chainMaxTime := MaxTime(store.state);
      frameRequested := true;
    }

    /** The effect run when playback turns off (and its cleanup): cancel the pending frame. */
    method StopPlayback()
      modifies this`frameRequested
      ensures !frameRequested
    {
      frameRequested := false;
    }

    /** `animate`: one frame at wall-clock time `now`. */
    method Frame(now: real)
      requires frameRequested
      modifies this`frameRequested, store
      ensures var o := Tick(now - startTime, chainMaxTime);
        store.state == ReduceAll(old(store.state), TickActions(o, chainMaxTime))
        && frameRequested == o.Continue?
    {
      var elapsed := now - startTime;
      if elapsed >= chainMaxTime {
        store.Dispatch(SetCurrentTime(chainMaxTime));
        store.Dispatch(SetPlaying(false));
        frameRequested := false;
        ReduceAllTwo(old(store.state), SetCurrentTime(chainMaxTime), SetPlaying(false));
      } else {
        store.Dispatch(SetCurrentTime(elapsed));
        frameRequested := true;
        ReduceAllOne(old(store.state), SetCurrentTime(elapsed));
      }
    }

    /** The browser running the frame chain at the timestamps `nows`, until it stops. */
    method RunFrames(nows: seq<real>)
      requires frameRequested
      modifies this`frameRequested, store
      ensures (store.state, frameRequested) == Play(old(store.state), startTime, chainMaxTime, nows)
      ensures nows != [] ==> store.state.currentTime <= chainMaxTime
    {
      ghost var s0 := store.state;
      var i := 0;
      while i < |nows| && frameRequested
        invariant 0 <= i <= |nows|
        invariant frameRequested ==> Play(s0, startTime, chainMaxTime, nows) == Play(store.state, startTime, chainMaxTime, nows[i..])
        invariant !frameRequested ==> Play(s0, startTime, chainMaxTime, nows) == (store.state, false)
        invariant i == 0 ==> store.state == s0 && frameRequested
      {
        assert nows[i..][1..] == nows[i + 1..];
        Frame(nows[i]);
        i := i + 1;
      }
      if i == |nows| && frameRequested {
        assert nows[i..] == [];
      }
      if nows != [] {
        PlayNeverOvershoots(s0, startTime, chainMaxTime, nows);
      }
    }

    /** The play/pause button. */
    method TogglePlayback()
      modifies store
      ensures store.state == ReduceAll(old(store.state), ToggleActions(old(store.state)))
    {
      var s := store.state;
      if !s.isPlaying {
        if s.currentTime >= MaxTime(s) - RestartWindow {
          store.Dispatch(SetCurrentTime(0.0));
        }
        store.Dispatch(SetPlaying(true));
      } else {
        store.Dispatch(SetPlaying(false));
      }
      if !s.isPlaying && s.currentTime >= MaxTime(s) - RestartWindow {
        ReduceAllTwo(s, SetCurrentTime(0.0), SetPlaying(true));
      } else if !s.isPlaying {
        ReduceAllOne(s, SetPlaying(true));
      } else {
        ReduceAllOne(s, SetPlaying(false));
      }
    }

    /** The reset button. */
    method ResetTimeline()
      modifies store
      ensures store.state == old(store.state).(currentTime := 0.0, isPlaying := false)
    {
      store.Dispatch(SetCurrentTime(0.0));
      store.Dispatch(SetPlaying(false));
    }

    /** A click on the strip moves the playhead, unless the playhead is being dragged. */
    method TimelineClick(hasStrip: bool, clientX: real, rectLeft: real, width: real)
      requires width > 0.0
      modifies store
      ensures !hasStrip || isDragging ==> store.state == old(store.state)
      ensures hasStrip && !isDragging ==>
        store.state == old(store.state).(currentTime := ScrubTime(clientX, rectLeft, width, MaxTime(old(store.state))))
    {
      if !hasStrip || isDragging {
        return;
      }
      store.Dispatch(SetCurrentTime(ScrubTime(clientX, rectLeft, width, MaxTime(store.state))));
    }

    /** Grabbing the playhead starts a drag and pauses playback. */
    method PlayheadMouseDown()
      modifies this`isDragging, store
      ensures isDragging && store.state == old(store.state).(isPlaying := false)
    {
      isDragging := true;
      store.Dispatch(SetPlaying(false));
    }

    /** Pointer moves scrub only while the playhead is held. */
    method MouseMove(hasStrip: bool, clientX: real, rectLeft: real, width: real)
      requires width > 0.0
      modifies store
      ensures !isDragging || !hasStrip ==> store.state == old(store.state)
      ensures isDragging && hasStrip ==>
        store.state == old(store.state).(currentTime := ScrubTime(clientX, rectLeft, width, MaxTime(old(store.state))))
    {
      if !isDragging || !hasStrip {
        return;
      }
      store.Dispatch(SetCurrentTime(ScrubTime(clientX, rectLeft, width, MaxTime(store.state))));
    }

    method MouseUp()
      modifies this`isDragging
      ensures !isDragging
    {
      isDragging := false;
    }

    method ResizeMouseDown()
      modifies this`isResizing
      ensures isResizing
    {
      isResizing := true;
    }

    method ResizeMouseMove(movementY: real)
      requires Valid()
      modifies this`timelineHeight
      ensures Valid()
      ensures timelineHeight == if isResizing then DragHeight(old(timelineHeight), movementY) else old(timelineHeight)
    {
      if isResizing {
        timelineHeight := DragHeight(timelineHeight, movementY);
      }
    }

    method ResizeMouseUp()
      modifies this`isResizing
      ensures !isResizing
    {
      isResizing := false;
    }

    /** The Ctrl/Cmd+Shift+ArrowUp/ArrowDown height shortcuts. */
    method HeightKey(ctrlOrMeta: bool, shift: bool, key: string)
      requires Valid()
      modifies this`timelineHeight
      ensures Valid()
      ensures timelineHeight ==
        if ctrlOrMeta && shift && key == "ArrowUp" then HeightUp(old(timelineHeight))
        else if ctrlOrMeta && shift && key == "ArrowDown" then HeightDown(old(timelineHeight))
        else old(timelineHeight)
    {
      if ctrlOrMeta {
        if key == "ArrowUp" && shift {
          timelineHeight := HeightUp(timelineHeight);
        } else if key == "ArrowDown" && shift {
          timelineHeight := HeightDown(timelineHeight);
        }
      }
    }

    /** One of the four height preset buttons. */
    method HeightPreset(i: nat)
      requires i < |HeightPresets|
      modifies this`timelineHeight
      ensures Valid() && timelineHeight == HeightPresets[i]
    {
      timelineHeight := HeightPresets[i];
    }
  }
}
