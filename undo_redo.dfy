/**
 * The undo/redo history hook: a past stack, a present value and a future
 * stack of project snapshots. The hook is generic in what it stores; the
 * editor instantiates it with projects.
 */
module UndoRedo {
  import opened JsPrelude

  datatype History<T> = History(past: seq<T>, present: T, future: seq<T>)

  /** The history a fresh hook (and `clearHistory`) starts from. */
  function Fresh<T>(initial: T): History<T>
  {
    History([], initial, [])
  }

  function CanUndo<T>(h: History<T>): (b: bool)
    ensures b <==> h.past != []
  {
    |h.past| > 0
  }

  function CanRedo<T>(h: History<T>): (b: bool)
    ensures b <==> h.future != []
  {
    |h.future| > 0
  }

  /** `undo`: the last past snapshot becomes present; the old present heads the future. */
  function Undo<T>(h: History<T>): History<T>
  {
    if !CanUndo(h) then h
    else History(h.past[..|h.past| - 1], h.past[|h.past| - 1], [h.present] + h.future)
  }

  /** `redo`: the first future snapshot becomes present; the old present ends the past. */
  function Redo<T>(h: History<T>): History<T>
  {
    if !CanRedo(h) then h
    else History(h.past + [h.present], h.future[0], h.future[1..])
  }

  /** `addToHistory`: commit a new present, dropping the redo branch. */
  function AddToHistory<T>(h: History<T>, next: T): History<T>
  {
    History(h.past + [h.present], next, [])
  }

  /** `clearHistory`: back to the hook's initial project. */
  function ClearHistory<T>(h: History<T>, initial: T): (r: History<T>)
    ensures r.past == [] && r.future == [] && r.present == initial
  {
    Fresh(initial)
  }

  // ------------------------------------------------------------ the timeline view

  /** All snapshots in chronological order. */
  function Snapshots<T>(h: History<T>): seq<T>
  {
    h.past + [h.present] + h.future
  }

  /** Rebuild a history from its snapshots and the position of the present. */
  function AtCursor<T>(s: seq<T>, c: nat): History<T>
    requires c < |s|
  {
    History(s[..c], s[c], s[c + 1..])
  }

  lemma HistoryIsItsTimeline<T>(h: History<T>)
    ensures AtCursor(Snapshots(h), |h.past|) == h
  {
    var s := Snapshots(h);
    assert s[..|h.past|] == h.past;
    assert s[|h.past| + 1..] == h.future;
  }

  /** canUndo and canRedo are the two ends of the timeline. */
  lemma CanUndoRedoAtEnds<T>(h: History<T>)
    ensures CanUndo(h) <==> |h.past| > 0
    ensures CanRedo(h) <==> |h.past| < |Snapshots(h)| - 1
  {
  }

  /**
   * Undo moves the present one step back along an unchanged timeline and is a
   * no-op at its start; redo moves it one step forward and is a no-op at its end.
   */
  lemma UndoRedoMoveCursor<T>(h: History<T>)
    ensures Snapshots(Undo(h)) == Snapshots(h) && Snapshots(Redo(h)) == Snapshots(h)
    ensures |Undo(h).past| == if CanUndo(h) then |h.past| - 1 else |h.past|
    ensures |Redo(h).past| == if CanRedo(h) then |h.past| + 1 else |h.past|
    ensures !CanUndo(h) ==> Undo(h) == h
    ensures !CanRedo(h) ==> Redo(h) == h
  {
    if CanUndo(h) {
      var u := Undo(h);
      assert h.past == u.past + [u.present];
      assert Snapshots(u) == u.past + [u.present] + ([h.present] + h.future);
    }
    if CanRedo(h) {
      var r := Redo(h);
      assert h.future == [r.present] + r.future;
    }
  }

  /** Undo and redo preserve |past| + |future| + 1. */
  lemma UndoRedoPreserveSize<T>(h: History<T>)
    ensures |Undo(h).past| + |Undo(h).future| == |h.past| + |h.future|
    ensures |Redo(h).past| + |Redo(h).future| == |h.past| + |h.future|
  {
    UndoRedoMoveCursor(h);
  }

  /** Undo followed by redo restores the history exactly, and so does redo followed by undo. */
  lemma UndoThenRedo<T>(h: History<T>)
    ensures CanUndo(h) ==> Redo(Undo(h)) == h
    ensures CanRedo(h) ==> Undo(Redo(h)) == h
  {
    if CanUndo(h) {
      var u := Undo(h);
      assert u.past + [u.present] == h.past;
    }
    if CanRedo(h) {
      var r := Redo(h);
      assert [r.present] + r.future == h.future;
    }
  }

  /** A commit appends the old present to the past, installs the new present and drops the future. */
  lemma AddToHistoryCommits<T>(h: History<T>, next: T)
    ensures Snapshots(AddToHistory(h, next)) == h.past + [h.present, next]
    ensures !CanRedo(AddToHistory(h, next)) && CanUndo(AddToHistory(h, next))
    ensures Undo(AddToHistory(h, next)) == History(h.past, h.present, [next])
  {
    var a := AddToHistory(h, next);
    assert a.past[..|a.past| - 1] == h.past;
  }

  /** Commit each value in turn. */
  function AddAll<T>(h: History<T>, xs: seq<T>): History<T>
    decreases |xs|
  {
    if xs == [] then h else AddAll(AddToHistory(h, xs[0]), xs[1..])
  }

  /** Undo `n` times. */
  function UndoTimes<T>(h: History<T>, n: nat): History<T>
    decreases n
  {
    if n == 0 then h else UndoTimes(Undo(h), n - 1)
  }

  lemma {:induction false} AddAllTimeline<T>(h: History<T>, xs: seq<T>)
    requires h.future == []
    ensures Snapshots(AddAll(h, xs)) == h.past + [h.present] + xs
    ensures |AddAll(h, xs).past| == |h.past| + |xs|
    decreases |xs|
  {
    if xs != [] {
      var a := AddToHistory(h, xs[0]);
      AddAllTimeline(a, xs[1..]);
      assert a.past + [a.present] + xs[1..] == h.past + [h.present] + xs;
    }
  }

  lemma {:induction false} UndoTimesTimeline<T>(h: History<T>, n: nat)
    requires n <= |h.past|
    ensures Snapshots(UndoTimes(h, n)) == Snapshots(h)
    ensures |UndoTimes(h, n).past| == |h.past| - n
    decreases n
  {
    if n > 0 {
      UndoRedoMoveCursor(h);
      UndoTimesTimeline(Undo(h), n - 1);
    }
  }

  /**
   * N commits followed by N undos bring back the original present and past,
   * with the N committed values waiting in the future.
   */
  lemma CommitsThenUndos<T>(h: History<T>, xs: seq<T>)
    requires h.future == []
    ensures UndoTimes(AddAll(h, xs), |xs|) == History(h.past, h.present, xs)
  {
    var a := AddAll(h, xs);
    AddAllTimeline(h, xs);
    UndoTimesTimeline(a, |xs|);
    var u := UndoTimes(a, |xs|);
    HistoryIsItsTimeline(u);
    var s := h.past + [h.present] + xs;
    assert Snapshots(u) == s;
    assert s[..|h.past|] == h.past && s[|h.past|] == h.present && s[|h.past| + 1..] == xs;
  }

  /** From a fresh history, N commits and N undos return the initial present with an empty past. */
  lemma FreshCommitsThenUndos<T>(initial: T, xs: seq<T>)
    ensures UndoTimes(AddAll(Fresh(initial), xs), |xs|).present == initial
    ensures UndoTimes(AddAll(Fresh(initial), xs), |xs|).past == []
  {
    CommitsThenUndos(Fresh(initial), xs);
  }

  // ------------------------------------------------------------ the guard read from the render

  function Lift<T>(xs: seq<T>): (r: seq<Option<T>>)
    ensures |r| == |xs| && forall i :: 0 <= i < |xs| ==> r[i] == Some(xs[i])
  {
    if xs == [] then [] else [Some(xs[0])] + Lift(xs[1..])
  }

  function LiftHistory<T>(h: History<T>): History<Option<T>>
  {
    History(Lift(h.past), Some(h.present), Lift(h.future))
  }

  /**
   * The `undo` callback as written: its guard reads `canUndo` from the render
   * that created the callback (`rendered`), while the state updater runs on
   * the history current when React applies it. With an empty current past,
   * `past[past.length - 1]` is undefined (`None`) and becomes the present.
   */
  function UndoCallbackAsWritten<T>(rendered: History<T>, current: History<T>): History<Option<T>>
  {
    if !CanUndo(rendered) then LiftHistory(current)
    else if current.past == [] then History([], None, [Some(current.present)] + Lift(current.future))
    else LiftHistory(Undo(current))
  }

  /**
   * Two `undo` calls from one render with a single past entry: the second
   * updater runs on an empty past and leaves the hook with no present.
   */
  lemma DoubleUndoLosesPresent(a: int, b: int)
    ensures var rendered := History([a], b, []);
      var first := UndoCallbackAsWritten(rendered, rendered);
      first == LiftHistory(History([], a, [b]))
      && UndoCallbackAsWritten(rendered, History([], a, [b])).present == None
  {
  }

  /** With the guard evaluated on the current history, undo always keeps a present value. */
  lemma UndoOnCurrentHistoryKeepsPresent<T>(current: History<T>)
    ensures CanUndo(current) ==> Undo(current).present == current.past[|current.past| - 1]
    ensures !CanUndo(current) ==> Undo(current) == current
    ensures CanUndo(current) ==> UndoCallbackAsWritten(current, current) == LiftHistory(Undo(current))
  {
  }
}
