/**
 * The tooltip: a delayed show, an immediate hide, and the side it is drawn
 * on, flipped once when the requested side would leave the viewport. The
 * delay timers are modelled as pending timer ids that the environment fires.
 */
module Tooltip {
  import opened JsPrelude

  datatype Side = Top | Bottom | Left | Right

  function Opposite(side: Side): Side
  {
    match side
    case Top => Bottom
    case Bottom => Top
    case Left => Right
    case Right => Left
  }

  /** The trigger's bounding rectangle, the tooltip's size and the viewport's size. */
  datatype Geometry = Geometry(
    top: real, bottom: real, left: real, right: real,
    tipWidth: real, tipHeight: real, viewportWidth: real, viewportHeight: real)

  /** Whether the tooltip, drawn on `side`, would come within 10 pixels of the viewport's edge or beyond. */
  predicate Overflows(side: Side, g: Geometry)
  {
    match side
    case Top => g.top - g.tipHeight < 10.0
    case Bottom => g.bottom + g.tipHeight > g.viewportHeight - 10.0
    case Left => g.left - g.tipWidth < 10.0
    case Right => g.right + g.tipWidth > g.viewportWidth - 10.0
  }

  /** `calculatePosition`: the requested side, or its opposite when the requested side overflows. */
  function ChooseSide(requested: Side, g: Geometry): (s: Side)
    ensures s == requested || s == Opposite(requested)
  {
    if Overflows(requested, g) then Opposite(requested) else requested
  }

  /**
   * The side flips exactly when the requested side overflows, and only to
   * its opposite; the opposite side itself is not checked, so the flipped
   * tooltip may overflow too.
   */
  lemma FlipRule(requested: Side, g: Geometry)
    ensures ChooseSide(requested, g) != requested <==> Overflows(requested, g)
    ensures ChooseSide(requested, g) != requested ==> ChooseSide(requested, g) == Opposite(requested)
    ensures Opposite(Opposite(requested)) == requested
  {
  }

  /** A tooltip too tall for the space both above and below the trigger still flips from top to bottom, and overflows there. */
  lemma FlipMayStillOverflow(g: Geometry)
    requires g == Geometry(50.0, 80.0, 0.0, 0.0, 0.0, 100.0, 0.0, 150.0)
    ensures ChooseSide(Top, g) == Bottom && Overflows(Bottom, g)
  {
  }

  class TooltipState {
    const content: string
    const position: Side
    const disabled: bool
    var isVisible: bool
    var actualPosition: Side
    /** The show timers scheduled and neither fired nor cleared. */
    var pending: set<nat>
    /** `timeoutRef.current`: the last timer scheduled. */
    var timeoutRef: Option<nat>
    /** The id the next timer gets; browsers start above 0. */
    var nextTimer: nat

    predicate Valid()
      reads this
    {
      nextTimer > 0 && (forall t :: t in pending ==> 0 < t < nextTimer)
      && (timeoutRef.Some? ==> 0 < timeoutRef.value < nextTimer)
    }

    constructor (content: string, position: Side, disabled: bool)
      ensures this.content == content && this.position == position && this.disabled == disabled
      ensures !isVisible && actualPosition == position && pending == {} && timeoutRef.None? && nextTimer == 1 && Valid()
    {
      this.content := content;
      this.position := position;
      this.disabled := disabled;
      isVisible := false;
      actualPosition := position;
      pending := {};
      timeoutRef := None;
      nextTimer := 1;
    }

    /** `showTooltip`: nothing when disabled or without content; otherwise a new show timer, remembered in the ref. */
    method Show()
      requires Valid()
      modifies this
      ensures Valid() && isVisible == old(isVisible) && actualPosition == old(actualPosition)
      ensures disabled || content == "" ==>
        pending == old(pending) && timeoutRef == old(timeoutRef) && nextTimer == old(nextTimer)
      ensures !disabled && content != "" ==>
        pending == old(pending) + {old(nextTimer)} && timeoutRef == Some(old(nextTimer))
        && nextTimer == old(nextTimer) + 1
    {
      if disabled || content == "" {
        return;
      }
      pending := pending + {nextTimer};
      timeoutRef := Some(nextTimer);
      nextTimer := nextTimer + 1;
    }

    /** `hideTooltip` as written: clears only the timer in the ref, then hides. */
    method Hide()
      requires Valid()
      modifies this
      ensures Valid() && !isVisible && actualPosition == old(actualPosition)
      ensures timeoutRef == old(timeoutRef) && nextTimer == old(nextTimer)
      ensures pending == if old(timeoutRef).Some? then old(pending) - {old(timeoutRef).value} else old(pending)
    {
      if timeoutRef.Some? {
        pending := pending - {timeoutRef.value};
      }
      isVisible := false;
    }

    /** The intended hide: every pending show is cancelled, then the tooltip hides. */
    method HideAll()
      requires Valid()
      modifies this
      ensures Valid() && !isVisible && pending == {} && actualPosition == old(actualPosition)
      ensures timeoutRef == old(timeoutRef) && nextTimer == old(nextTimer)
    {
      pending := {};
      isVisible := false;
    }

    /** A show timer fires after the delay: the tooltip becomes visible. */
    method ShowTimerFires(t: nat)
      requires Valid() && t in pending
      modifies this
      ensures Valid() && isVisible && pending == old(pending) - {t}
      ensures actualPosition == old(actualPosition) && timeoutRef == old(timeoutRef) && nextTimer == old(nextTimer)
    {
      pending := pending - {t};
      isVisible := true;
    }

    /**
     * The zero-delay follow-up: while the tooltip is drawn, the actual side
     * is chosen afresh from the requested position, never from the previous
     * actual side.
     */
    method CalculatePosition(g: Geometry)
      modifies this
      ensures isVisible == old(isVisible) && pending == old(pending)
      ensures timeoutRef == old(timeoutRef) && nextTimer == old(nextTimer)
      ensures actualPosition == if isVisible && content != "" then ChooseSide(position, g) else old(actualPosition)
    {
      if isVisible && content != "" {
        actualPosition := ChooseSide(position, g);
      }
    }
  }

  /**
   * Enter then focus schedules two show timers; blur and leave clear only the
   * second, so the first still fires and shows the tooltip after the hide.
   */
  method StaleShowAfterHide() returns (tip: TooltipState)
    ensures tip.isVisible && !tip.disabled && tip.timeoutRef == Some(2)
  {
    tip := new TooltipState("Bold", Top, false);
    assert tip.content != "";
    tip.Show();
    tip.Show();
    assert tip.pending == {1, 2} && tip.timeoutRef == Some(2);
    tip.Hide();
    tip.Hide();
    assert 1 in tip.pending;
    tip.ShowTimerFires(1);
  }

  /** With the intended hide no show timer survives it, so nothing can show the tooltip until the next show. */
  method NoShowAfterHideAll() returns (tip: TooltipState)
    ensures !tip.isVisible && tip.pending == {}
  {
    tip := new TooltipState("Bold", Top, false);
    tip.Show();
    tip.Show();
    tip.HideAll();
  }
}
