/** The top bar's commands: a new slide, a slide from a template, and play/pause. */
module TopBar {
  import opened JsPrelude
  import opened SliderTypes
  import opened SliderStore
  import opened SlideTemplates

  const TopBarGradient: Background :=
    Background(GradientBackground, "linear-gradient(135deg, #667eea 0%, #764ba2 100%)")

  /** `addSlide`: nothing without a project; otherwise ADD_SLIDE of "Slide N+1" with the fixed gradient. */
  function TopBarAddSlide(state: SliderState, id: string): Option<Action>
  {
    if state.project.None? then None
    else Some(AddSlide(Slide(id, "Slide " + NatToString(|state.project.value.slides| + 1),
                             TopBarGradient, [], 5000.0)))
  }

  /**
   * Without a project there is nothing to dispatch. With one, the slide
   * named "Slide N+1", empty and lasting 5000 ms, is appended, and unlike the
   * slide strip's button the current index stays where it was.
   */
  lemma TopBarAddSlideKeepsIndex(state: SliderState, id: string)
    ensures TopBarAddSlide(state, id).None? <==> state.project.None?
    ensures state.project.Some? ==>
      var n := |state.project.value.slides|;
      var r := Reduce(state, TopBarAddSlide(state, id).value);
      r.project.Some? && |r.project.value.slides| == n + 1
      && r.project.value.slides[..n] == state.project.value.slides
      && r.project.value.slides[n] == Slide(id, "Slide " + NatToString(n + 1), TopBarGradient, [], 5000.0)
      && r.currentSlideIndex == state.currentSlideIndex && SameUi(r, state)
  {
    if state.project.Some? {
      AddSlideAppends(state, TopBarAddSlide(state, id).value.slide);
    }
  }

  /** The template picker's state after choosing a template: the action, and whether the picker stays open. */
  datatype TemplateChoice = TemplateChoice(action: Option<Action>, showTemplates: bool)

  /** `addTemplateSlide`: dispatch and close only when the template exists. */
  function AddTemplateSlide(templateId: string, freshId: string, showTemplates: bool): TemplateChoice
  {
    var t := ApplyTemplate(templateId, freshId);
    if t.Some? then TemplateChoice(Some(AddSlide(t.value)), false)
    else TemplateChoice(None, showTemplates)
  }

  /**
   * An unknown template leaves the picker as it was and dispatches nothing; a
   * known one appends its copy and closes the picker.
   */
  lemma AddTemplateSlideCases(templateId: string, freshId: string, showTemplates: bool)
    ensures var c := AddTemplateSlide(templateId, freshId, showTemplates);
      (c.action.None? <==> forall i :: 0 <= i < |Templates()| ==> Templates()[i].id != templateId)
      && (c.action.None? ==> c.showTemplates == showTemplates)
      && (c.action.Some? ==>
            (!c.showTemplates && c.action.value.AddSlide? && c.action.value.slide.id == freshId
             && exists i :: 0 <= i < |Templates()| && Templates()[i].id == templateId
                  && c.action.value.slide.layers == Templates()[i].layers))
  {
    ApplyTemplateCopies(Templates(), templateId, freshId);
  }

  /** `togglePlayback`: SET_PLAYING with the negation of the render's flag. */
  function TopBarTogglePlayback(state: SliderState): Action
  {
    SetPlaying(!state.isPlaying)
  }

  /** Toggling flips playback and leaves the time, the project and the selection alone; twice restores it. */
  lemma TogglePlaybackFlips(state: SliderState)
    ensures var r := Reduce(state, TopBarTogglePlayback(state));
      r.isPlaying == !state.isPlaying && r.currentTime == state.currentTime
      && r.project == state.project && r.currentSlideIndex == state.currentSlideIndex
      && r.selectedLayerId == state.selectedLayerId
      && Reduce(r, TopBarTogglePlayback(r)) == state
  {
  }
}
