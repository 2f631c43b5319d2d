# Slider editor core, modelled in Dafny

This project models the decision and state-transition logic of a browser slide editor. Slides hold positioned, styled and animated layers, and the editor exports them as a stand-alone HTML slider. The model works on values and on small classes that stand for component state; nothing in it touches a browser. It covers the following parts.

- **Project store** (`slider_store.dfy`). The reducer behind the editor's context. It covers all ten actions and unknown actions. Copy-on-write edits reach project, slides and layers. The initial state is modelled too. A `Store` class applies dispatches in order.
- **Undo history** (`undo_redo.dfy`). The past/present/future record with undo, redo, add and clear. It is proved equal to a cursor over one timeline of snapshots.
- **Timeline** (`timeline.dfy`). The playback clock, modelled as a frame step that takes the elapsed wall-clock time as input. Also: play/pause/reset, click and playhead scrubs, the panel-height clamps, and block placement on the strip.
- **Timeline block gestures** (`animation_block.dfy`). Move, resize-left and resize-right. Each is computed from the snapshot taken at mouse-down, then clamped and snapped to 100 ms.
- **Canvas** (`canvas_settings.dfy`, `canvas_zoom.dfy`, `canvas_drag.dfy`, `canvas_animations.dfy`, `canvas_layer.dfy`, `canvas_shortcuts.dfy`):
  - grid settings and grid rounding;
  - the zoom clamps;
  - alignment-guide generation and the drag controller, with its sequential guide-snap loop;
  - the preview-animation bookkeeping (class names, scheduling order by delay, end time);
  - how one layer is shown;
  - the Ctrl-key toggles.
- **Sidebar edits** (`sidebar_edits.dfy`). The dot-path property update, adding a layer with its per-type defaults, and deleting a layer. `Sidebar.tsx` and `SidebarRefactored.tsx` are identical over lines 1-110, so both are covered by one model. `SidebarOriginal.tsx` differs only in taking the new shape's type from its shape picker, and the model takes that type as a parameter.
- **Slides** (`templates.dfy`, `slide_thumbnails.dfy`, `top_bar.dfy`, `media_library.dfy`). The three slide templates and `applyTemplate`. Adding slides from the thumbnail strip and from the top bar. Deleting a slide and repairing the index. The image-layer factory behind the media library's MIME gate.
- **Keyboard** (`keyboard_shortcuts.dfy`). The editor's global shortcut chain.
- **Formatters and serialisers** (`timeline_playhead.dfy`, `animations.dfy`, `animation_mapper.dfy`, `animations_panel.dfy`, `export.dfy`):
  - the playhead's time formatter and progress;
  - the animation catalogue;
  - the name-to-class mapper and its generated stylesheet;
  - the panel's icon rules and option lists;
  - the HTML, CSS and JavaScript text of an export.
- **Small UI components** (`character_panel.dfy`, `color_picker.dfy`, `dropdown_navigation.dfy`, `clean_dropdown.dfy`, `enhanced_dropdown.dfy`, `custom_dropdown.dfy`, `tooltip.dfy`):
  - the character panel's reset and presets, and its underline/strikethrough option merge;
  - the colour picker's hex field, parser and palette;
  - the three dropdowns;
  - the tooltip's delayed show and its side-flip rule.

`prelude.dfy` holds the JavaScript semantics the rest relies on:
- string search;
- case folding of the ASCII letters only (see "## Left out");
- `Math.round` as `Floor(x + 1/2)`;
- the truncating remainder;
- template strings.

`types.dfy` mirrors the project, slide and layer records of `src/types/index.ts`.

Some source behaviours are not plain values, and the model turns them into inputs:
- Ids from `Date.now()`, random slide backgrounds, bounding rectangles, container widths, pointer coordinates and the elapsed time are parameters.
- A JavaScript number printed into text passes through a parameter `num: real -> string`.
- When one React handler dispatches several times, each payload is computed from the state of the render that created the handler. The model computes all payloads from the pre-state and then applies them in order.

## Model

| member | source | states |
|---|---|---|
| SliderTypes.StyleGet | src/types/index.ts:6-60 | the seven required style properties read as numbers; every other name reads the optional property, undefined when absent |
| SliderTypes.FindLayer | src/components/Sidebar.tsx:16 | `layers.find` by id: none iff no layer carries the id, otherwise the first layer of the list with that id: one with the id, every earlier layer carrying another id |
| SliderTypes.SlideAt | src/components/Sidebar.tsx:15 | `project?.slides[index]`: a slide iff a project is loaded and the index is in range, and then the slide at that index |
| SliderStore.Reduce | src/context/SliderContext.tsx:130-219 | definition of `sliderReducer`, one case per action: the slide and layer actions leave the state as it is when no project is loaded, SET_PROJECT and the four UI setters replace one field, an unknown action returns the state; its properties are the lemmas below (AddSlideAppends, DeleteSlideFilters, AddLayerTargetsOneSlide, UpdateLayerIsShallowAndLocal, DeleteLayerTargetsOneSlide, UiSettersSetOneField, SetProjectAndDefault) |
| SliderStore.ReduceAll | src/context/SliderContext.tsx:226-227 | definition: the state after a list of dispatches through `useReducer`, each action applied to the state the previous one left; ReduceAllOne, ReduceAllTwo and ReduceAllAppend state how it composes |
| SliderStore.EditSlide | src/context/SliderContext.tsx:158-205 | definition: the change ADD_LAYER (layer appended), UPDATE_LAYER (layers with the id merged) and DELETE_LAYER (layers with the id removed) make to the slide they target, every other slide field kept |
| SliderStore.MergeLayer | src/context/SliderContext.tsx:184 | `{...layer, ...updates}`: each of id, type, content, shapeType, style and animation that the update carries replaces the layer's whole field, each absent one is kept, and an empty update changes nothing |
| SliderStore.UpdateLayers | src/context/SliderContext.tsx:182-186 | the list keeps its length; exactly the layers with the id are merged, every other layer is kept as is |
| SliderStore.RemoveLayers | src/context/SliderContext.tsx:201 | a layer survives iff it was in the list and does not carry the id |
| SliderStore.RemoveSlides | src/context/SliderContext.tsx:151 | a slide survives iff it was in the list and does not carry the id |
| SliderStore.EditSlides | src/context/SliderContext.tsx:164-167 | the slide list keeps its length; exactly the slides with the id are edited |
| SliderStore.ReduceAllAppend | src/context/SliderContext.tsx:130-219 | dispatching a + b is dispatching a, then b |
| SliderStore.Store.Dispatch | src/context/SliderContext.tsx:227 | the new state is the reducer applied to the old state and the action |
| SliderStore.Store.DispatchAll | src/context/SliderContext.tsx:227 | dispatching a list in order leaves the state the list's fold over the reducer |
| SliderStore.ReduceAllOne | src/context/SliderContext.tsx:130-219 | a one-action list is that action's reducer step |
| SliderStore.ReduceAllTwo | src/context/SliderContext.tsx:130-219 | a two-action list is the two steps in order |
| SliderStore.StyleUpdates | src/context/SliderContext.tsx:172-191 | one style-only UPDATE_LAYER per style, as many as styles |
| SliderStore.LaterStyleWins | src/context/SliderContext.tsx:184 | a style-only update followed by another of the same layer equals the second alone |
| SliderStore.StyleWritesCollapse | src/context/SliderContext.tsx:172-191 | a run of style-only updates of one layer lands as its last update alone |
| SliderStore.ProjectActionsNeedProject | src/context/SliderContext.tsx:136-194 | with no project, ADD_SLIDE, DELETE_SLIDE, ADD_LAYER, UPDATE_LAYER and DELETE_LAYER return the state unchanged |
| SliderStore.AddSlideAppends | src/context/SliderContext.tsx:135-143 | the payload becomes the last slide, earlier slides, the project header and the UI fields are kept |
| SliderStore.DeleteSlideFilters | src/context/SliderContext.tsx:145-153 | a slide survives iff its id differs; no last-slide guard, currentSlideIndex unchanged |
| SliderStore.AddLayerTargetsOneSlide | src/context/SliderContext.tsx:158-170 | the matching slide gains the layer at its end and nothing else; every other slide is unchanged |
| SliderStore.UnknownSlideChangesNothing | src/context/SliderContext.tsx:164-167 | a layer action naming no existing slide leaves the slide list as it was |
| SliderStore.LayerIds | src/context/SliderContext.tsx:182-186 | the ids of a layer list, position by position |
| SliderStore.UpdateLayerIsShallowAndLocal | src/context/SliderContext.tsx:172-191 | only the matching layer of the matching slide changes; a carried style replaces the whole style; order and ids are kept unless the update carries an id |
| SliderStore.RemoveLayersConcat | src/context/SliderContext.tsx:201 | the filter distributes over concatenation, so the remaining layers keep their order |
| SliderStore.RemoveAbsentLayer | src/context/SliderContext.tsx:201 | deleting an id no layer carries keeps the list |
| SliderStore.DeleteLayerTargetsOneSlide | src/context/SliderContext.tsx:193-205 | the matching slide keeps exactly its layers without the id; every other slide is unchanged |
| SliderStore.UiSettersSetOneField | src/context/SliderContext.tsx:155-214 | SET_CURRENT_SLIDE, SELECT_LAYER, SET_PLAYING and SET_CURRENT_TIME each set one field to the payload, unclamped, and keep the rest |
| SliderStore.SetProjectAndDefault | src/context/SliderContext.tsx:132-217 | SET_PROJECT replaces only the project; an unknown action returns the state |
| SliderStore.InitialStateShape | src/context/SliderContext.tsx:24-128 | the store starts with one 5000 ms slide of three layers "1", "2", "3", slide 0 exists, nothing selected, stopped at time 0 |
| UndoRedo.Undo | src/hooks/useUndoRedo.ts:20-34 | definition of `undo`: with an empty past the history is kept; otherwise the last past snapshot becomes present and the old present heads the future; UndoRedoMoveCursor, UndoRedoPreserveSize and UndoThenRedo state its effect |
| UndoRedo.Redo | src/hooks/useUndoRedo.ts:36-50 | definition of `redo`: with an empty future the history is kept; otherwise the first future snapshot becomes present and the old present ends the past; UndoThenRedo shows it undoes an undo |
| UndoRedo.AddToHistory | src/hooks/useUndoRedo.ts:52-58 | definition of `addToHistory`: the old present is appended to the past, the new state is present and the future is emptied; AddToHistoryCommits and AddAllTimeline state its effect on the timeline |
| UndoRedo.UndoCallbackAsWritten | src/hooks/useUndoRedo.ts:20-34 | definition of the `undo` callback as written: the guard reads the history of the render that created it, the updater runs on the current one, and an empty current past yields an undefined present; DoubleUndoLosesPresent and UndoOnCurrentHistoryKeepsPresent state what follows |
| UndoRedo.CanUndo | src/hooks/useUndoRedo.ts:17 | canUndo holds iff the past is non-empty |
| UndoRedo.CanRedo | src/hooks/useUndoRedo.ts:18 | canRedo holds iff the future is non-empty |
| UndoRedo.ClearHistory | src/hooks/useUndoRedo.ts:60-66 | the history is reset to the initial project with empty past and future |
| UndoRedo.HistoryIsItsTimeline | src/hooks/useUndoRedo.ts:4-8 | a history is determined by its chronological snapshot list and the present's position |
| UndoRedo.CanUndoRedoAtEnds | src/hooks/useUndoRedo.ts:17-18 | undo is possible iff the present is not the first snapshot, redo iff it is not the last |
| UndoRedo.UndoRedoMoveCursor | src/hooks/useUndoRedo.ts:20-50 | undo and redo keep the snapshot list and move the present one step back or forward; each is a no-op when its stack is empty |
| UndoRedo.UndoRedoPreserveSize | src/hooks/useUndoRedo.ts:25-47 | undo and redo preserve the number of snapshots |
| UndoRedo.UndoThenRedo | src/hooks/useUndoRedo.ts:20-50 | undo then redo, and redo then undo, restore (past, present, future) exactly |
| UndoRedo.AddToHistoryCommits | src/hooks/useUndoRedo.ts:52-58 | a commit appends the old present to the past, installs the new value, empties the future; undo right after brings back the old present |
| UndoRedo.AddAllTimeline | src/hooks/useUndoRedo.ts:52-58 | successive commits append their values to the snapshot list, in order |
| UndoRedo.UndoTimesTimeline | src/hooks/useUndoRedo.ts:20-34 | n undos keep the snapshot list and move the present n steps back |
| UndoRedo.CommitsThenUndos | src/hooks/useUndoRedo.ts:20-58 | n commits followed by n undos restore the original past and present, with the committed values in the future |
| UndoRedo.FreshCommitsThenUndos | src/hooks/useUndoRedo.ts:11-58 | from a fresh hook, n commits and n undos give back the initial project with an empty past |
| UndoRedo.Lift | src/hooks/useUndoRedo.ts:25 | each snapshot wrapped as a defined value, position by position |
| UndoRedo.DoubleUndoLosesPresent | src/hooks/useUndoRedo.ts:20-34 | two undo calls from one render with one past entry: the second updater installs an undefined present |
| UndoRedo.UndoOnCurrentHistoryKeepsPresent | src/hooks/useUndoRedo.ts:20-34 | with the guard read from the current history, undo installs the last past snapshot, or changes nothing |
| Timeline.Tick | src/components/Timeline.tsx:25-36 | definition: one frame stops when the elapsed time has reached maxTime and continues with the elapsed time otherwise; TickNeverOvershoots states what the frame dispatches |
| Timeline.Play | src/components/Timeline.tsx:21-38 | definition: the frame chain over a list of frame timestamps, started at now − currentTime, stopping at the first frame that reaches maxTime; PlayNeverOvershoots and ResumeFromCurrentPosition state its properties |
| Timeline.MaxTime | src/components/Timeline.tsx:18-19 | maxTime is never 0: a missing slide or a zero duration falls back to 15000 |
| Timeline.MaxTimeFromCurrentSlide | src/components/Timeline.tsx:18-19 | maxTime is the current slide's duration when there is one and it is non-zero, 15000 when there is no slide |
| Timeline.TickNeverOvershoots | src/components/Timeline.tsx:25-36 | a frame at or past maxTime parks the playhead on maxTime and stops playing; an earlier frame moves it to the elapsed time; nothing else changes |
| Timeline.PlayNeverOvershoots | src/components/Timeline.tsx:21-50 | over any run of frames the playhead never passes maxTime; when the chain stops it sits on maxTime with playback off, and the project is untouched |
| Timeline.ResumeFromCurrentPosition | src/components/Timeline.tsx:23 | with startTime = now − currentTime a frame at that instant leaves the state as it was and keeps the chain running |
| Timeline.TogglePlayback | src/components/Timeline.tsx:52-62 | the play button flips isPlaying; while stopped it rewinds to 0 exactly when the playhead is within 100 ms of the end; the project is kept |
| Timeline.ResetTimeline | src/components/Timeline.tsx:64-67 | reset sets the playhead to 0 and stops playback, nothing else |
| Timeline.ScrubTime | src/components/Timeline.tsx:73-77 | the scrub time is (x / width) · maxTime clamped into [0, maxTime]: 0 left of the strip, maxTime right of it |
| Timeline.DragHeight | src/components/Timeline.tsx:123 | a resize drag gives height − movementY when that is within [100, 400], exactly 100 below that range and exactly 400 above it |
| Timeline.HeightUp | src/components/Timeline.tsx:151 | Ctrl+Shift+ArrowUp gives exactly height + 20 when that is at most 400, and exactly 400 otherwise |
| Timeline.HeightDown | src/components/Timeline.tsx:157 | Ctrl+Shift+ArrowDown gives exactly height − 20 when that is at least 100, and exactly 100 otherwise |
| Timeline.HeightStaysInRange | src/components/Timeline.tsx:123-273 | from a height in [100, 400], drags, shortcuts and the four presets keep it in [100, 400] |
| Timeline.LayerPosition | src/components/Timeline.tsx:173-180 | the block's left and width are delay and duration as percentages of maxTime |
| Timeline.LayerPositionWithinStrip | src/components/Timeline.tsx:173-180 | a block that ends by maxTime lies within 0..100 % |
| Timeline.TimelinePanel.constructor | src/components/Timeline.tsx:7-13 | not dragging or resizing, height 128, no frame requested |
| Timeline.TimelinePanel.StartPlayback | src/components/Timeline.tsx:21-38 | turning playback on captures startTime = now − currentTime and maxTime and requests a frame |
| Timeline.TimelinePanel.StopPlayback | src/components/Timeline.tsx:39-49 | turning playback off cancels the pending frame |
| Timeline.TimelinePanel.Frame | src/components/Timeline.tsx:25-36 | one frame dispatches the tick's actions and requests another frame iff playback continues |
| Timeline.TimelinePanel.RunFrames | src/components/Timeline.tsx:25-38 | the frame chain's final state is the frame fold over the timestamps, and the playhead ends within maxTime |
| Timeline.TimelinePanel.TogglePlayback | src/components/Timeline.tsx:52-62 | the button's dispatches, computed from the pre-state, are applied in order |
| Timeline.TimelinePanel.ResetTimeline | src/components/Timeline.tsx:64-67 | the playhead goes to 0 and playback stops |
| Timeline.TimelinePanel.TimelineClick | src/components/Timeline.tsx:69-78 | a click without the strip or during a playhead drag changes nothing; otherwise the playhead goes to the scrub time |
| Timeline.TimelinePanel.PlayheadMouseDown | src/components/Timeline.tsx:80-85 | grabbing the playhead starts a drag and pauses playback |
| Timeline.TimelinePanel.MouseMove | src/components/Timeline.tsx:87-96 | pointer moves scrub only while the playhead is held |
| Timeline.TimelinePanel.MouseUp | src/components/Timeline.tsx:98-100 | mouse-up ends the playhead drag |
| Timeline.TimelinePanel.ResizeMouseDown | src/components/Timeline.tsx:115-118 | the resize handle starts a resize |
| Timeline.TimelinePanel.ResizeMouseMove | src/components/Timeline.tsx:120-125 | while resizing the height follows the pointer within [100, 400]; otherwise it is kept |
| Timeline.TimelinePanel.ResizeMouseUp | src/components/Timeline.tsx:127-129 | mouse-up ends the resize |
| Timeline.TimelinePanel.HeightKey | src/components/Timeline.tsx:144-166 | only Ctrl/Cmd+Shift+ArrowUp/ArrowDown change the height, by 20 within [100, 400] |
| Timeline.TimelinePanel.HeightPreset | src/components/Timeline.tsx:246-273 | a preset button sets the height to 100, 150, 200 or 300 |
| AnimationBlock.MoveDelay | src/components/timeline/AnimationBlock.tsx:123-128 | definition: a moved block's delay is the start delay plus the time the pointer moved, clamped to [0, maxTime − duration], then grid-snapped; MoveDelayBounds states its bounds |
| AnimationBlock.ResizeLeft | src/components/timeline/AnimationBlock.tsx:129-136 | definition: a left-edge drag clamps the delay to [0, start end − 100], snaps it, and shortens the duration by the shift, floored at 100; ResizeLeftBounds and ResizeLeftKeepsGridEnd state its bounds |
| AnimationBlock.ResizeRight | src/components/timeline/AnimationBlock.tsx:137-144 | definition: a right-edge drag clamps the duration to [100, maxTime − delay], then grid-snaps it; ResizeRightBounds states its bounds |
| AnimationBlock.MoveUpdate | src/components/timeline/AnimationBlock.tsx:112-145 | definition: a pointer move reports nothing without a container or a gesture, the delay for a body drag, delay and duration for a left-edge drag, the duration for a right-edge drag; MoveUpdateCases states the cases |
| AnimationBlock.PixelToTime | src/components/timeline/AnimationBlock.tsx:38-40 | the time distance is the pixel distance scaled by maxTime / containerWidth |
| AnimationBlock.SnapToGrid | src/components/timeline/AnimationBlock.tsx:51-54 | the result is a multiple of 100 within (t − 50, t + 50], Math.round's tie going up |
| AnimationBlock.SnapIdentityOnGrid | src/components/timeline/AnimationBlock.tsx:51-54 | a time already on the grid is kept |
| AnimationBlock.SnapMonotone | src/components/timeline/AnimationBlock.tsx:51-54 | snapping preserves order |
| AnimationBlock.SnapProperties | src/components/timeline/AnimationBlock.tsx:51-54 | snapping moves a time by at most 50, is idempotent and keeps non-negative times non-negative |
| AnimationBlock.MoveDelayBounds | src/components/timeline/AnimationBlock.tsx:123-128 | a moved delay is a non-negative multiple of 100 and the block ends by maxTime whenever maxTime − duration is itself on the grid and non-negative |
| AnimationBlock.ResizeLeftBounds | src/components/timeline/AnimationBlock.tsx:129-136 | trimming the start keeps the duration ≥ 100 and the delay a non-negative grid time; the end stays at start.delay + start.duration unless the 100 floor applies |
| AnimationBlock.ResizeLeftKeepsGridEnd | src/components/timeline/AnimationBlock.tsx:129-136 | when the latest allowed start is on the grid the end never moves |
| AnimationBlock.ResizeRightBounds | src/components/timeline/AnimationBlock.tsx:137-144 | a resized duration is a grid time ≥ 100 and fits by maxTime when maxTime − delay is on the grid and ≥ 100 |
| AnimationBlock.MoveUpdateCases | src/components/timeline/AnimationBlock.tsx:112-145 | no report without a container or a gesture; a body drag reports only a delay, the left edge both, the right edge only a duration, each within its bounds |
| AnimationBlock.MoveDependsOnTotalDistance | src/components/timeline/AnimationBlock.tsx:119-121 | shifting the mouse-down point and the pointer together changes nothing: the report depends only on the total distance |
| AnimationBlock.BlockGesture.constructor | src/components/timeline/AnimationBlock.tsx:25-27 | no drag, no resize, a zero snapshot |
| AnimationBlock.BlockGesture.BodyMouseDown | src/components/timeline/AnimationBlock.tsx:57-77 | a press off the block and its content does nothing; otherwise it selects the layer only when not yet selected, starts a move and snapshots x, delay and duration |
| AnimationBlock.BlockGesture.EdgeMouseDown | src/components/timeline/AnimationBlock.tsx:80-109 | an edge press starts that edge's resize and snapshots x, delay and duration |
| AnimationBlock.BlockGesture.MouseMove | src/components/timeline/AnimationBlock.tsx:112-145 | the reported update is the move function of the gesture state and the snapshot |
| AnimationBlock.BlockGesture.MouseUp | src/components/timeline/AnimationBlock.tsx:148-153 | mouse-up clears both the drag and the resize |
| CanvasZoom.Apply | src/hooks/useCanvasZoom.ts:3-16 | definition: one zoom operation of the hook (zoom in, zoom out, set level); ZoomStaysInRange and SetLevelLast state what sequences of them do |
| CanvasConfig.Toggle | src/hooks/useCanvasSettings.ts:20-34 | a toggle never changes the grid size |
| CanvasConfig.SetGridSize | src/hooks/useCanvasSettings.ts:36-38 | setGridSize sets the grid size and keeps every flag |
| CanvasConfig.ToggleFlipsOneFlag | src/hooks/useCanvasSettings.ts:20-34 | each toggle flips its own flag, keeps the other three, and undoes itself |
| CanvasConfig.SettingsExtensional | src/hooks/useCanvasSettings.ts:3-9 | settings that agree on the four flags and the grid size are equal |
| CanvasConfig.SnapValue | src/hooks/useCanvasSettings.ts:40-43 | the value itself when snapping is off, otherwise a whole number of grid steps |
| CanvasConfig.SnapIsNearest | src/hooks/useCanvasSettings.ts:40-43 | with a positive grid the snapped value lies within half a grid step of the input |
| CanvasConfig.NearestMultiple | src/hooks/useCanvasSettings.ts:42 | the multiple Math.round picks is within half a step of the value |
| CanvasConfig.SnapIdempotent | src/hooks/useCanvasSettings.ts:40-43 | snapping twice is snapping once |
| CanvasConfig.SnapExamples | src/hooks/useCanvasSettings.ts:40-43 | at grid 20, 33 snaps to 40 and 10 rounds up to 20; with snapping off 33 stays 33 |
| CanvasConfig.DefaultsAllOn | src/hooks/useCanvasSettings.ts:12-18 | the defaults turn all four flags on with grid size 20 |
| CanvasZoom.ZoomIn | src/hooks/useCanvasZoom.ts:6-8 | zoomIn gives exactly zoom + 0.25 when that is at most 2, and exactly 2 otherwise |
| CanvasZoom.ZoomOut | src/hooks/useCanvasZoom.ts:10-12 | zoomOut gives exactly zoom − 0.25 when that is at least 0.25, and exactly 0.25 otherwise |
| CanvasZoom.SetZoomLevel | src/hooks/useCanvasZoom.ts:14-16 | setZoom clamps any level into [0.25, 2] and keeps a level already inside |
| CanvasZoom.ZoomStaysInRange | src/hooks/useCanvasZoom.ts:3-16 | from a zoom in [0.25, 2] any sequence of operations stays in range |
| CanvasZoom.SetLevelLast | src/hooks/useCanvasZoom.ts:3-16 | a sequence ending in setZoom lands in range even from an unclamped initial zoom |
| CanvasZoom.ZoomLimits | src/hooks/useCanvasZoom.ts:6-12 | zoomIn at 2 and zoomOut at 0.25 do nothing; away from the caps each undoes the other |
| CanvasDrag.GuidesFor | src/hooks/useCanvasDragDrop.ts:30-47 | definition: the guide set of `calculateAlignmentGuides` as a function, the edge guides of every layer but the dragged one on each axis; GuidesForShape states its shape and CalculateAlignmentGuides computes it by a loop |
| CanvasDrag.GuideSnap | src/components/Canvas.tsx:107-126 | definition: the guide pass, each guide in list order checked against the leading edge, the centre and the trailing edge within 5 pixels, a later match overriding an earlier one; FarFromAllGuidesUnchanged, GuideSnapAligns and LastGuideWins state its properties |
| CanvasDrag.DragTarget | src/components/Canvas.tsx:100-137 | definition: the committed coordinate, the raw position grid-snapped when snapping is on, then guide-snapped, then floored at 0; DragTargetCases states the cases |
| CanvasDrag.DragUpdate | src/components/Canvas.tsx:128-141 | definition: the UPDATE_LAYER a drag move dispatches, the layer's style with the new x and y; DragUpdateMovesOnlyPosition states that nothing else changes |
| CanvasDrag.EdgeGuides | src/hooks/useCanvasDragDrop.ts:36-43 | three guides per layer and axis |
| CanvasDrag.OtherLayers | src/hooks/useCanvasDragDrop.ts:31 | a layer is kept iff it is in the list and is not the dragged one |
| CanvasDrag.AxisGuidesLayout | src/hooks/useCanvasDragDrop.ts:34-44 | layer j's leading edge, centre and trailing edge are guides 3j, 3j+1 and 3j+2, so the list has three per layer |
| CanvasDrag.GuidesForShape | src/hooks/useCanvasDragDrop.ts:30-47 | both guide lists have 3 · (number of other layers) entries, laid out layer by layer in order, and the dragged layer contributes none |
| CanvasDrag.PushEdgeGuides | src/hooks/useCanvasDragDrop.ts:34-44 | the pushes build, in layer order, each layer's leading edge, centre and trailing edge on each axis |
| CanvasDrag.CalculateAlignmentGuides | src/hooks/useCanvasDragDrop.ts:30-47 | the result is exactly the guide set of the layers other than the dragged one |
| CanvasDrag.RawPositionTracksPointer | src/components/Canvas.tsx:88-98 | the raw position is the start position plus the pointer's travel over the zoom; no movement reproduces the start position |
| CanvasDrag.SnapToGuides | src/components/Canvas.tsx:107-126 | the sequential pass over the guides with its three checks equals the guide-snap function |
| CanvasDrag.FarFromAllGuidesUnchanged | src/components/Canvas.tsx:107-126 | a position none of whose three reference points is within 5 of any guide is left unchanged |
| CanvasDrag.GuideSnapAligns | src/components/Canvas.tsx:107-126 | the guide pass leaves the position alone or puts a reference point exactly on some guide |
| CanvasDrag.LastGuideWins | src/components/Canvas.tsx:107-126 | a reference point within the threshold of the last guide ends on that guide, overriding earlier matches |
| CanvasDrag.DragTargetCases | src/components/Canvas.tsx:100-137 | the committed coordinate is max(0, ·) of the guide pass over the grid result, which is the raw value when snapping is off; no upper bound |
| CanvasDrag.DragUpdateMovesOnlyPosition | src/components/Canvas.tsx:128-141 | a drag update changes only x and y of the dragged layer; every other style field, layer and slide is kept |
| CanvasDrag.CanvasDragController.constructor | src/hooks/useCanvasDragDrop.ts:13-14 | no drag and no guides |
| CanvasDrag.CanvasDragController.StartDragging | src/hooks/useCanvasDragDrop.ts:16-18 | replaces the dragging state wholesale |
| CanvasDrag.CanvasDragController.StopDragging | src/hooks/useCanvasDragDrop.ts:20-23 | no drag and both guide lists empty |
| CanvasDrag.CanvasDragController.UpdateAlignmentGuides | src/hooks/useCanvasDragDrop.ts:25-27 | replaces the guide set wholesale |
| CanvasDrag.CanvasDragController.LayerMouseDown | src/components/Canvas.tsx:71-91 | SELECT_LAYER first; with a canvas rect the guides are computed once from the current slide and the grab offsets are captured |
| CanvasDrag.CanvasDragController.MouseMove | src/components/Canvas.tsx:93-142 | nothing without a drag, a canvas or a slide; otherwise one UPDATE_LAYER moving the layer to the snapped, floored position |
| CanvasDrag.CanvasDragController.MouseUp | src/components/Canvas.tsx:144-146 | mouse-up stops the drag and clears the guides |
| CanvasAnimations.AnimationClassName | src/hooks/useCanvasAnimations.ts:15-17 | definition of `getAnimationClassName`: lower-cased, each whitespace run replaced by one '-'; AnimationClassNameHasNoSpace and AnimationClassNameExample state its properties |
| CanvasAnimations.PreviewAll | src/hooks/useCanvasAnimations.ts:42-61 | definition of `previewAllAnimations`: nothing for no layers; otherwise the layers stably sorted by delay and the time preview mode ends; PreviewAllPlan states its properties |
| CanvasLayerView.ShouldShow | src/components/canvas/CanvasLayer.tsx:37-39 | definition: a layer is shown outside preview mode, while its entrance animates, or when its entry's current animation is null; VisibilityCases states the cases |
| CanvasLayerView.LayerStyle | src/components/canvas/CanvasLayer.tsx:41-66 | definition: the style the canvas gives a layer, geometry, font size and corner radius scaled by the zoom, opacity 0 when hidden, selection border, preview delay, grab cursor and centring for buttons; LayerStyleProperties states it |
| CanvasAnimations.AnimationClassNameHasNoSpace | src/hooks/useCanvasAnimations.ts:15-17 | a class name contains no whitespace |
| CanvasAnimations.AnimationClassNameExample | src/hooks/useCanvasAnimations.ts:15-17 | "Slide In Left" becomes "slide-in-left" |
| CanvasAnimations.StartLayerAnimation | src/hooks/useCanvasAnimations.ts:22-28 | the layer's entry becomes animating with the given kind; every other entry is kept; the key set gains only the layer id |
| CanvasAnimations.InsertByDelay | src/hooks/useCanvasAnimations.ts:48 | inserting adds exactly the one layer to the multiset |
| CanvasAnimations.SortByDelay | src/hooks/useCanvasAnimations.ts:48 | the sorted copy is a permutation of the layers |
| CanvasAnimations.InsertKeepsSorted | src/hooks/useCanvasAnimations.ts:48 | insertion into a delay-ordered list keeps it ordered |
| CanvasAnimations.SortIsSorted | src/hooks/useCanvasAnimations.ts:48 | the copy is ordered by delay |
| CanvasAnimations.WithDelayAppend | src/hooks/useCanvasAnimations.ts:48 | the layers of one delay in a list with one more layer appended |
| CanvasAnimations.WithDelayAllBelow | src/hooks/useCanvasAnimations.ts:48 | a list whose delays are all below d holds no layer of delay d |
| CanvasAnimations.InsertStable | src/hooks/useCanvasAnimations.ts:48 | insertion places the new layer after every layer of equal delay |
| CanvasAnimations.SortIsStable | src/hooks/useCanvasAnimations.ts:48 | layers sharing a delay keep their original relative order (Array.prototype.sort is stable) |
| CanvasAnimations.SortOfSortedIsIdentity | src/hooks/useCanvasAnimations.ts:48 | an already ordered list is its own sorted copy |
| CanvasAnimations.MaxEnd | src/hooks/useCanvasAnimations.ts:57 | the largest delay + duration: an upper bound attained by some layer |
| CanvasAnimations.MaxEndOfPermutation | src/hooks/useCanvasAnimations.ts:57 | sorting does not change the largest end time |
| CanvasAnimations.PreviewAllPlan | src/hooks/useCanvasAnimations.ts:42-61 | an empty list schedules nothing; otherwise the entrances run in delay order over a permutation of the layers and preview mode ends 500 ms after the latest end |
| CanvasLayerView.AnimationClass | src/components/canvas/CanvasLayer.tsx:28-34 | no class unless an entry is animating a known kind |
| CanvasLayerView.VisibilityCases | src/components/canvas/CanvasLayer.tsx:37-39 | all layers show outside preview; in preview a layer without an entry or animating its exit is hidden, an animating entrance or a finished entry is shown |
| CanvasLayerView.LayerStyleProperties | src/components/canvas/CanvasLayer.tsx:41-66 | a hidden layer has opacity 0, a shown one its own; the selection border only outside preview; the delay only in preview; the box is the style geometry times the zoom; an absent or 0 font size or corner radius sets no property, a non-zero one is scaled by the zoom |
| CanvasLayerView.AnimationClassCases | src/components/canvas/CanvasLayer.tsx:28-34 | an animating entrance or exit gets its own name's class; a non-animating entry none |
| CanvasLayerView.StartedEntranceIsShown | src/hooks/useCanvasAnimations.ts:22-28 | starting a layer's entrance preview makes it visible with its entrance class |
| CanvasShortcuts.ApplyCanvasKey | src/hooks/useCanvasKeyboardShortcuts.ts:17-40 | definition: the canvas settings after a key-down, the flag the key names flipped, or unchanged; CanvasKeyTable and CanvasKeyTwiceRestores state its effect |
| KeyboardShortcuts.HandleKeyDown | src/hooks/useKeyboardShortcuts.ts:9-78 | definition of `handleKeyDown`: nothing for a key typed into a field; F1, Escape, Space, Delete and the Ctrl/Cmd letters in the source's order; KeyTable, DeleteKey and CtrlCommandsChangeNothing state the cases |
| CanvasShortcuts.CanvasKeyToggle | src/hooks/useCanvasKeyboardShortcuts.ts:17-40 | without Ctrl no toggle fires |
| CanvasShortcuts.CanvasKeyTable | src/hooks/useCanvasKeyboardShortcuts.ts:17-40 | Ctrl+g/G flips the grid, Ctrl+r/R the rulers, Ctrl+Shift+; snapping, Ctrl+; the guides; any other key, or no Ctrl, changes nothing |
| CanvasShortcuts.CanvasKeyTwiceRestores | src/hooks/useCanvasKeyboardShortcuts.ts:17-40 | the same shortcut pressed twice restores the settings |
| KeyboardShortcuts.KeyTable | src/hooks/useKeyboardShortcuts.ts:9-35 | keys typed into a field do nothing; F1 opens the panel; Escape closes it and clears the selection; Space flips playback; every key fires at most one dispatch |
| KeyboardShortcuts.DeleteKey | src/hooks/useKeyboardShortcuts.ts:37-51 | Delete dispatches DELETE_LAYER of the selected id on the current slide exactly when an id is selected and the slide exists |
| KeyboardShortcuts.CtrlCommandsChangeNothing | src/hooks/useKeyboardShortcuts.ts:53-77 | Ctrl/Cmd with z, y, s or e in either case dispatches nothing, cancels the default and logs its "not implemented yet" line |
| SidebarEdits.SetStyleKey | src/components/Sidebar.tsx:60-62 | definition: `{ ...style, [key]: value }`, a geometry key taking a number and any other key the optional property; SetStyleKeyReadBack and SetStyleKeyKeepsOthers state its effect |
| SidebarEdits.UpdateLayerProperty | src/components/Sidebar.tsx:55-78 | definition of `updateLayerProperty`: nothing without a current slide or a selected layer; otherwise one UPDATE_LAYER built from the dot path; UpdateNeedsSelection, StylePathUpdate, AnimationPathUpdate and ContentPathUpdate state the cases |
| SidebarEdits.AddLayerAction | src/components/Sidebar.tsx:18-53 | definition of `addLayer`: nothing without a current slide; otherwise ADD_LAYER of the default layer with zIndex one past the layer count; AddLayerDefaults and AddLayerAppendsToCurrentSlide state its effect |
| SidebarEdits.DeleteLayerAction | src/components/SidebarRefactored.tsx:80-87 | definition of `deleteLayer`: nothing without a current slide; otherwise DELETE_LAYER on it; DeleteLayerTargetsCurrentSlide states its effect |
| SidebarEdits.SelectedLayer | src/components/Sidebar.tsx:15-16 | a selected layer is a layer of the current slide carrying the selected id |
| SidebarEdits.SetStyleKeyReadBack | src/components/Sidebar.tsx:60-62 | `{...style, [k]: v}` reads back v under k |
| SidebarEdits.SetStyleKeyKeepsOthers | src/components/Sidebar.tsx:60-62 | writing one style key keeps every other key's value |
| SidebarEdits.SetAnimationKeyReadBack | src/components/SidebarRefactored.tsx:63-65 | `{...animation, [k]: v}` reads back v under k, unclamped |
| SidebarEdits.SetAnimationKeyKeepsOthers | src/components/SidebarRefactored.tsx:63-65 | writing one animation field keeps the others; an unknown key changes nothing |
| SidebarEdits.StartsWithConcat | src/components/Sidebar.tsx:60-61 | a prefix followed by k starts with the prefix, and stripping it gives k |
| SidebarEdits.UpdateNeedsSelection | src/components/Sidebar.tsx:55-78 | an update is dispatched iff a layer of the current slide is selected, and then it targets that slide and layer |
| SidebarEdits.StylePathUpdate | src/components/Sidebar.tsx:55-78 | a "style.k" path sends the selected layer's whole style with k replaced and every other key kept, and nothing else |
| SidebarEdits.AnimationPathUpdate | src/components/SidebarRefactored.tsx:55-78 | an "animation.k" path sends the whole animation with k replaced and every other field kept, and no style |
| SidebarEdits.ContentPathUpdate | src/components/SidebarOriginal.tsx:66-67 | the "content" path sends the new text alone |
| SidebarEdits.AddLayerDefaults | src/components/SidebarOriginal.tsx:18-53 | nothing without a current slide; otherwise the new layer sits at (100, 100) on top with zIndex = count + 1, 200×50 text, 120×40 button, 100×100 otherwise, opaque, unrotated, 600 ms Fade In/Fade Out; a shape names its type in content and shapeType |
| SidebarEdits.AddLayerAppendsToCurrentSlide | src/components/Sidebar.tsx:18-53 | dispatching it keeps the slide count, appends the new layer to the current slide, and leaves every slide with another id as it was |
| SidebarEdits.DeleteLayerTargetsCurrentSlide | src/components/SidebarRefactored.tsx:80-87 | nothing without a current slide; otherwise DELETE_LAYER on the current slide |
| SlideTemplates.ApplyTemplate | src/utils/templates.ts:310-319 | definition of `applyTemplate` over the three built-in templates; ApplyTemplateCopies and ApplicationsShareLayerIds state its properties |
| SlideThumbnails.ThumbnailsAddSlide | src/components/SlideThumbnails.tsx:7-25 | definition of the strip's `addSlide`: ADD_SLIDE then SET_CURRENT_SLIDE to the old count, nothing without a project; AddSlideSelectsIt states its effect |
| SlideThumbnails.RepairIndex | src/components/SlideThumbnails.tsx:32-34 | definition: after a delete, an index at or past the last slide moves back one, floored at 0; RepairIndexInRange states its bounds |
| SlideThumbnails.ThumbnailsDeleteSlide | src/components/SlideThumbnails.tsx:27-35 | definition of the strip's `deleteSlide`: nothing with no project or one slide; otherwise DELETE_SLIDE and, for an index at the end, SET_CURRENT_SLIDE; DeleteSlideRepairsIndex states its effect |
| TopBar.TopBarAddSlide | src/components/TopBar.tsx:15-30 | definition of the top bar's `addSlide`; TopBarAddSlideKeepsIndex states its effect |
| TopBar.AddTemplateSlide | src/components/TopBar.tsx:32-38 | definition of `addTemplateSlide`; AddTemplateSlideCases states its cases |
| MediaLibrary.AddImageLayer | src/components/MediaLibrary.tsx:48-78 | definition of `addImageLayer`: nothing without a current slide; otherwise ADD_LAYER of the image layer with zIndex one past the layer count; AddImageLayerDefaults states its effect |
| TimelinePlayhead.Parts | src/components/timeline/TimelinePlayhead.tsx:13-18 | definition: the minutes, seconds and tenths `formatTime` computes, with JavaScript's `%` and `Math.floor`; PartsBounds states their bounds |
| TimelinePlayhead.FormatTime | src/components/timeline/TimelinePlayhead.tsx:13-23 | definition of `formatTime`; ShortFormat, LongFormat and FormatExamples state its output |
| SlideTemplates.FindTemplate | src/utils/templates.ts:311 | None iff no template has the id; otherwise the first template carrying it |
| SlideTemplates.ApplyTemplateCopies | src/utils/templates.ts:310-319 | an unknown id gives null; a known one gives that template under the fresh id, named "<name> Copy", with background, layers and duration unchanged |
| SlideTemplates.ApplicationsShareLayerIds | src/utils/templates.ts:314-318 | the spread copies layers as they are, so two applications share layer ids and differ only in the slide id |
| SlideTemplates.HeroTimed | src/utils/templates.ts:4-88 | the hero template lasts 15000 ms and each layer starts on the 100 ms grid, lasts at least 100 ms and ends within the slide |
| SlideTemplates.FeaturesTimed | src/utils/templates.ts:89-195 | the same timing facts for the features template |
| SlideTemplates.CallToActionTimed | src/utils/templates.ts:196-306 | the same timing facts for the call-to-action template |
| SlideTemplates.TemplatesAreWellTimed | src/utils/templates.ts:3-307 | every template in the catalogue is well timed |
| SlideTemplates.TemplateIds | src/utils/templates.ts:3-307 | three templates, ids template-hero / template-features / template-cta in that order; any other id applies nothing; the hero copy is "Hero Section Copy" |
| SlideThumbnails.AddSlideSelectsIt | src/components/SlideThumbnails.tsx:7-25 | nothing without a project; otherwise "Slide N+1" is appended after the kept slides and becomes the current slide, selection and playback untouched |
| SlideThumbnails.RepairIndexInRange | src/components/SlideThumbnails.tsx:32-34 | the repair maps an index valid for n ≥ 2 slides to one valid for n − 1, and keeps an index below the last |
| SlideThumbnails.RemoveSlidesCount | src/context/SliderContext.tsx:145-153 | DELETE_SLIDE's filter removes exactly the slides carrying the id |
| SlideThumbnails.RemoveSlidesEnd | src/context/SliderContext.tsx:145-153 | the filter on a list ending in x is the filter on the rest, then x unless it carries the id |
| SlideThumbnails.RemoveSlidesConcat | src/context/SliderContext.tsx:145-153 | the filter distributes over concatenation |
| SlideThumbnails.DeleteSlideRepairsIndex | src/components/SlideThumbnails.tsx:27-35 | nothing with no project or one slide; otherwise the id's slides are removed and the index is repaired from the pre-delete count, staying valid when one slide carried the id |
| SlideThumbnails.ShowsDeleteButton | src/components/SlideThumbnails.tsx:63 | the delete button is hidden only when a delete would change nothing |
| TopBar.TopBarAddSlideKeepsIndex | src/components/TopBar.tsx:15-30 | nothing without a project; otherwise an empty 5000 ms "Slide N+1" with the fixed gradient is appended, the current index and the UI state kept |
| TopBar.AddTemplateSlideCases | src/components/TopBar.tsx:32-38 | an unknown template dispatches nothing and leaves the picker open or closed as it was; a known one appends its copy under the fresh id and closes the picker |
| TopBar.TogglePlaybackFlips | src/components/TopBar.tsx:40-42 | playback flips, time, project, slide index and selection stay, and toggling twice restores the state |
| MediaLibrary.ReadsFile | src/components/MediaLibrary.tsx:13-14 | a file is read iff there is one and its type starts with "image/" |
| MediaLibrary.MimeGateExamples | src/components/MediaLibrary.tsx:14 | image/png and bare image/ are read; no file, video/mp4 and text/image/ are not |
| MediaLibrary.AddImageLayerDefaults | src/components/MediaLibrary.tsx:48-78 | nothing without a current slide; otherwise a 300×200 image layer at (100, 100) showing the URL, opaque, unrotated, zIndex count + 1, 600 ms fades without delay, appended to the current slide |
| TimelinePlayhead.ProgressPercent | src/components/timeline/TimelinePlayhead.tsx:11 | capped at 100, proportional below the end, 100 from the end on, negative for a negative time (no lower cap) |
| TimelinePlayhead.IntRem | src/components/timeline/TimelinePlayhead.tsx:16 | JavaScript `%`: Euclidean on a non-negative dividend, and strictly inside (−b, b) |
| TimelinePlayhead.PadTwo | src/components/timeline/TimelinePlayhead.tsx:20 | padStart(2, '0'): two characters ending in the input when it was shorter, the input itself otherwise |
| TimelinePlayhead.PartsBounds | src/components/timeline/TimelinePlayhead.tsx:13-18 | for ms ≥ 0 the tenths are 0..9, the seconds 0..59, and minutes/seconds/tenths recompose ms to within 100 ms; minutes are 0 below one minute and ≥ 1 from it |
| TimelinePlayhead.ShortFormat | src/components/timeline/TimelinePlayhead.tsx:22 | below a minute the read-out is "<seconds>.<tenths>s" |
| TimelinePlayhead.LongFormat | src/components/timeline/TimelinePlayhead.tsx:19-21 | from a minute on it is "<minutes>:<two-digit seconds>.<tenths>" without a unit |
| TimelinePlayhead.FormatExamples | src/components/timeline/TimelinePlayhead.tsx:13-23 | 1500 ms reads "1.5s" and 65300 ms reads "1:05.3" |
| AnimationMapper.IsValidAnimation | src/utils/animationMapper.ts:80-82 | definition of `isValidAnimation` as intended, a name the table holds as its own key; ValidIffHasClass and ValidityVersionsAgree relate it to the class lookup and to the code as written |
| AnimationMapper.GetAvailableAnimations | src/utils/animationMapper.ts:70-77 | definition of `getAvailableAnimations`; AvailableAnimationsByKind states its result |
| AnimationMapper.MappedCss | src/utils/animationMapper.ts:38-59 | definition: the keyframes and class blocks `generateAnimationCSS` appends, one per mapped preset in list order; MappedCssHasEachBlock, MappedCssPrefix and UnmappedPresetIsSkipped state its properties |
| AnimationsPanel.GetAnimationIcon | src/components/panels/AnimationsPanel.tsx:7-46 | definition of `getAnimationIcon`: the first rule whose text the lower-cased name includes, else the entrance or exit fallback; FirstRuleIcon, FirstMatchWins, FallbackRule and CatalogIconsAreSpecific state its properties |
| AnimationsPanel.PanelOptions | src/components/panels/AnimationsPanel.tsx:150-186 | definition: the entrance or exit selector's options, the catalogue filtered by kind, then mapped to buttons; PanelOptionsOfKind states them |
| AnimationCatalog.CatalogShape | src/utils/animations.ts:3-368 | 22 presets, twelve entrance first and ten exit after, every default duration between 400 and 1000 ms |
| AnimationCatalog.CatalogNames | src/utils/animations.ts:3-368 | the catalogue lists exactly the 22 preset names, in declaration order |
| AnimationCatalog.GetAnimationCssNames | src/utils/animations.ts:370-380 | the text declares keyframes and a class under the given name, holds the preset's keyframes, and runs them for the preset's duration and easing with `forwards` |
| AnimationMapper.MapperClassName | src/utils/animationMapper.ts:65-67 | an own key gives its class; a name inherited from Object.prototype gives that inherited (truthy) member; any other name gives "" |
| AnimationMapper.OwnClassName | src/utils/animationMapper.ts:65-67 | the intended lookup: non-empty iff the name is one of the table's own keys, and then its class |
| AnimationMapper.ValidIffHasClass | src/utils/animationMapper.ts:65-82 | the written check accepts a name iff the written lookup is not ""; the own-key check accepts it iff the intended lookup is non-empty; away from inherited names both lookups agree |
| AnimationMapper.InheritedNameIsAccepted | src/utils/animationMapper.ts:80-82 | "toString" has no class, yet `in` accepts it and the lookup returns the inherited function; the own-key check rejects it |
| AnimationMapper.ValidityVersionsAgree | src/utils/animationMapper.ts:80-82 | on a name not inherited from Object.prototype the written and the own-key checks agree |
| AnimationMapper.EveryPresetIsMapped | src/utils/animationMapper.ts:4-32 | every catalogue preset's name has a class |
| AnimationMapper.OfKind | src/utils/animationMapper.ts:72-73 | `filter` by type: keeps exactly the presets of that type, never more than there were |
| AnimationMapper.Names | src/utils/animationMapper.ts:74 | `map(preset => preset.name)`: same length, the i-th name is the i-th preset's |
| AnimationMapper.OfKindConcat | src/utils/animationMapper.ts:72-73 | filtering distributes over concatenation, so order is kept |
| AnimationMapper.OfKindAll | src/utils/animationMapper.ts:72-73 | a list all of one type is kept whole |
| AnimationMapper.OfKindNone | src/utils/animationMapper.ts:72-73 | a list with none of the type filters to nothing |
| AnimationMapper.NamesConcat | src/utils/animationMapper.ts:74 | mapping names distributes over concatenation |
| AnimationMapper.SectionsByKind | src/utils/animationMapper.ts:72-73 | filtering an entrance section followed by an exit section gives back each section |
| AnimationMapper.AvailableAnimationsByKind | src/utils/animationMapper.ts:70-77 | entrance gives the twelve entrance names, exit the ten exit names, each in catalogue order; no type gives all 22 |
| AnimationMapper.AppendPresetBlocks | src/utils/animationMapper.ts:36-61 | the loop's text is the sheet of the list: one block per mapped preset, appended in list order, unmapped ones skipped |
| AnimationMapper.GenerateAnimationCss | src/utils/animationMapper.ts:35-62 | the generated sheet is the sheet of the whole catalogue |
| AnimationMapper.PresetCssContents | src/utils/animationMapper.ts:42-58 | a block declares `<class>-keyframes`, holds the preset's keyframes and a `.<class>` rule running them with the preset's duration and easing |
| AnimationMapper.MappedCssHasEachBlock | src/utils/animationMapper.ts:38-59 | every mapped preset's block occurs in the sheet |
| AnimationMapper.MappedCssPrefix | src/utils/animationMapper.ts:38-59 | the sheet of a prefix of the list is a prefix of the sheet: blocks come out in list order |
| AnimationMapper.UnmappedPresetIsSkipped | src/utils/animationMapper.ts:39-40 | a preset without a class adds nothing |
| AnimationMapper.SheetCoversCatalogue | src/utils/animationMapper.ts:35-62 | the sheet holds a block for each of the 22 catalogue presets under its mapped class |
| AnimationsPanel.FirstRuleIcon | src/components/panels/AnimationsPanel.tsx:10-42 | None iff no rule from that point on occurs in the name; otherwise the icon of the first rule that does |
| AnimationsPanel.FirstMatchWins | src/components/panels/AnimationsPanel.tsx:8-42 | the first rule whose text occurs in the lower-cased name decides the icon, whatever later rules match |
| AnimationsPanel.FallbackRule | src/components/panels/AnimationsPanel.tsx:45 | with no rule matching, a name holding "in" gets the sign-in icon, one holding neither "in" nor "entrance" the sign-out icon |
| AnimationsPanel.ScaleInBigIcon | src/components/panels/AnimationsPanel.tsx:20-21 | "Scale In Big" gets fa-expand-arrows-alt, its own rule coming before "scale in" |
| AnimationsPanel.NameIsRule | src/components/panels/AnimationsPanel.tsx:8 | a name that lower-cases to a rule's text matches that rule |
| AnimationsPanel.NameIcons0To3 | src/components/panels/AnimationsPanel.tsx:10-42 | the first four catalogue names each match a specific rule |
| AnimationsPanel.NameIcons4To7 | src/components/panels/AnimationsPanel.tsx:10-42 | catalogue names 4-7 each match a specific rule |
| AnimationsPanel.NameIcons8To11 | src/components/panels/AnimationsPanel.tsx:10-42 | catalogue names 8-11 each match a specific rule |
| AnimationsPanel.NameIcons12To15 | src/components/panels/AnimationsPanel.tsx:10-42 | catalogue names 12-15 each match a specific rule |
| AnimationsPanel.NameIcons16To19 | src/components/panels/AnimationsPanel.tsx:10-42 | catalogue names 16-19 each match a specific rule |
| AnimationsPanel.NameIcons20To21 | src/components/panels/AnimationsPanel.tsx:10-42 | the last two catalogue names each match a specific rule |
| AnimationsPanel.CatalogIconsAreSpecific | src/components/panels/AnimationsPanel.tsx:10-45 | every catalogue preset's name is caught by a specific rule, never by the fallback |
| AnimationsPanel.OptionsOf | src/components/panels/AnimationsPanel.tsx:152-157 | one option per preset |
| AnimationsPanel.OptionAt | src/components/panels/AnimationsPanel.tsx:152-157 | the i-th option is the i-th preset's button |
| AnimationsPanel.PresetOptionFields | src/components/panels/AnimationsPanel.tsx:153-156 | a button's value and label are the preset's name and its description "<duration>ms duration" |
| AnimationsPanel.OptionIcon | src/components/panels/AnimationsPanel.tsx:155 | a preset some rule catches shows that rule's icon |
| AnimationsPanel.OptionOfKindAt | src/components/panels/AnimationsPanel.tsx:150-157 | the i-th option of a filtered list is the button of a preset of that type from the list, with its name, duration and icon |
| AnimationsPanel.PanelOptionsOfKind | src/components/panels/AnimationsPanel.tsx:150-186 | a selector offers exactly the catalogue's names of its type in order, each described by its duration and given a specific rule's icon |
| SliderExport.ExportToHtml | src/utils/export.ts:16-38 | definition of `exportToHTML`; ExportSkeleton states its skeleton |
| SliderExport.GenerateCss | src/utils/export.ts:40-147 | definition of `generateCSS`; CssAnimationsIffIncluded states its contents |
| SliderExport.GenerateJavaScript | src/utils/export.ts:200-317 | definition of `generateJavaScript`; ScriptEmbedsSettings and ScriptFlagsExample state its contents |
| SliderExport.GenerateHtml | src/utils/export.ts:319-374 | definition of `generateHTML`; PageHoldsEverySlide, SlideIsActiveIffFirst and DotsHaveOneActive state its contents |
| SliderExport.LayerHtml | src/utils/export.ts:321-349 | definition: one layer's `<div class="layer">`; LayerAnimationAttributes, LayerGeometry, LayerContent, LayerTextFallbacks and LayerBoxFallbacks state its contents |
| SliderExport.CssAnimationsIffIncluded | src/utils/export.ts:40-147 | the sheet always holds the container rule; with animations it holds the animation block, `.fade-in {` among it; without them it is shorter by exactly that block; nothing else about the project or options changes it |
| SliderExport.ScriptEmbedsSettings | src/utils/export.ts:200-317 | the script defines SliderRevolution, takes autoplay and loop from the export options, advances every transitionDuration + 3000 ms, and reads nothing else of the project |
| SliderExport.ScriptFlagsExample | src/utils/export.ts:207-208 | autoplay on and loop off print "this.autoplay = true" and "this.loop = false" |
| SliderExport.LayerAnimationAttributes | src/utils/export.ts:322-327 | a layer's markup names its entrance animation lower-cased with whitespace runs turned to '-', and its delay |
| SliderExport.LayerGeometry | src/utils/export.ts:329-340 | a layer is placed by x, y, width and height in px and stacked by its z-index |
| SliderExport.LayerContent | src/utils/export.ts:343-348 | a button is centred and any other layer left-aligned; an image's content is an `<img>` source, any other content is inlined raw |
| SliderExport.FallbackPiece | src/utils/export.ts:333-337 | a declaration piece of a layer template group that prints a value or its fallback is found in the whole markup: the fallback text when the value is falsy, the value between its prefix and suffix otherwise |
| SliderExport.LayerTextFallbacks | src/utils/export.ts:333-335 | a falsy font size, weight or colour prints 16, normal, #000; a truthy one prints itself |
| SliderExport.LayerBoxFallbacks | src/utils/export.ts:336-337 | a falsy background colour or radius prints transparent, 0; a truthy one prints itself |
| SliderExport.CountOf | src/utils/export.ts:359-361 | a count of equal entries is at most the length and 0 iff the entry is absent |
| SliderExport.CountOfAppend | src/utils/export.ts:359-361 | appending one entry adds one to its count and nothing to any other's |
| SliderExport.DotIsActiveIffFirst | src/utils/export.ts:360 | a pagination dot is the active one iff it is the first |
| SliderExport.DotsHaveOneActive | src/utils/export.ts:359-361 | one dot per slide, exactly one active when there is a slide |
| SliderExport.SlideIsActiveIffFirst | src/utils/export.ts:353 | a slide's markup opens as the active slide iff it is the first |
| SliderExport.MarkerOpensSlide | src/utils/export.ts:353 | behind the common opening, `active"` follows iff the marker is `active` |
| SliderExport.PageHoldsEverySlide | src/utils/export.ts:319-374 | the page holds one block per slide, each with every one of its layers' markup, and the row of dots |
| SliderExport.DocumentParts | src/utils/export.ts:21-37 | for any title, sheet, markup and script, the document template opens with the doctype and holds the titled `<title>`, the sheet inside `<style>`, the markup and the script inside `<script>`, each whole |
| SliderExport.ExportSkeleton | src/utils/export.ts:16-38 | the document starts with the doctype, is titled with the project name, wraps the sheet in `<style>` and the script in `<script>`, holds the slide markup, and `.fade-in {` when animations are included |
| CharacterPanel.ResetValue | src/components/ui/CharacterPanel.tsx:490-494 | definition: the value the reset writes for one setting, the source's conditional chain in order; ResetValueAt states it for each setting |
| CharacterPanel.StyleFold | src/components/Sidebar.tsx:60-62 | definition: a batch of style writes applied in turn, each to the style the previous one produced; StyleFoldKeepsOthers and StyleFoldReadBack state its effect |
| CharacterPanel.ResetWrites | src/components/ui/CharacterPanel.tsx:489-495 | one call per reset setting |
| CharacterPanel.Keys | src/components/ui/CharacterPanel.tsx:464-465 | the keys a list of calls writes, one per call, in call order |
| CharacterPanel.ResetKeys | src/components/ui/CharacterPanel.tsx:484-495 | the reset writes the fourteen settings in list order, each exactly once, none a geometry key |
| CharacterPanel.ResetWriteKeys | src/components/ui/CharacterPanel.tsx:489-490 | the reset's calls write exactly the listed settings, in list order |
| CharacterPanel.ResetNamesNotGeometry | src/components/ui/CharacterPanel.tsx:484-488 | no reset setting is x, y, width, height, opacity, rotation or zIndex |
| CharacterPanel.ResetNamesDistinct | src/components/ui/CharacterPanel.tsx:484-488 | the fourteen reset names are pairwise distinct |
| CharacterPanel.ResetValueAt | src/components/ui/CharacterPanel.tsx:490-494 | kerning and leadingType reset to 'auto', the two scales to 100, caps and position to 'normal', both line options to `{ style: 'none' }`, the other six to 0 |
| CharacterPanel.PresetsAreWellFormed | src/components/ui/CharacterPanel.tsx:425-460 | each of the four presets sets distinct non-geometry keys |
| CharacterPanel.IssuedActions | src/components/ui/CharacterPanel.tsx:464-495 | no more dispatches than calls |
| CharacterPanel.StaleStyles | src/components/Sidebar.tsx:60-62 | the i-th call's style is the rendered layer's style with only the i-th key replaced |
| CharacterPanel.IssuedAreStaleStyleUpdates | src/components/ui/CharacterPanel.tsx:464-495 | without a selected layer nothing is dispatched; with one, each call dispatches one style-only update built from the rendered layer |
| CharacterPanel.ApplyAsWrittenKeepsLastOnly | src/components/ui/CharacterPanel.tsx:464-466 | as written, a multi-key button ends the store exactly as its last call alone would |
| CharacterPanel.ResetAsWrittenLosesVerticalScale | src/components/ui/CharacterPanel.tsx:484-495 | as written, resetting a layer at vertical scale 150 ends with only strikethroughOptions reset and the scale still 150 |
| CharacterPanel.StyleFoldKeepsOthers | src/components/Sidebar.tsx:60-62 | applying writes in turn leaves every unwritten key as it was |
| CharacterPanel.StyleFoldReadBack | src/components/Sidebar.tsx:60-62 | with distinct keys every written key reads back its own value |
| CharacterPanel.BatchAction | src/components/ui/CharacterPanel.tsx:464-495 | the intended batched write exists iff a layer is selected on an existing slide |
| CharacterPanel.BatchResetRestoresAll | src/components/ui/CharacterPanel.tsx:484-495 | the batched reset gives all fourteen settings their reset values and keeps every other key |
| CharacterPanel.BatchPresetApplies | src/components/ui/CharacterPanel.tsx:425-467 | a batched preset gives each of its keys its value and keeps every other key |
| CharacterPanel.MergeOption | src/components/ui/CharacterPanel.tsx:254-257 | `{ ...options, [field]: value }` is always an object |
| CharacterPanel.MergeOptionKeepsRest | src/components/ui/CharacterPanel.tsx:254-286 | the merged field reads back its value and every other field of the old options is kept |
| CharacterPanel.LineEditMerges | src/components/ui/CharacterPanel.tsx:254-324 | a line editor writes the old options merged with its one field under its line key and changes no other style key |
| CharacterPanel.SelectedLineStyle | src/components/ui/CharacterPanel.tsx:260-327 | `options?.style or 'none'` is always a truthy selection |
| CharacterPanel.NoOptionsShowsControlsUnderNone | src/components/ui/CharacterPanel.tsx:260-270 | as written, a layer with no line options shows None selected and the thickness and colour controls at once |
| CharacterPanel.LineControlsFollowSelection | src/components/ui/CharacterPanel.tsx:270-337 | with the intended test the controls show iff the selected button is not None, agreeing with the written test whenever a style is set |
| ColorPicker.HexToRgb | src/components/ui/ColorPicker.tsx:82-87 | definition of `hexToRgb`, each component `parseInt` of its two-character slice in base 16; HexToRgbOfValid and RgbRoundTrip state its properties |
| DropdownNavigation.NextHighlight | src/components/ui/CleanDropdown.tsx:86-91 | definition: ArrowDown's update of the highlighted index, wrapping to 0 after the last; ArrowsStayOnOptions and ArrowsAreInverse state its properties |
| DropdownNavigation.PrevHighlight | src/components/ui/CleanDropdown.tsx:92-97 | definition: ArrowUp's update of the highlighted index, wrapping to the last before 0; ArrowsStayOnOptions and ArrowsAreInverse state its properties |
| CleanDropdown.OpenDirection | src/components/ui/CleanDropdown.tsx:36-52 | definition of `calculateDropdownPosition`: down when the list fits below or there is at least as much room below as above, up otherwise; DirectionRule states it |
| ColorPicker.HexDigitValue | src/components/ui/ColorPicker.tsx:83-85 | a hex digit's value lies in 0..15 |
| ColorPicker.HexRun | src/components/ui/ColorPicker.tsx:83-85 | the run of hex digits read by parseInt: all digits, and the next character, if any, is not one |
| ColorPicker.ParseIntHex | src/components/ui/ColorPicker.tsx:83-85 | parseInt(s, 16) gives a number only when s holds a hex digit; otherwise NaN |
| ColorPicker.Slice | src/components/ui/ColorPicker.tsx:83-85 | slice(a, b) within bounds is the subsequence a..b |
| ColorPicker.ParsePair | src/components/ui/ColorPicker.tsx:83-85 | two hex digits parse to the byte they spell, in 0..255 |
| ColorPicker.ParseSliceAt | src/components/ui/ColorPicker.tsx:83-85 | the two-character slice at any index of a string holding two hex digits there parses to the byte they spell, in 0..255 |
| ColorPicker.ParseSliceOfValid | src/components/ui/ColorPicker.tsx:83-85 | each two-character slice of a valid colour parses to its digit pair's byte |
| ColorPicker.HexToRgbOfValid | src/components/ui/ColorPicker.tsx:82-87 | for a valid "#RRGGBB" each read-out component is the byte its pair spells, in 0..255 |
| ColorPicker.UpperHexDigit | src/components/ui/ColorPicker.tsx:90-95 | the upper-case digit of v is a hex digit whose value is v |
| ColorPicker.RgbToHex | src/components/ui/ColorPicker.tsx:90-95 | a colour written as "#RRGGBB" is a valid hex colour |
| ColorPicker.RgbRoundTrip | src/components/ui/ColorPicker.tsx:82-87 | reading back a written colour gives the components it was written from |
| ColorPicker.QuickPaletteIsValid | src/components/ui/ColorPicker.tsx:90-95 | four rows of five quick colours, each a valid six-digit hex colour |
| ColorPicker.HexField.HexChange | src/components/ui/ColorPicker.tsx:248-255 | the typed text is always shown; it is reported iff it matches `^#[0-9A-Fa-f]{6}$`; every reported colour stays valid |
| ColorPicker.HexField.QuickColorClick | src/components/ui/ColorPicker.tsx:403-408 | a quick colour is reported and shown; every reported colour stays valid |
| ColorPicker.HexField.ValueChanged | src/components/ui/ColorPicker.tsx:229-231 | a new value prop is shown and nothing is reported |
| ColorPicker.TypingExample | src/components/ui/ColorPicker.tsx:248-255 | typing "#12" reports nothing, completing "#12AB3F" reports it once |
| DropdownNavigation.ArrowsStayOnOptions | src/components/ui/CleanDropdown.tsx:86-97 | on a non-empty list both arrows stay on an option; from no highlight Down goes to the first and Up to the last; both wrap at the ends |
| DropdownNavigation.ArrowsAreInverse | src/components/ui/EnhancedDropdown.tsx:56-67 | on an option Up undoes Down and Down undoes Up |
| DropdownNavigation.EmptyListHighlightsNothing | src/components/ui/CleanDropdown.tsx:86-97 | on an empty list Down still moves the highlight to 0 and Up to −1 |
| DropdownNavigation.FindOption | src/components/ui/CleanDropdown.tsx:33 | None iff no option has the value; otherwise the first option carrying it |
| DropdownNavigation.TriggerText | src/components/ui/CustomDropdown.tsx:119 | an unmatched value shows the placeholder, a matched option with a label shows it, and the text is empty only if the placeholder is |
| CleanDropdown.EstimatedHeight | src/components/ui/CleanDropdown.tsx:41 | 44 per option plus 20, never above 264 |
| CleanDropdown.DirectionRule | src/components/ui/CleanDropdown.tsx:36-52 | the list opens up iff it does not fit below and there is strictly more room above; 264 px below always suffice; more room below never turns down into up |
| CleanDropdown.Dropdown.Select | src/components/ui/CleanDropdown.tsx:116-120 | reports the value, closes and clears the highlight |
| CleanDropdown.Dropdown.KeyDown | src/components/ui/CleanDropdown.tsx:81-114 | closed: nothing; open: the four keys cancel the default, arrows move by the wrap rule, Enter on an option chooses it and on index 0 of an empty list throws leaving the state, Escape closes, other keys change nothing |
| CleanDropdown.Dropdown.HoverOption | src/components/ui/CleanDropdown.tsx:192 | hovering highlights that option and nothing else changes |
| CleanDropdown.Dropdown.ClickOption | src/components/ui/CleanDropdown.tsx:191 | clicking an option reports it and closes |
| CleanDropdown.Dropdown.OutsideClick | src/components/ui/CleanDropdown.tsx:56-61 | an outside mouse-down closes and clears the highlight |
| CleanDropdown.Dropdown.TriggerClick | src/components/ui/CleanDropdown.tsx:148-153 | unless disabled, recomputes the direction and toggles; the highlight survives |
| CleanDropdown.Dropdown.Resize | src/components/ui/CleanDropdown.tsx:63-67 | a resize or scroll recomputes the direction only while open |
| CleanDropdown.ChooseSecondByKeys | src/components/ui/CleanDropdown.tsx:81-120 | open, Down, Down, Enter chooses the second option and closes |
| EnhancedDropdown.Dropdown.Select | src/components/ui/EnhancedDropdown.tsx:86-90 | reports the value, closes and clears the highlight |
| EnhancedDropdown.Dropdown.KeyDown | src/components/ui/EnhancedDropdown.tsx:51-84 | the same key rules as the clean dropdown, including the throw on Enter at index 0 of an empty list |
| EnhancedDropdown.Dropdown.HoverOption | src/components/ui/EnhancedDropdown.tsx:169 | hovering highlights that option and nothing else changes |
| EnhancedDropdown.Dropdown.ClickOption | src/components/ui/EnhancedDropdown.tsx:168 | clicking an option reports it and closes |
| EnhancedDropdown.Dropdown.OutsideClick | src/components/ui/EnhancedDropdown.tsx:39-44 | an outside mouse-down closes and clears the highlight |
| EnhancedDropdown.Dropdown.TriggerClick | src/components/ui/EnhancedDropdown.tsx:117 | toggles unless disabled; the highlight survives |
| EnhancedDropdown.ChooseLastByKeys | src/components/ui/EnhancedDropdown.tsx:51-90 | open, Up from no highlight, Enter chooses the last option |
| EnhancedDropdown.DisabledIgnoresKeys | src/components/ui/EnhancedDropdown.tsx:53-117 | a disabled dropdown never opens, so no key chooses anything |
| CustomDropdown.FilterOptions | src/components/ui/CustomDropdown.tsx:38-41 | keeps exactly the options whose label or value contains the search text, ignoring case |
| CustomDropdown.FilterKeepsOrder | src/components/ui/CustomDropdown.tsx:38-41 | filtering distributes over concatenation, so original order is kept |
| CustomDropdown.EmptyOccurs | src/components/ui/CustomDropdown.tsx:39 | the empty string occurs in every string |
| CustomDropdown.EmptySearchKeepsAll | src/components/ui/CustomDropdown.tsx:32-41 | an empty search keeps every option in order |
| CustomDropdown.SearchIgnoresCase | src/components/ui/CustomDropdown.tsx:39-40 | two search texts with the same lower-case form keep the same options |
| CustomDropdown.Dropdown.TriggerClick | src/components/ui/CustomDropdown.tsx:103 | toggles unless disabled; the search text survives |
| CustomDropdown.Dropdown.TypeSearch | src/components/ui/CustomDropdown.tsx:131-139 | typing, possible only in an open list of more than five options, sets the search text |
| CustomDropdown.Dropdown.ClearSearch | src/components/ui/CustomDropdown.tsx:143-146 | clearing empties the search, so every option is shown again |
| CustomDropdown.Dropdown.Select | src/components/ui/CustomDropdown.tsx:92-161 | choosing a shown option reports a matching option of the list, closes and clears the search |
| CustomDropdown.Dropdown.OutsideClick | src/components/ui/CustomDropdown.tsx:45-50 | an outside mouse-down closes and clears the search |
| CustomDropdown.ShortListShowsAll | src/components/ui/CustomDropdown.tsx:131 | a list of at most five options has no search box and always shows every option |
| Tooltip.ChooseSide | src/components/ui/Tooltip.tsx:65-91 | the side drawn is the requested one or its opposite |
| Tooltip.FlipRule | src/components/ui/Tooltip.tsx:65-91 | the side flips iff the requested side comes within 10 px of the viewport edge, and only to its opposite |
| Tooltip.FlipMayStillOverflow | src/components/ui/Tooltip.tsx:65-73 | a tooltip too tall for the room above and below flips to the bottom and overflows there: the opposite side is not checked |
| Tooltip.TooltipState.Show | src/components/ui/Tooltip.tsx:34-44 | nothing when disabled or without content; otherwise a new show timer is pending and remembered in the ref |
| Tooltip.TooltipState.Hide | src/components/ui/Tooltip.tsx:46-51 | clears only the timer in the ref and hides |
| Tooltip.TooltipState.HideAll | src/components/ui/Tooltip.tsx:46-51 | the intended hide: no show timer stays pending |
| Tooltip.TooltipState.ShowTimerFires | src/components/ui/Tooltip.tsx:37-43 | a pending show timer fires and shows the tooltip |
| Tooltip.TooltipState.CalculatePosition | src/components/ui/Tooltip.tsx:53-92 | while the tooltip is drawn the side is chosen afresh from the requested position |
| Tooltip.StaleShowAfterHide | src/components/ui/Tooltip.tsx:34-135 | enter, focus, blur, leave: the first show timer survives both hides and shows the tooltip afterwards |
| Tooltip.NoShowAfterHideAll | src/components/ui/Tooltip.tsx:34-51 | with the intended hide no show timer survives |

## Left out

- Frame scheduling and timers are not modelled: `requestAnimationFrame`, `Date.now`, `setTimeout` and `setInterval`, because they belong to the environment.
  - The timeline's frame step takes the elapsed time as an input.
  - The preview timers of `useCanvasAnimations.ts`, at lines 31-39 and 50-60, are reduced to the plan they follow: the sorted order and the end time plus 500 ms.
  - The tooltip's show and position delays are pending timer ids that the environment fires; the delay values themselves are not modelled.
  - `usePerformanceMonitor.tsx` is not part of this model.
- DOM wiring is not modelled: listener registration, `getBoundingClientRect`, cursor styles, focus, and the `FileReader` in the media library. Rectangles, widths, viewport sizes and pointer coordinates are parameters. The file reader's result URL is the data URL passed to the image-layer factory.
- The tooltip's unmount cleanup (`Tooltip.tsx:26-32`), because it only clears timers.
- The colour picker's HSL conversions and canvas drawing (`ColorPicker.tsx:21-139` and the palette canvases), because they work in floating point. Also the `toFixed(1)` time labels of the timeline and its blocks, because they are number formatting.
- JavaScript's own printing of numbers is a parameter, `num: real -> string`, of the export serialisers and the option descriptions, because it is not modelled.
- `exportToJSON`, `downloadFile`, `exportAsVideo` and the export modal's download switch, because they are `JSON.stringify`, DOM or I/O.
- `saveProject` and `loadProject`, because the provider in `SliderContext.tsx` defines neither.
- Undo and redo are not wired to the editor, because Ctrl+Z and Ctrl+Y only log. The history is modelled on its own.
- A resolver of the animation state from the timeline time, because `syncWithTimeline` is never defined. `Canvas.tsx:51` destructures it from `useCanvasAnimations()`, whose return object (`useCanvasAnimations.ts:63-69`) has no such member, so it is `undefined`. The effect at `Canvas.tsx:57-61` then calls `undefined` whenever a current slide exists, which throws a TypeError on render. As read, this makes the canvas fail as soon as a project with a current slide is loaded, the initial state included; the canvas handlers modelled here (dragging, guides, shortcuts, layer style) are modelled as if that call were absent.
- Pure JSX with no decisions, because it holds no logic: panels and chrome, selectors, the static shortcut list, the tooltip's and dropdowns' position and arrow classes, and `App.tsx`.
- The duration and delay inputs of the animations panel are plain property updates. The sidebar's dot-path update covers them.
- NaN and infinity are not modelled, so where the source can divide by zero the model requires a non-zero divisor instead:
  - `CanvasConfig.SnapValue`: requires a non-zero grid size when snapping is on; a zero grid gives NaN in the source.
  - `CanvasDrag.CanvasDragController.MouseMove`: requires a non-zero zoom.
  - `Timeline.ScrubTime` and `AnimationBlock.PixelToTime`: require a positive width; the browser reports a zero width for a hidden element.
- `CanvasDrag.CanvasDragController.MouseMove`: when the dragged layer is missing from the current slide, the source still dispatches an update, but one that matches no layer. The model leaves the state unchanged, which is the same value.
- SidebarEdits.StylePathUpdate: a dot-path write of a non-number to one of the seven numeric style keys (x, y, width, height, rotation, opacity, zIndex) is dropped, not stored. Every caller passes the result of `parseInt` or `parseFloat`.
- SidebarEdits.AnimationPathUpdate: an `animation.<k>` write is dropped when `k` is not one of the five animation fields, or when the value is of the wrong kind. In JavaScript the key would be added to the object. The panels write only the five fields, each with a value of its kind.
- SidebarEdits.ContentPathUpdate: of the top-level layer fields, dot-path writes are modelled only for `content` and `id`, the string fields. The editors in all three sidebars write only `content` this way.
- CharacterPanel.MergeOption: spreads a string, number or boolean to no fields. For a string this is weaker than JavaScript, which spreads its characters. The line options are always objects or undefined.
- SliderExport.CssAnimationsIffIncluded: without animations the model states that the sheet is shorter by exactly the animation block, and that it does not depend on the project. It does not state that `.fade-in {` is absent from the sheet.
- ColorPicker.HexField.Valid: the invariant that every reported colour is a valid hex colour covers the hex field and the palette. The picker's HSL sliders and canvas also report colours, and they are not modelled.
- CustomDropdown.FilterOptions: case is folded for the ASCII letters A-Z only, where JavaScript's `toLowerCase` folds all of Unicode, so here a search for "é" does not find "É". The same ASCII folding (`JsPrelude.Lower`) underlies CustomDropdown.SearchIgnoresCase, the animations panel's icon rules, the class names built by CanvasAnimations.AnimationClassName and the key names of the keyboard shortcuts. The catalogue names and the shortcut keys are ASCII, so the search text typed into the dropdown is where the difference shows.
- CanvasLayerView.LayerStyle: a truthy non-number font size or corner radius, which the style type does not allow, sets no property here, where JavaScript would multiply its coerced value. The pass-through properties (font weight, colours, rotation, z-index, cursor, duration, easing) are not carried in the model's box.

## Findings

| source | as written | input that shows it | evidently intended | confidence | as-written member | corrected member |
|---|---|---|---|---|---|---|
| src/components/ui/CharacterPanel.tsx:484-495 | reset calls `onUpdateProperty` fourteen times from one render. Each call replaces the layer's whole style with that render's style plus one key, so only the last reset key survives | a selected layer with verticalScale 150, then the reset button: verticalScale stays 150 | every listed setting is reset | not executed | CharacterPanel.ResetAsWrittenLosesVerticalScale | CharacterPanel.BatchResetRestoresAll |
| src/components/ui/CharacterPanel.tsx:463-467 | a preset writes its keys one call at a time from one render, so only the last key survives | any preset with two or more settings | every setting of the preset is applied | not executed | CharacterPanel.ApplyAsWrittenKeepsLastOnly | CharacterPanel.BatchPresetApplies |
| src/components/ui/CharacterPanel.tsx:260-270 | the line controls show when `options?.style !== 'none'`, while the None button is highlighted for `(options?.style \|\| 'none')` | underlineOptions undefined: None is highlighted and the thickness and colour controls are shown | the controls follow the highlighted style | not executed | CharacterPanel.NoOptionsShowsControlsUnderNone | CharacterPanel.LineControlsFollowSelection |
| src/utils/animationMapper.ts:65-82 | `name in animationClassMap` and `animationClassMap[name] \|\| ''` also see names inherited from `Object.prototype` | "toString": reported valid, and its lookup yields a function, not a class name | valid iff the map has its own entry with that name | not executed | AnimationMapper.InheritedNameIsAccepted | AnimationMapper.ValidIffHasClass |
| src/hooks/useUndoRedo.ts:20-34 | undo's guard reads `canUndo` from the render that made the callback, not from the history being updated | a history with one past entry and two undo calls before a re-render: the second installs an undefined present | undo never removes the present | not executed | UndoRedo.DoubleUndoLosesPresent | UndoRedo.UndoOnCurrentHistoryKeepsPresent |
| src/components/ui/Tooltip.tsx:34-51 | each show schedules a timer but keeps only the last in the ref, and hide clears only that one | mouseenter, focus, blur, mouseleave: the first show timer still fires and the tooltip shows after it was hidden | hiding cancels every pending show | not executed | Tooltip.StaleShowAfterHide | Tooltip.NoShowAfterHideAll |
