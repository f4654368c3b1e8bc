/**
 * What one call of the renderer does: the recording switch of onDrawFrame,
 * the skip while the incoming size is unknown, the one-time filter update
 * and texture-size push, onSurfaceCreated's resume rule and notifyPausing.
 */
module RendererProperties {
  import opened Common
  import opened Filters
  import opened Renderer

  /** A draw that gets past the latch and the recording switch, piece by piece. */
  lemma DrawShape(s: RendererState, context: int)
    requires s.surfaceTexture && IsKnownStatus(s.recordingStatus)
    ensures RecordingStep(s.recordingEnabled, s.recordingStatus, ConfigFor(s, context)).Ok?
    ensures var t := RecordingStep(s.recordingEnabled, s.recordingStatus, ConfigFor(s, context)).value;
            var screen := ScreenStep(s.(recordingStatus := t.status));
            DrawStep(s, context)
            == Step(screen.state,
                    [LatchFrame] + t.effects + [SetTextureId(s.textureId), FrameAvailable] + screen.events,
                    screen.fault)
  {
  }

  /**
   * The encoder calls a draw makes are exactly those of the recording switch:
   * nothing before or after it starts, stops or re-binds the encoder.
   */
  lemma DrawEncoderCalls(s: RendererState, context: int)
    requires s.surfaceTexture && IsKnownStatus(s.recordingStatus)
    ensures RecordingStep(s.recordingEnabled, s.recordingStatus, ConfigFor(s, context)).Ok?
    ensures var t := RecordingStep(s.recordingEnabled, s.recordingStatus, ConfigFor(s, context)).value;
            Only(DrawStep(s, context).events, IsEncoderControl) == t.effects
  {
    DrawShape(s, context);
    var t := RecordingStep(s.recordingEnabled, s.recordingStatus, ConfigFor(s, context)).value;
    var screen := ScreenStep(s.(recordingStatus := t.status));
    var head, tail := [LatchFrame], [SetTextureId(s.textureId), FrameAvailable];
    OnlyOfFour(head, t.effects, tail, screen.events, IsEncoderControl);
    OnlyNone(head, IsEncoderControl);
    OnlyNone(tail, IsEncoderControl);
    OnlyNone(screen.events, IsEncoderControl);
    OnlyAll(t.effects, IsEncoderControl);
  }

  /** The starts and stops of a draw are those of the recording switch. */
  lemma DrawStartsAndStops(s: RendererState, context: int)
    requires s.surfaceTexture && IsKnownStatus(s.recordingStatus)
    ensures RecordingStep(s.recordingEnabled, s.recordingStatus, ConfigFor(s, context)).Ok?
    ensures var t := RecordingStep(s.recordingEnabled, s.recordingStatus, ConfigFor(s, context)).value;
            Only(DrawStep(s, context).events, IsStartOrStop) == Only(t.effects, IsStartOrStop)
  {
    DrawShape(s, context);
    var t := RecordingStep(s.recordingEnabled, s.recordingStatus, ConfigFor(s, context)).value;
    var screen := ScreenStep(s.(recordingStatus := t.status));
    var head, tail := [LatchFrame], [SetTextureId(s.textureId), FrameAvailable];
    OnlyOfFour(head, t.effects, tail, screen.events, IsStartOrStop);
    OnlyNone(head, IsStartOrStop);
    OnlyNone(tail, IsStartOrStop);
    OnlyNone(screen.events, IsStartOrStop);
  }

  /** Enabled and OFF: exactly one start, with the renderer's configuration, then ON. */
  lemma DrawStartsRecording(s: RendererState, context: int)
    requires s.surfaceTexture && s.recordingEnabled && s.recordingStatus == RECORDING_OFF
    ensures var r := DrawStep(s, context);
            && Only(r.events, IsEncoderControl)
               == [StartRecording(EncoderConfig(s.outputFile, s.recordWidth, s.recordHeight, 1000000, context))]
            && r.state.recordingStatus == RECORDING_ON
  {
    DrawEncoderCalls(s, context);
  }

  /** Enabled and RESUMED: the encoder is re-bound to the current context, never restarted. */
  lemma DrawResumesRecording(s: RendererState, context: int)
    requires s.surfaceTexture && s.recordingEnabled && s.recordingStatus == RECORDING_RESUMED
    ensures var r := DrawStep(s, context);
            && Only(r.events, IsEncoderControl) == [UpdateSharedContext(context)]
            && Only(r.events, IsStartOrStop) == []
            && r.state.recordingStatus == RECORDING_ON
  {
    DrawEncoderCalls(s, context);
    DrawStartsAndStops(s, context);
  }

  /** Disabled while ON or RESUMED: exactly one stop, then OFF. */
  lemma DrawStopsRecording(s: RendererState, context: int)
    requires s.surfaceTexture && !s.recordingEnabled
    requires s.recordingStatus == RECORDING_ON || s.recordingStatus == RECORDING_RESUMED
    ensures var r := DrawStep(s, context);
            && Only(r.events, IsEncoderControl) == [StopRecording]
            && r.state.recordingStatus == RECORDING_OFF
  {
    DrawEncoderCalls(s, context);
  }

  /** Enabled and ON, or disabled and OFF: no encoder call and no change of status. */
  lemma DrawKeepsSettledRecording(s: RendererState, context: int)
    requires s.surfaceTexture
    requires (s.recordingEnabled && s.recordingStatus == RECORDING_ON)
             || (!s.recordingEnabled && s.recordingStatus == RECORDING_OFF)
    ensures var r := DrawStep(s, context);
            Only(r.events, IsEncoderControl) == [] && r.state.recordingStatus == s.recordingStatus
  {
    DrawEncoderCalls(s, context);
  }

  /**
   * A draw on a freshly constructed renderer throws: its SurfaceTexture is
   * still null, and even with one its status -1 is none of the three.
   */
  lemma DrawBeforeSurfaceCreatedThrows(outputFile: string, context: int)
    ensures DrawStep(Initial(outputFile), context).fault == Some(NullSurfaceTexture)
    ensures DrawStep(Initial(outputFile).(surfaceTexture := true), context).fault
            == Some(UnknownStatus(STATUS_UNSET))
  {
  }

  /**
   * While the incoming size is not positive, a draw still runs the recording
   * switch and informs the encoder, but makes no program, kernel, size or
   * draw call and leaves the filter, program and size flag as they were.
   */
  lemma SkippedDrawTouchesNoScreen(s: RendererState, context: int)
    requires s.surfaceTexture && IsKnownStatus(s.recordingStatus)
    requires s.incomingWidth <= 0 || s.incomingHeight <= 0
    ensures var t := RecordingStep(s.recordingEnabled, s.recordingStatus, ConfigFor(s, context)).value;
            var r := DrawStep(s, context);
            && r.fault.None?
            && r.events == [LatchFrame] + t.effects + [SetTextureId(s.textureId), FrameAvailable]
            && Only(r.events, IsScreenCall) == []
            && r.state == s.(recordingStatus := t.status)
  {
    DrawShape(s, context);
    OnlyNone(DrawStep(s, context).events, IsScreenCall);
  }

  /**
   * updateFilter replaces the program exactly when the filter's program type
   * differs from the current one, and a replacement raises the size flag; it
   * sets the kernel exactly when the filter has one.
   */
  lemma ProgramRebuiltIffTypeDiffers(s: RendererState)
    requires FilterStep(s).Ok?
    ensures var spec := FilterFor(s.newFilter).value;
            var u := FilterStep(s).value;
            var rebuild := s.fullScreen != Some(spec.programType);
            && Only(u.events, IsChangeProgram) == (if rebuild then [ChangeProgram(spec.programType)] else [])
            && (u.state.incomingSizeUpdated <==> s.incomingSizeUpdated || rebuild)
            && Only(u.events, IsSetKernel)
               == (if spec.kernel.Some? then [SetKernel(spec.kernel.value, spec.colorAdj)] else [])
  {
    var spec := FilterFor(s.newFilter).value;
    var u := FilterStep(s).value;
    var rebuild := s.fullScreen != Some(spec.programType);
    var e1: seq<Event> := if rebuild then [ChangeProgram(spec.programType)] else [];
    var e2: seq<Event> := if spec.kernel.Some? then [SetKernel(spec.kernel.value, spec.colorAdj)] else [];
    assert u.events == e1 + e2;
    OnlyAppend(e1, e2, IsChangeProgram);
    OnlyAppend(e1, e2, IsSetKernel);
    OnlyNone(e2, IsChangeProgram);
    OnlyNone(e1, IsSetKernel);
    OnlyAll(e1, IsChangeProgram);
    OnlyAll(e2, IsSetKernel);
  }

  /**
   * After a draw that got past the size check without throwing, the current
   * filter is the requested one, so the next draw makes no program or kernel
   * call: updateFilter runs at most once per change of the requested filter.
   */
  lemma FilterUpdatedAtMostOnce(s: RendererState, context1: int, context2: int)
    requires s.surfaceTexture && IsKnownStatus(s.recordingStatus)
    requires s.incomingWidth > 0 && s.incomingHeight > 0
    requires DrawStep(s, context1).fault.None?
    ensures DrawStep(s, context1).state.currentFilter == s.newFilter
    ensures Only(DrawStep(DrawStep(s, context1).state, context2).events, IsFilterCall) == []
  {
    DrawShape(s, context1);
    var s1 := DrawStep(s, context1).state;
    DrawShape(s1, context2);
    var t := RecordingStep(s1.recordingEnabled, s1.recordingStatus, ConfigFor(s1, context2)).value;
    var screen := ScreenStep(s1.(recordingStatus := t.status));
    var head := [LatchFrame] + t.effects + [SetTextureId(s1.textureId), FrameAvailable];
    assert DrawStep(s1, context2).events == head + screen.events;
    OnlyAppend(head, screen.events, IsFilterCall);
    OnlyNone(head, IsFilterCall);
    OnlyNone(screen.events, IsFilterCall);
  }

  /** A draw's screen calls of any one kind are those of its screen half. */
  lemma DrawScreenCalls(s: RendererState, context: int, p: Event -> bool)
    requires s.surfaceTexture && IsKnownStatus(s.recordingStatus)
    requires forall e :: p(e) ==> IsScreenCall(e)
    ensures RecordingStep(s.recordingEnabled, s.recordingStatus, ConfigFor(s, context)).Ok?
    ensures var t := RecordingStep(s.recordingEnabled, s.recordingStatus, ConfigFor(s, context)).value;
            Only(DrawStep(s, context).events, p) == Only(ScreenStep(s.(recordingStatus := t.status)).events, p)
  {
    DrawShape(s, context);
    var t := RecordingStep(s.recordingEnabled, s.recordingStatus, ConfigFor(s, context)).value;
    var screen := ScreenStep(s.(recordingStatus := t.status));
    var head, tail := [LatchFrame], [SetTextureId(s.textureId), FrameAvailable];
    OnlyOfFour(head, t.effects, tail, screen.events, p);
    OnlyNone(head, p);
    OnlyNone(tail, p);
    OnlyNone(t.effects, p);
  }

  /**
   * The screen half of a draw that does not throw: the filter update's calls,
   * the size push if the flag is up after it, then the draw call.
   */
  lemma ScreenShape(s: RendererState)
    requires s.incomingWidth > 0 && s.incomingHeight > 0 && ScreenStep(s).fault.None?
    ensures var u := if s.currentFilter != s.newFilter then FilterStep(s) else Ok(Effect(s, []));
            && u.Ok?
            && ScreenStep(s).events
               == u.value.events
                  + (if u.value.state.incomingSizeUpdated then [SetTexSize(s.incomingWidth, s.incomingHeight)] else [])
                  + [DrawFrame(s.textureId)]
  {
  }

  /** The size pushes of the screen half: one exactly when the flag is up after the filter update. */
  lemma ScreenSizePushes(s: RendererState)
    requires s.incomingWidth > 0 && s.incomingHeight > 0 && ScreenStep(s).fault.None?
    ensures var u := if s.currentFilter != s.newFilter then FilterStep(s) else Ok(Effect(s, []));
            && u.Ok?
            && Only(ScreenStep(s).events, IsSetTexSize)
               == (if u.value.state.incomingSizeUpdated then [SetTexSize(s.incomingWidth, s.incomingHeight)] else [])
  {
    ScreenShape(s);
    var u := if s.currentFilter != s.newFilter then FilterStep(s) else Ok(Effect(s, []));
    var push: seq<Event> := if u.value.state.incomingSizeUpdated then [SetTexSize(s.incomingWidth, s.incomingHeight)] else [];
    assert forall e :: e in u.value.events ==> IsFilterCall(e);
    OnlyPush(u.value.events, push, DrawFrame(s.textureId));
  }

  /** Filter calls, then the pushes, then a draw: the size pushes are the pushes. */
  lemma OnlyPush(filterCalls: seq<Event>, push: seq<Event>, draw: Event)
    requires forall e :: e in filterCalls ==> IsFilterCall(e)
    requires forall e :: e in push ==> IsSetTexSize(e)
    requires draw.DrawFrame?
    ensures Only(filterCalls + push + [draw], IsSetTexSize) == push
    ensures Only(filterCalls + push + [draw], IsChangeProgram) == Only(filterCalls, IsChangeProgram)
  {
    OnlyAppend(filterCalls + push, [draw], IsSetTexSize);
    OnlyAppend(filterCalls, push, IsSetTexSize);
    OnlyNone(filterCalls, IsSetTexSize);
    OnlyAll(push, IsSetTexSize);
    OnlyNone([draw], IsSetTexSize);
    PushKeepsPrograms(filterCalls, push, draw);
  }

  /** Size pushes and a draw add no program changes. */
  lemma PushKeepsPrograms(filterCalls: seq<Event>, push: seq<Event>, draw: Event)
    requires forall e :: e in push ==> IsSetTexSize(e)
    requires draw.DrawFrame?
    ensures Only(filterCalls + push + [draw], IsChangeProgram) == Only(filterCalls, IsChangeProgram)
  {
    OnlyAppend(filterCalls + push, [draw], IsChangeProgram);
    OnlyAppend(filterCalls, push, IsChangeProgram);
    OnlyNone(push, IsChangeProgram);
    OnlyNone([draw], IsChangeProgram);
  }

  /**
   * setCameraPreviewSize(w, h) with a positive size: the next draw that does
   * not throw pushes SetTexSize(w, h) exactly once, and the draw after it
   * pushes no size at all.
   */
  lemma SizePushedOnce(s: RendererState, width: int, height: int, context1: int, context2: int)
    requires s.surfaceTexture && IsKnownStatus(s.recordingStatus)
    requires width > 0 && height > 0
    requires DrawStep(PreviewSizedState(s, width, height), context1).fault.None?
    ensures var r1 := DrawStep(PreviewSizedState(s, width, height), context1);
            && Only(r1.events, IsSetTexSize) == [SetTexSize(width, height)]
            && Only(DrawStep(r1.state, context2).events, IsSetTexSize) == []
  {
    var s0 := PreviewSizedState(s, width, height);
    SizedDrawPushes(s0, context1);
    SettledDrawPushesNoSize(DrawStep(s0, context1).state, context2);
  }

  /** A draw with the size flag up pushes the size once, and leaves the flag down and the filter applied. */
  lemma SizedDrawPushes(s: RendererState, context: int)
    requires s.surfaceTexture && IsKnownStatus(s.recordingStatus) && s.incomingSizeUpdated
    requires s.incomingWidth > 0 && s.incomingHeight > 0
    requires DrawStep(s, context).fault.None?
    ensures var r := DrawStep(s, context);
            && Only(r.events, IsSetTexSize) == [SetTexSize(s.incomingWidth, s.incomingHeight)]
            && r.state.surfaceTexture && IsKnownStatus(r.state.recordingStatus)
            && !r.state.incomingSizeUpdated && r.state.currentFilter == r.state.newFilter
  {
    DrawShape(s, context);
    DrawScreenCalls(s, context, IsSetTexSize);
    var t := RecordingStep(s.recordingEnabled, s.recordingStatus, ConfigFor(s, context)).value;
    ScreenSizePushes(s.(recordingStatus := t.status));
  }

  /** A draw with the size flag down and the filter already applied pushes no size. */
  lemma SettledDrawPushesNoSize(s: RendererState, context: int)
    requires s.surfaceTexture && IsKnownStatus(s.recordingStatus)
    requires !s.incomingSizeUpdated && s.currentFilter == s.newFilter
    ensures Only(DrawStep(s, context).events, IsSetTexSize) == []
  {
    DrawScreenCalls(s, context, IsSetTexSize);
    var t := RecordingStep(s.recordingEnabled, s.recordingStatus, ConfigFor(s, context)).value;
    var screen := ScreenStep(s.(recordingStatus := t.status));
    assert screen.events == [] || screen.events == [DrawFrame(s.textureId)];
    OnlyNone(screen.events, IsSetTexSize);
  }

  /**
   * A draw that replaces the program also pushes the texture size into the
   * new program, in the same draw.
   */
  lemma RebuildPushesSize(s: RendererState, context: int)
    requires s.surfaceTexture && IsKnownStatus(s.recordingStatus)
    requires s.incomingWidth > 0 && s.incomingHeight > 0
    requires IsKnownFilter(s.newFilter) && s.currentFilter != s.newFilter && s.fullScreen.Some?
    requires FilterFor(s.newFilter).value.programType != s.fullScreen.value
    ensures var r := DrawStep(s, context);
            && r.fault.None?
            && Only(r.events, IsChangeProgram) == [ChangeProgram(FilterFor(s.newFilter).value.programType)]
            && Only(r.events, IsSetTexSize) == [SetTexSize(s.incomingWidth, s.incomingHeight)]
  {
    DrawShape(s, context);
    DrawScreenCalls(s, context, IsSetTexSize);
    DrawScreenCalls(s, context, IsChangeProgram);
    var t := RecordingStep(s.recordingEnabled, s.recordingStatus, ConfigFor(s, context)).value;
    ScreenRebuildPushesSize(s.(recordingStatus := t.status));
  }

  /** A screen half that replaces the program: the filter calls, one size push, then the draw. */
  lemma RebuildScreenShape(s: RendererState)
    requires s.incomingWidth > 0 && s.incomingHeight > 0
    requires IsKnownFilter(s.newFilter) && s.currentFilter != s.newFilter && s.fullScreen.Some?
    requires FilterFor(s.newFilter).value.programType != s.fullScreen.value
    ensures FilterStep(s).Ok?
    ensures var fu := FilterStep(s).value;
            ScreenStep(s).fault.None?
            && ScreenStep(s).events
               == fu.events + [SetTexSize(s.incomingWidth, s.incomingHeight)] + [DrawFrame(s.textureId)]
  {
  }

  /** The screen half of RebuildPushesSize. */
  lemma ScreenRebuildPushesSize(s: RendererState)
    requires s.incomingWidth > 0 && s.incomingHeight > 0
    requires IsKnownFilter(s.newFilter) && s.currentFilter != s.newFilter && s.fullScreen.Some?
    requires FilterFor(s.newFilter).value.programType != s.fullScreen.value
    ensures var r := ScreenStep(s);
            && r.fault.None?
            && Only(r.events, IsChangeProgram) == [ChangeProgram(FilterFor(s.newFilter).value.programType)]
            && Only(r.events, IsSetTexSize) == [SetTexSize(s.incomingWidth, s.incomingHeight)]
  {
    var fu := FilterStep(s).value;
    var push := [SetTexSize(s.incomingWidth, s.incomingHeight)];
    var draw := DrawFrame(s.textureId);
    RebuildScreenShape(s);
    ProgramRebuiltIffTypeDiffers(s);
    OnlyPush(fu.events, push, draw);
  }

  /**
   * After onSurfaceCreated with the encoder still recording, the next draw
   * re-binds the encoder to the new context and neither starts nor stops it;
   * with the encoder idle and recording still disabled, it makes no encoder
   * call at all.
   */
  lemma ResumeAfterSurfaceCreated(s: RendererState, encoderRecording: bool, textureId: int, context: int)
    ensures var r := DrawStep(SurfaceCreatedStep(s, encoderRecording, textureId).state, context);
            && Only(r.events, IsStartOrStop) == []
            && Only(r.events, IsEncoderControl) == (if encoderRecording then [UpdateSharedContext(context)] else [])
            && r.state.recordingStatus == (if encoderRecording then RECORDING_ON else RECORDING_OFF)
  {
    var c := SurfaceCreatedStep(s, encoderRecording, textureId).state;
    DrawEncoderCalls(c, context);
    DrawStartsAndStops(c, context);
  }

  /**
   * onSurfaceCreated installs a plain TEXTURE_EXT program but keeps the
   * current filter. So a filter other than FILTER_NONE that was current
   * before the surface was recreated is not applied again: the next sized
   * draw makes no program or kernel call and draws with TEXTURE_EXT.
   */
  lemma FilterNotReappliedAfterSurfaceRecreated(s: RendererState, encoderRecording: bool, textureId: int,
                                                width: int, height: int, context: int)
    requires s.currentFilter == s.newFilter && IsKnownFilter(s.newFilter) && s.newFilter != FILTER_NONE
    requires width > 0 && height > 0
    ensures var c := PreviewSizedState(SurfaceCreatedStep(s, encoderRecording, textureId).state, width, height);
            var r := DrawStep(c, context);
            && r.fault.None?
            && Only(r.events, IsFilterCall) == []
            && r.state.fullScreen == Some(TextureExt)
            && r.state.fullScreen != Some(FilterFor(s.newFilter).value.programType)
  {
    var c := PreviewSizedState(SurfaceCreatedStep(s, encoderRecording, textureId).state, width, height);
    DrawShape(c, context);
    DrawScreenCalls(c, context, IsFilterCall);
    var t := RecordingStep(c.recordingEnabled, c.recordingStatus, ConfigFor(c, context)).value;
    var screen := ScreenStep(c.(recordingStatus := t.status));
    OnlyNone(screen.events, IsFilterCall);
  }

  /**
   * notifyPausing twice in a row is safe: the second call releases nothing
   * and changes nothing.
   */
  lemma PausingIsIdempotent(s: RendererState)
    ensures var p := PausingStep(s).state;
            PausingStep(p) == Effect(p, [])
  {
  }

  /** After notifyPausing, a draw throws at once and reaches no GL object or encoder. */
  lemma NoCallsAfterPausing(s: RendererState, context: int)
    ensures var p := PausingStep(s).state;
            DrawStep(p, context) == Step(p, [], Some(NullSurfaceTexture))
  {
  }
}
