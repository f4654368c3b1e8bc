/**
 * Sequences of renderer calls, as GLSurfaceView and the controller issue
 * them on the render thread, and what holds over all of them: starts and
 * stops of the encoder alternate, beginning with a start; repeated draws
 * with recording enabled start once; draws before the incoming size is known
 * never reach the screen.
 *
 * The encoder answers onSurfaceCreated's isRecording() question. Here it is
 * modelled as a flag that each StartRecording raises and each StopRecording
 * lowers, so the answer reflects the calls the renderer made.
 */
module RendererRuns {
  import opened Common
  import opened Filters
  import opened Renderer
  import opened RendererProperties

  /** One call into the renderer. */
  datatype Op =
    | SetRecordingEnabled(enabled: bool)
    | SurfaceCreated(textureId: int)
    | SurfaceChanged(width: int, height: int)
    | SetCameraPreviewSize(width: int, height: int)
    | NotifyPausing
    | Draw(context: int)

  /** The renderer and whether the encoder it drives is recording. */
  datatype System = System(renderer: RendererState, encoderRecording: bool)

  datatype RunOutcome = RunOutcome(system: System, events: seq<Event>, fault: Option<Fault>)

  /** The encoder's flag after the given calls: the last start or stop decides. */
  function EncoderAfter(recording: bool, evs: seq<Event>): bool {
    var ss := Only(evs, IsStartOrStop);
    if ss == [] then recording else ss[|ss| - 1].StartRecording?
  }

  function Apply(sys: System, op: Op): RunOutcome {
    match op
    case SetRecordingEnabled(enabled) =>
      RunOutcome(sys.(renderer := WithRecordingEnabled(sys.renderer, enabled)), [], None)
    case SurfaceCreated(textureId) =>
      var e := SurfaceCreatedStep(sys.renderer, sys.encoderRecording, textureId);
      RunOutcome(sys.(renderer := e.state), e.events, None)
    case SurfaceChanged(width, height) =>
      RunOutcome(sys.(renderer := SurfaceChangedState(sys.renderer, width, height)), [], None)
    case SetCameraPreviewSize(width, height) =>
      RunOutcome(sys.(renderer := PreviewSizedState(sys.renderer, width, height)), [], None)
    case NotifyPausing =>
      var e := PausingStep(sys.renderer);
      RunOutcome(sys.(renderer := e.state), e.events, None)
    case Draw(context) =>
      var r := DrawStep(sys.renderer, context);
      RunOutcome(System(r.state, EncoderAfter(sys.encoderRecording, r.events)), r.events, r.fault)
  }

  /** The calls in order; an exception ends the run. */
  function Run(sys: System, ops: seq<Op>): RunOutcome
    decreases |ops|
  {
    if ops == [] then RunOutcome(sys, [], None)
    else
      var o := Apply(sys, ops[0]);
      if o.fault.Some? then o
      else
        var rest := Run(o.system, ops[1..]);
        RunOutcome(rest.system, o.events + rest.events, rest.fault)
  }

  /** A freshly constructed renderer beside an idle encoder. */
  function Start(outputFile: string): System {
    System(Initial(outputFile), false)
  }

  function Draws(contexts: seq<int>): (ops: seq<Op>)
    ensures |ops| == |contexts|
  {
    if contexts == [] then [] else [Draw(contexts[0])] + Draws(contexts[1..])
  }

  /** The encoder's starts and stops alternate, the first being a start. */
  ghost predicate Alternating(evs: seq<Event>) {
    var ss := Only(evs, IsStartOrStop);
    forall i :: 0 <= i < |ss| ==> (ss[i].StartRecording? <==> i % 2 == 0)
  }

  /**
   * What a run keeps true: the trace so far alternates, the encoder records
   * exactly when the last call was a start, and the renderer's status is ON
   * or RESUMED exactly when the encoder records.
   */
  ghost predicate Consistent(sys: System, trace: seq<Event>) {
    && Alternating(trace)
    && (sys.encoderRecording <==> |Only(trace, IsStartOrStop)| % 2 == 1)
    && (sys.encoderRecording <==> sys.renderer.recordingStatus == RECORDING_ON
                                  || sys.renderer.recordingStatus == RECORDING_RESUMED)
  }

  lemma AppendNoStartOrStop(trace: seq<Event>, evs: seq<Event>)
    requires Only(evs, IsStartOrStop) == []
    ensures Only(trace + evs, IsStartOrStop) == Only(trace, IsStartOrStop)
  {
    OnlyAppend(trace, evs, IsStartOrStop);
  }

  /** The starts and stops one draw makes, in terms of the state before it. */
  lemma DrawStartOrStop(s: RendererState, context: int)
    requires s.surfaceTexture && IsKnownStatus(s.recordingStatus)
    ensures Only(DrawStep(s, context).events, IsStartOrStop)
            == if s.recordingEnabled && s.recordingStatus == RECORDING_OFF then [StartRecording(ConfigFor(s, context))]
               else if !s.recordingEnabled && s.recordingStatus != RECORDING_OFF then [StopRecording]
               else []
  {
    DrawStartsAndStops(s, context);
    var t := RecordingStep(s.recordingEnabled, s.recordingStatus, ConfigFor(s, context)).value;
    assert Only([], IsStartOrStop) == [];
    if s.recordingEnabled && s.recordingStatus == RECORDING_OFF {
      assert t.effects == [StartRecording(ConfigFor(s, context))];
      assert Only(t.effects, IsStartOrStop) == [StartRecording(ConfigFor(s, context))] + Only([], IsStartOrStop);
    } else if !s.recordingEnabled && s.recordingStatus != RECORDING_OFF {
      assert t.effects == [StopRecording];
      assert Only(t.effects, IsStartOrStop) == [StopRecording] + Only([], IsStartOrStop);
    } else if s.recordingEnabled && s.recordingStatus == RECORDING_RESUMED {
      assert t.effects == [UpdateSharedContext(context)];
      assert Only(t.effects, IsStartOrStop) == Only([], IsStartOrStop);
    } else {
      assert t.effects == [];
    }
  }

  /** Appending one start or stop to an alternating trace, in turn, keeps it alternating. */
  lemma AppendInTurn(trace: seq<Event>, evs: seq<Event>, e: Event)
    requires Alternating(trace) && IsStartOrStop(e)
    requires e.StartRecording? <==> |Only(trace, IsStartOrStop)| % 2 == 0
    requires Only(evs, IsStartOrStop) == [e]
    ensures Only(trace + evs, IsStartOrStop) == Only(trace, IsStartOrStop) + [e]
    ensures Alternating(trace + evs)
  {
    OnlyAppend(trace, evs, IsStartOrStop);
    var ss := Only(trace + evs, IsStartOrStop);
    forall i | 0 <= i < |ss|
      ensures ss[i].StartRecording? <==> i % 2 == 0
    {
      if i < |ss| - 1 {
        assert ss[i] == Only(trace, IsStartOrStop)[i];
      }
    }
  }

  lemma DrawKeepsConsistent(sys: System, context: int, trace: seq<Event>)
    requires Consistent(sys, trace)
    ensures Consistent(Apply(sys, Draw(context)).system, trace + Apply(sys, Draw(context)).events)
  {
    var o := Apply(sys, Draw(context));
    var s := sys.renderer;
    if !s.surfaceTexture {
      assert trace + o.events == trace;
    } else if !IsKnownStatus(s.recordingStatus) {
      assert Only([LatchFrame], IsStartOrStop) == [];
      AppendNoStartOrStop(trace, [LatchFrame]);
    } else {
      SwitchingDrawKeepsConsistent(sys, context, trace);
    }
  }

  /** DrawKeepsConsistent for a draw that reaches the recording switch. */
  lemma SwitchingDrawKeepsConsistent(sys: System, context: int, trace: seq<Event>)
    requires Consistent(sys, trace)
    requires sys.renderer.surfaceTexture && IsKnownStatus(sys.renderer.recordingStatus)
    ensures Consistent(Apply(sys, Draw(context)).system, trace + Apply(sys, Draw(context)).events)
  {
    var s := sys.renderer;
    var r := DrawStep(s, context);
    DrawStartOrStop(s, context);
    if s.recordingEnabled && s.recordingStatus == RECORDING_OFF {
      DrawInTurnKeepsConsistent(sys, r, trace, StartRecording(ConfigFor(s, context)));
    } else if !s.recordingEnabled && s.recordingStatus != RECORDING_OFF {
      DrawInTurnKeepsConsistent(sys, r, trace, StopRecording);
    } else {
      AppendNoStartOrStop(trace, r.events);
    }
  }

  /** A draw whose one start or stop comes in turn, and leaves the status to match it. */
  lemma DrawInTurnKeepsConsistent(sys: System, r: Step, trace: seq<Event>, e: Event)
    requires Consistent(sys, trace) && IsStartOrStop(e)
    requires e.StartRecording? <==> !sys.encoderRecording
    requires Only(r.events, IsStartOrStop) == [e]
    requires e.StartRecording? <==> r.state.recordingStatus == RECORDING_ON || r.state.recordingStatus == RECORDING_RESUMED
    ensures Consistent(System(r.state, EncoderAfter(sys.encoderRecording, r.events)), trace + r.events)
  {
    AppendInTurn(trace, r.events, e);
  }

  /** Every single call keeps the run consistent. */
  lemma ApplyKeepsConsistent(sys: System, op: Op, trace: seq<Event>)
    requires Consistent(sys, trace)
    ensures Consistent(Apply(sys, op).system, trace + Apply(sys, op).events)
  {
    var o := Apply(sys, op);
    match op
    case Draw(context) =>
      DrawKeepsConsistent(sys, context, trace);
    case SurfaceCreated(textureId) =>
      assert Only(o.events, IsStartOrStop) == [] + Only([], IsStartOrStop);
      AppendNoStartOrStop(trace, o.events);
    case NotifyPausing =>
      var e := PausingStep(sys.renderer);
      assert forall ev :: ev in e.events ==> ev == ReleaseSurfaceTexture || ev == ReleaseFullScreen;
      OnlyNone(e.events, IsStartOrStop);
      AppendNoStartOrStop(trace, o.events);
    case _ =>
      assert trace + o.events == trace;
  }

  lemma {:induction false} RunKeepsConsistent(sys: System, ops: seq<Op>, trace: seq<Event>)
    requires Consistent(sys, trace)
    ensures Consistent(Run(sys, ops).system, trace + Run(sys, ops).events)
    decreases |ops|
  {
    if ops != [] {
      var o := Apply(sys, ops[0]);
      ApplyKeepsConsistent(sys, ops[0], trace);
      if o.fault.None? {
        var rest := Run(o.system, ops[1..]);
        RunKeepsConsistent(o.system, ops[1..], trace + o.events);
        AppendThree(trace, o.events, rest.events);
      }
    } else {
      assert trace + [] == trace;
    }
  }

  /** Regrouping three traces appended in turn. */
  lemma AppendThree(a: seq<Event>, b: seq<Event>, c: seq<Event>)
    ensures a + b + c == a + (b + c)
  {
  }

  /**
   * Over any sequence of calls on a new renderer, the encoder is started and
   * stopped alternately, starting with a start: no two starts without a stop
   * between them, and no stop of an encoder that was not started. The
   * encoder ends up recording exactly when the renderer's status says so.
   */
  lemma StartsAndStopsAlternate(outputFile: string, ops: seq<Op>)
    ensures Alternating(Run(Start(outputFile), ops).events)
    ensures var o := Run(Start(outputFile), ops);
            o.system.encoderRecording
            <==> o.system.renderer.recordingStatus == RECORDING_ON
                 || o.system.renderer.recordingStatus == RECORDING_RESUMED
  {
    assert Only([], IsStartOrStop) == [];
    RunKeepsConsistent(Start(outputFile), ops, []);
    assert [] + Run(Start(outputFile), ops).events == Run(Start(outputFile), ops).events;
  }

  /**
   * With recording enabled and status ON, any number of draws makes no
   * encoder call.
   */
  lemma {:induction false} SettledDrawsMakeNoEncoderCalls(sys: System, contexts: seq<int>)
    requires sys.renderer.surfaceTexture && sys.renderer.recordingEnabled
    requires sys.renderer.recordingStatus == RECORDING_ON
    ensures Only(Run(sys, Draws(contexts)).events, IsEncoderControl) == []
    decreases |contexts|
  {
    if contexts != [] {
      var ops := Draws(contexts);
      assert ops[0] == Draw(contexts[0]) && ops[1..] == Draws(contexts[1..]);
      DrawKeepsSettledRecording(sys.renderer, contexts[0]);
      var o := Apply(sys, ops[0]);
      if o.fault.None? {
        SettledDrawsMakeNoEncoderCalls(o.system, contexts[1..]);
        OnlyAppend(o.events, Run(o.system, ops[1..]).events, IsEncoderControl);
      }
    }
  }

  /**
   * Recording enabled while OFF, then any number of draws: exactly one start,
   * made by the first draw with the renderer's configuration and the first
   * draw's context, and no other encoder call.
   */
  lemma EnabledDrawsStartOnce(sys: System, contexts: seq<int>)
    requires sys.renderer.surfaceTexture && sys.renderer.recordingEnabled
    requires sys.renderer.recordingStatus == RECORDING_OFF
    requires |contexts| >= 1
    ensures Only(Run(sys, Draws(contexts)).events, IsEncoderControl)
            == [StartRecording(ConfigFor(sys.renderer, contexts[0]))]
  {
    var ops := Draws(contexts);
    assert ops[0] == Draw(contexts[0]) && ops[1..] == Draws(contexts[1..]);
    FirstDrawStarts(sys, contexts[0]);
    var o := Apply(sys, ops[0]);
    if o.fault.None? {
      SettledDrawsMakeNoEncoderCalls(o.system, contexts[1..]);
      assert Run(sys, ops).events == o.events + Run(o.system, ops[1..]).events;
      OnlyAppend(o.events, Run(o.system, ops[1..]).events, IsEncoderControl);
    }
  }

  /** The first draw of EnabledDrawsStartOnce: the one start, and a settled renderer after it. */
  lemma FirstDrawStarts(sys: System, context: int)
    requires sys.renderer.surfaceTexture && sys.renderer.recordingEnabled
    requires sys.renderer.recordingStatus == RECORDING_OFF
    ensures var o := Apply(sys, Draw(context));
            && Only(o.events, IsEncoderControl) == [StartRecording(ConfigFor(sys.renderer, context))]
            && o.system.renderer.surfaceTexture && o.system.renderer.recordingEnabled
            && o.system.renderer.recordingStatus == RECORDING_ON
  {
    DrawStartsRecording(sys.renderer, context);
  }

  /**
   * While the incoming size is not positive, any number of draws makes no
   * program, kernel, size or draw call, throws nothing, and leaves the
   * filter, the program and the size flag as they were.
   */
  lemma {:induction false} UnsizedDrawsNeverReachScreen(sys: System, contexts: seq<int>)
    requires sys.renderer.surfaceTexture && IsKnownStatus(sys.renderer.recordingStatus)
    requires sys.renderer.incomingWidth <= 0 || sys.renderer.incomingHeight <= 0
    ensures var o := Run(sys, Draws(contexts));
            && o.fault.None?
            && Only(o.events, IsScreenCall) == []
            && o.system.renderer.currentFilter == sys.renderer.currentFilter
            && o.system.renderer.fullScreen == sys.renderer.fullScreen
            && o.system.renderer.incomingSizeUpdated == sys.renderer.incomingSizeUpdated
    decreases |contexts|
  {
    if contexts != [] {
      var ops := Draws(contexts);
      assert ops[0] == Draw(contexts[0]) && ops[1..] == Draws(contexts[1..]);
      SkippedDrawTouchesNoScreen(sys.renderer, contexts[0]);
      var o := Apply(sys, ops[0]);
      UnsizedDrawsNeverReachScreen(o.system, contexts[1..]);
      OnlyAppend(o.events, Run(o.system, ops[1..]).events, IsScreenCall);
    }
  }

  /** Once the SurfaceTexture exists, the recording status is one of the three. */
  predicate StatusReady(s: RendererState) {
    s.surfaceTexture ==> IsKnownStatus(s.recordingStatus)
  }

  lemma ApplyKeepsStatusReady(sys: System, op: Op)
    requires StatusReady(sys.renderer)
    ensures StatusReady(Apply(sys, op).system.renderer)
    ensures var o := Apply(sys, op); o.fault.Some? ==> !o.fault.value.UnknownStatus?
  {
  }

  lemma {:induction false} RunKeepsStatusReady(sys: System, ops: seq<Op>)
    requires StatusReady(sys.renderer)
    ensures var o := Run(sys, ops); o.fault.Some? ==> !o.fault.value.UnknownStatus?
    decreases |ops|
  {
    if ops != [] {
      ApplyKeepsStatusReady(sys, ops[0]);
      var o := Apply(sys, ops[0]);
      if o.fault.None? {
        RunKeepsStatusReady(o.system, ops[1..]);
      }
    }
  }

  /**
   * From a new renderer no sequence of calls ends in the "unknown status"
   * exception: before onSurfaceCreated a draw throws on the null
   * SurfaceTexture, and from then on the status is always OFF, ON or
   * RESUMED. The two unknown-status throws of onDrawFrame are unreachable.
   */
  lemma NoUnknownStatusFromStart(outputFile: string, ops: seq<Op>)
    ensures var o := Run(Start(outputFile), ops); o.fault.Some? ==> !o.fault.value.UnknownStatus?
  {
    RunKeepsStatusReady(Start(outputFile), ops);
  }

  /** One draw before the first size: its starts and stops, and the status it leaves. */
  lemma UnsizedDrawStartOrStop(s: RendererState, context: int)
    requires s.surfaceTexture && IsKnownStatus(s.recordingStatus)
    requires s.incomingWidth <= 0 || s.incomingHeight <= 0
    ensures var r := DrawStep(s, context);
            && r.fault.None?
            && r.state == s.(recordingStatus := if s.recordingEnabled then RECORDING_ON else RECORDING_OFF)
            && Only(r.events, IsStartOrStop)
               == if s.recordingEnabled && s.recordingStatus == RECORDING_OFF then [StartRecording(ConfigFor(s, context))]
                  else if !s.recordingEnabled && s.recordingStatus != RECORDING_OFF then [StopRecording]
                  else []
  {
    DrawStartOrStop(s, context);
    SkippedDrawTouchesNoScreen(s, context);
  }

  /** Two unsized draws from OFF: enabled, the first starts; disabled, the second stops. */
  lemma StartThenStop(s: RendererState, context: int)
    requires s.surfaceTexture && s.recordingEnabled && s.recordingStatus == RECORDING_OFF
    requires s.incomingWidth <= 0 || s.incomingHeight <= 0
    ensures var d1 := DrawStep(s, context);
            var d2 := DrawStep(WithRecordingEnabled(d1.state, false), context);
            && d1.fault.None? && d2.fault.None?
            && d2.state == s.(recordingEnabled := false)
            && Only(d1.events, IsStartOrStop) == [StartRecording(ConfigFor(s, context))]
            && Only(d2.events, IsStartOrStop) == [StopRecording]
  {
    UnsizedDrawStartOrStop(s, context);
    UnsizedDrawStartOrStop(WithRecordingEnabled(DrawStep(s, context).state, false), context);
  }

  /** Two unsized draws from RESUMED: enabled, the first neither starts nor stops; disabled, the second stops. */
  lemma ResumedThenStop(s: RendererState, context: int)
    requires s.surfaceTexture && s.recordingEnabled && s.recordingStatus == RECORDING_RESUMED
    requires s.incomingWidth <= 0 || s.incomingHeight <= 0
    ensures var d1 := DrawStep(s, context);
            var d2 := DrawStep(WithRecordingEnabled(d1.state, false), context);
            && d1.fault.None? && d2.fault.None?
            && Only(d1.events, IsStartOrStop) == []
            && Only(d2.events, IsStartOrStop) == [StopRecording]
  {
    UnsizedDrawStartOrStop(s, context);
    UnsizedDrawStartOrStop(WithRecordingEnabled(DrawStep(s, context).state, false), context);
  }

  /**
   * The renderer trusts the encoder's isRecording() in onSurfaceCreated, but
   * the encoder stops on its own thread, so isRecording() can still answer
   * true just after a stop. If the surface is recreated in that window,
   * recording is enabled again against the user's stop, and the next draw
   * after disabling stops the encoder a second time: start, stop, stop.
   */
  lemma StaleIsRecordingStopsTwice(outputFile: string, textureId: int, context: int)
    ensures var s1 := WithRecordingEnabled(SurfaceCreatedStep(Initial(outputFile), false, textureId).state, true);
            var d1 := DrawStep(s1, context);
            var d2 := DrawStep(WithRecordingEnabled(d1.state, false), context);
            var c := SurfaceCreatedStep(PausingStep(d2.state).state, true, textureId).state;
            var d3 := DrawStep(c, context);
            var d4 := DrawStep(WithRecordingEnabled(d3.state, false), context);
            && d1.fault.None? && d2.fault.None? && d3.fault.None? && d4.fault.None?
            && !d2.state.recordingEnabled && c.recordingEnabled
            && Only(d1.events + d2.events + d3.events + d4.events, IsStartOrStop)
               == [StartRecording(ConfigFor(s1, context)), StopRecording, StopRecording]
            && !Alternating(d1.events + d2.events + d3.events + d4.events)
  {
    var s1 := WithRecordingEnabled(SurfaceCreatedStep(Initial(outputFile), false, textureId).state, true);
    var d1 := DrawStep(s1, context);
    var s2 := WithRecordingEnabled(d1.state, false);
    var d2 := DrawStep(s2, context);
    var c := SurfaceCreatedStep(PausingStep(d2.state).state, true, textureId).state;
    var d3 := DrawStep(c, context);
    var s4 := WithRecordingEnabled(d3.state, false);
    var d4 := DrawStep(s4, context);
    StartThenStop(s1, context);
    RecreatedWhileStale(d2.state, textureId);
    ResumedThenStop(c, context);
    StopTwice(d1.events, d2.events, d3.events, d4.events, StartRecording(ConfigFor(s1, context)));
  }

  /** onSurfaceCreated after a pause, with isRecording() still true: recording comes back enabled and RESUMED. */
  lemma RecreatedWhileStale(s: RendererState, textureId: int)
    ensures var c := SurfaceCreatedStep(PausingStep(s).state, true, textureId).state;
            && c.surfaceTexture && c.recordingEnabled && c.recordingStatus == RECORDING_RESUMED
            && c.incomingWidth <= 0
  {
  }

  /** Four traces whose starts and stops are a start, a stop, nothing and a stop do not alternate. */
  lemma StopTwice(a: seq<Event>, b: seq<Event>, c: seq<Event>, d: seq<Event>, start: Event)
    requires start.StartRecording?
    requires Only(a, IsStartOrStop) == [start] && Only(b, IsStartOrStop) == [StopRecording]
    requires Only(c, IsStartOrStop) == [] && Only(d, IsStartOrStop) == [StopRecording]
    ensures Only(a + b + c + d, IsStartOrStop) == [start, StopRecording, StopRecording]
    ensures !Alternating(a + b + c + d)
  {
    OnlyOfFour(a, b, c, d, IsStartOrStop);
    var ss := Only(a + b + c + d, IsStartOrStop);
    assert ss == [start, StopRecording, StopRecording];
    assert !ss[2].StartRecording? && 2 % 2 == 0;
  }
}
