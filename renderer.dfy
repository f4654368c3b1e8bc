/**
 * CameraSurfaceRenderer: the GLSurfaceView renderer that drives the recording
 * state machine and draws each camera frame through the current filter.
 *
 * Calls into foreign objects (the movie encoder, the SurfaceTexture, the
 * FullFrameRect and its program, the camera handler) are recorded as events
 * appended to a ghost trace. Values those objects return (the encoder's
 * isRecording(), the id from createTextureObject(), the current EGL context)
 * are parameters. The pure functions below specify one call each; the class
 * at the end holds the renderer's fields and its methods are proved against
 * those functions.
 */
module Renderer {
  import opened Common
  import opened Filters

  const RECORDING_OFF := 0
  const RECORDING_ON := 1
  const RECORDING_RESUMED := 2
  /** The status the constructor leaves: none of the three, until onSurfaceCreated. */
  const STATUS_UNSET := -1
  /** The bit rate of every recording the renderer starts. */
  const BIT_RATE := 1000000

  /** TextureMovieEncoder.EncoderConfig; the EGL context is an opaque token. */
  datatype EncoderConfig = EncoderConfig(outputFile: string, width: int, height: int,
                                         bitRate: int, sharedContext: int)

  datatype Event =
    | PostSurfaceTexture(textureId: int)   // MSG_SET_SURFACE_TEXTURE sent to the camera handler
    | LatchFrame                           // SurfaceTexture.updateTexImage
    | StartRecording(config: EncoderConfig)
    | UpdateSharedContext(sharedContext: int)
    | StopRecording
    | SetTextureId(textureId: int)         // encoder.setTextureId
    | FrameAvailable                       // encoder.frameAvailable
    | ChangeProgram(programType: ProgramType)
    | SetKernel(kernel: Kernel, colorAdj: real)
    | SetTexSize(width: int, height: int)
    | DrawFrame(textureId: int)            // FullFrameRect.drawFrame
    | ReleaseSurfaceTexture
    | ReleaseFullScreen

  /** The exceptions the renderer can raise (null dereferences included). */
  datatype Fault =
    | NullSurfaceTexture
    | NullFullScreen
    | UnknownStatus(status: int)
    | UnknownFilter(filter: int)

  /**
   * The renderer's fields. fullScreen is the FullFrameRect, known by the type
   * of its program (None when null); surfaceTexture says whether
   * mSurfaceTexture is non-null.
   */
  datatype RendererState = RendererState(
    recordingEnabled: bool,
    recordingStatus: int,
    incomingSizeUpdated: bool,
    incomingWidth: int,
    incomingHeight: int,
    fullScreen: Option<ProgramType>,
    surfaceTexture: bool,
    textureId: int,
    currentFilter: int,
    newFilter: int,
    recordWidth: int,
    recordHeight: int,
    outputFile: string)

  /** A call's new state and the events it issued, when it cannot throw. */
  datatype Effect = Effect(state: RendererState, events: seq<Event>)

  /** A call's new state, the events it issued and the exception it ended with, if any. */
  datatype Step = Step(state: RendererState, events: seq<Event>, fault: Option<Fault>)

  /** One evaluation of the recording switch: the new status and the encoder calls made. */
  datatype Transition = Transition(status: int, effects: seq<Event>)

  predicate IsKnownStatus(status: int) {
    status == RECORDING_OFF || status == RECORDING_ON || status == RECORDING_RESUMED
  }

  predicate IsStartOrStop(e: Event) { e.StartRecording? || e.StopRecording? }
  predicate IsEncoderControl(e: Event) { e.StartRecording? || e.UpdateSharedContext? || e.StopRecording? }
  predicate IsFilterCall(e: Event) { e.ChangeProgram? || e.SetKernel? }
  predicate IsScreenCall(e: Event) { e.ChangeProgram? || e.SetKernel? || e.SetTexSize? || e.DrawFrame? }
  predicate IsSetTexSize(e: Event) { e.SetTexSize? }
  predicate IsChangeProgram(e: Event) { e.ChangeProgram? }
  predicate IsSetKernel(e: Event) { e.SetKernel? }

  /** The subsequence of the events that satisfy p. */
  function Only(evs: seq<Event>, p: Event -> bool): (r: seq<Event>)
    ensures |r| <= |evs|
  {
    if evs == [] then [] else (if p(evs[0]) then [evs[0]] else []) + Only(evs[1..], p)
  }

  lemma {:induction false} OnlyAppend(a: seq<Event>, b: seq<Event>, p: Event -> bool)
    ensures Only(a + b, p) == Only(a, p) + Only(b, p)
  {
    if a == [] {
      assert a + b == b;
    } else {
      var head: seq<Event> := if p(a[0]) then [a[0]] else [];
      assert (a + b)[0] == a[0];
      assert (a + b)[1..] == a[1..] + b;
      OnlyAppend(a[1..], b, p);
      calc {
        Only(a + b, p);
        head + Only(a[1..] + b, p);
        head + (Only(a[1..], p) + Only(b, p));
        (head + Only(a[1..], p)) + Only(b, p);
        Only(a, p) + Only(b, p);
      }
    }
  }

  /** Regrouping five traces appended in turn. */
  lemma AppendFive(a: seq<Event>, b: seq<Event>, c: seq<Event>, d: seq<Event>, e: seq<Event>)
    ensures a + b + c + d + e == a + (b + c + d + e)
  {
  }

  lemma OnlyOfFour(a: seq<Event>, b: seq<Event>, c: seq<Event>, d: seq<Event>, p: Event -> bool)
    ensures Only(a + b + c + d, p) == Only(a, p) + Only(b, p) + Only(c, p) + Only(d, p)
  {
    OnlyAppend(a + b + c, d, p);
    OnlyAppend(a + b, c, p);
    OnlyAppend(a, b, p);
  }

  lemma {:induction false} OnlyNone(evs: seq<Event>, p: Event -> bool)
    requires forall e :: e in evs ==> !p(e)
    ensures Only(evs, p) == []
  {
    if evs != [] {
      assert evs[0] in evs;
      assert forall e :: e in evs[1..] ==> e in evs;
      OnlyNone(evs[1..], p);
    }
  }

  lemma {:induction false} OnlyAll(evs: seq<Event>, p: Event -> bool)
    requires forall e :: e in evs ==> p(e)
    ensures Only(evs, p) == evs
  {
    if evs != [] {
      assert evs[0] in evs;
      assert forall e :: e in evs[1..] ==> e in evs;
      OnlyAll(evs[1..], p);
    }
  }

  /** The renderer as its constructor leaves it. */
  function Initial(outputFile: string): RendererState {
    RendererState(
      recordingEnabled := false, recordingStatus := STATUS_UNSET,
      incomingSizeUpdated := false, incomingWidth := -1, incomingHeight := -1,
      fullScreen := None, surfaceTexture := false, textureId := -1,
      currentFilter := -1, newFilter := FILTER_NONE,
      recordWidth := 0, recordHeight := 0, outputFile := outputFile)
  }

  /** setRecordingEnabled. */
  function WithRecordingEnabled(s: RendererState, enabled: bool): RendererState {
    s.(recordingEnabled := enabled)
  }

  /** onSurfaceChanged: the surface size becomes the size of future recordings. */
  function SurfaceChangedState(s: RendererState, width: int, height: int): RendererState {
    s.(recordWidth := width, recordHeight := height)
  }

  /** setCameraPreviewSize: stores the size and raises the size-updated flag. */
  function PreviewSizedState(s: RendererState, width: int, height: int): RendererState {
    s.(incomingWidth := width, incomingHeight := height, incomingSizeUpdated := true)
  }

  /**
   * onSurfaceCreated: a new EGL context, so the recording flag is re-read from
   * the encoder and the status set so that a recording in progress is
   * resumed, not restarted; a new full-screen TEXTURE_EXT program, a new
   * texture and SurfaceTexture, and the texture posted to the camera handler.
   */
  function SurfaceCreatedStep(s: RendererState, encoderRecording: bool, textureId: int): (r: Effect)
    ensures IsKnownStatus(r.state.recordingStatus)
    ensures r.state.recordingStatus == RECORDING_RESUMED <==> encoderRecording
    ensures r.state.recordingEnabled == encoderRecording
    ensures r.state.surfaceTexture && r.state.fullScreen == Some(TextureExt)
    ensures r.state.textureId == textureId
    ensures r.state.(recordingEnabled := s.recordingEnabled, recordingStatus := s.recordingStatus,
                     fullScreen := s.fullScreen, surfaceTexture := s.surfaceTexture,
                     textureId := s.textureId) == s
    ensures r.events == [PostSurfaceTexture(textureId)]
  {
    var s1 := s.(recordingEnabled := encoderRecording,
                 recordingStatus := if encoderRecording then RECORDING_RESUMED else RECORDING_OFF,
                 fullScreen := Some(TextureExt),
                 textureId := textureId,
                 surfaceTexture := true);
    Effect(s1, [PostSurfaceTexture(textureId)])
  }

  /**
   * notifyPausing: releases the SurfaceTexture and the FullFrameRect when they
   * are present and forgets the incoming size.
   */
  function PausingStep(s: RendererState): (r: Effect)
    ensures !r.state.surfaceTexture && r.state.fullScreen.None?
    ensures r.state.incomingWidth == -1 && r.state.incomingHeight == -1
    ensures r.state.(surfaceTexture := s.surfaceTexture, fullScreen := s.fullScreen,
                     incomingWidth := s.incomingWidth, incomingHeight := s.incomingHeight) == s
    ensures |Only(r.events, (e: Event) => e.ReleaseSurfaceTexture?)| == (if s.surfaceTexture then 1 else 0)
    ensures |Only(r.events, (e: Event) => e.ReleaseFullScreen?)| == (if s.fullScreen.Some? then 1 else 0)
  {
    var e1 := if s.surfaceTexture then [ReleaseSurfaceTexture] else [];
    var e2 := if s.fullScreen.Some? then e1 + [ReleaseFullScreen] else e1;
    Effect(s.(surfaceTexture := false, fullScreen := None, incomingWidth := -1, incomingHeight := -1), e2)
  }

  /**
   * The recording switch of onDrawFrame: with recording enabled, OFF starts
   * a recording, RESUMED re-binds the encoder to the new context and ON does
   * nothing; with recording disabled, ON and RESUMED stop and OFF does
   * nothing; any other status throws.
   */
  function RecordingStep(enabled: bool, status: int, config: EncoderConfig): (r: Result<Transition, Fault>)
    ensures r.Ok? <==> IsKnownStatus(status)
    ensures r.Err? ==> r.error == UnknownStatus(status)
    ensures r.Ok? ==> r.value.status == (if enabled then RECORDING_ON else RECORDING_OFF)
    ensures r.Ok? ==> |r.value.effects| <= 1
    ensures r.Ok? ==> (r.value.effects == [] <==> r.value.status == status)
    ensures r.Ok? ==> forall e :: e in r.value.effects ==> IsEncoderControl(e)
    ensures r.Ok? ==> (StartRecording(config) in r.value.effects <==> enabled && status == RECORDING_OFF)
  {
    if enabled then
      if status == RECORDING_OFF then Ok(Transition(RECORDING_ON, [StartRecording(config)]))
      else if status == RECORDING_RESUMED then
        Ok(Transition(RECORDING_ON, [UpdateSharedContext(config.sharedContext)]))
      else if status == RECORDING_ON then Ok(Transition(RECORDING_ON, []))
      else Err(UnknownStatus(status))
    else
      if status == RECORDING_ON || status == RECORDING_RESUMED then
        Ok(Transition(RECORDING_OFF, [StopRecording]))
      else if status == RECORDING_OFF then Ok(Transition(RECORDING_OFF, []))
      else Err(UnknownStatus(status))
  }

  /** The configuration onDrawFrame gives the encoder when it starts a recording. */
  function ConfigFor(s: RendererState, context: int): EncoderConfig {
    EncoderConfig(s.outputFile, s.recordWidth, s.recordHeight, BIT_RATE, context)
  }

  /**
   * updateFilter: maps the requested filter, replaces the program only when
   * its type differs (raising the size-updated flag so the new program gets
   * the texture size), sets the kernel when there is one, and records the
   * requested filter as current.
   */
  function FilterStep(s: RendererState): (r: Result<Effect, Fault>)
    ensures r.Ok? <==> IsKnownFilter(s.newFilter) && s.fullScreen.Some?
    ensures !IsKnownFilter(s.newFilter) ==> r == Err(UnknownFilter(s.newFilter))
    ensures r.Ok? ==> r.value.state.currentFilter == s.newFilter
    ensures r.Ok? ==> r.value.state.fullScreen == Some(FilterFor(s.newFilter).value.programType)
    ensures r.Ok? ==> r.value.state.(currentFilter := s.currentFilter, fullScreen := s.fullScreen,
                                     incomingSizeUpdated := s.incomingSizeUpdated) == s
    ensures r.Ok? ==> forall e :: e in r.value.events ==> IsFilterCall(e)
  {
    match FilterFor(s.newFilter)
    case None => Err(UnknownFilter(s.newFilter))
    case Some(spec) =>
      if s.fullScreen.None? then Err(NullFullScreen)
      else
        var rebuild := spec.programType != s.fullScreen.value;
        var s1 := if rebuild then s.(fullScreen := Some(spec.programType), incomingSizeUpdated := true) else s;
        var e1 := if rebuild then [ChangeProgram(spec.programType)] else [];
        var e2 := if spec.kernel.Some? then e1 + [SetKernel(spec.kernel.value, spec.colorAdj)] else e1;
        Ok(Effect(s1.(currentFilter := s.newFilter), e2))
  }

  /**
   * The second half of onDrawFrame, after the encoder has been told about the
   * frame: skip while the incoming size is unknown; otherwise bring the
   * filter up to date, push a changed size into the program and draw.
   */
  function ScreenStep(s: RendererState): (r: Step)
    ensures forall e :: e in r.events ==> IsScreenCall(e)
    ensures s.currentFilter == s.newFilter ==> forall e :: e in r.events ==> !IsFilterCall(e)
    ensures r.state.(currentFilter := s.currentFilter, fullScreen := s.fullScreen,
                     incomingSizeUpdated := s.incomingSizeUpdated) == s
    ensures s.incomingWidth > 0 && s.incomingHeight > 0 && r.fault.None? ==>
              && r.state.currentFilter == s.newFilter
              && !r.state.incomingSizeUpdated
              && r.events != [] && r.events[|r.events| - 1] == DrawFrame(s.textureId)
  {
    if s.incomingWidth <= 0 || s.incomingHeight <= 0 then Step(s, [], None)
    else
      var u := if s.currentFilter != s.newFilter then FilterStep(s) else Ok(Effect(s, []));
      match u
      case Err(f) => Step(s, [], Some(f))
      case Ok(fu) =>
        var s1 := fu.state;
        if s1.fullScreen.None? then Step(s1, fu.events, Some(NullFullScreen))
        else
          var e1 := if s1.incomingSizeUpdated then fu.events + [SetTexSize(s1.incomingWidth, s1.incomingHeight)]
                    else fu.events;
          Step(s1.(incomingSizeUpdated := false), e1 + [DrawFrame(s1.textureId)], None)
  }

  /**
   * onDrawFrame: latch the frame (throws when the SurfaceTexture is null),
   * run the recording switch, tell the encoder the texture id and that a
   * frame is available, then the screen half.
   */
  function DrawStep(s: RendererState, context: int): (r: Step)
    ensures !s.surfaceTexture ==> r == Step(s, [], Some(NullSurfaceTexture))
    ensures s.surfaceTexture && !IsKnownStatus(s.recordingStatus) ==>
              r == Step(s, [LatchFrame], Some(UnknownStatus(s.recordingStatus)))
    ensures s.surfaceTexture && IsKnownStatus(s.recordingStatus) ==>
              r.state.recordingStatus == (if s.recordingEnabled then RECORDING_ON else RECORDING_OFF)
    ensures r.state.(recordingStatus := s.recordingStatus, currentFilter := s.currentFilter,
                     fullScreen := s.fullScreen, incomingSizeUpdated := s.incomingSizeUpdated) == s
  {
    if !s.surfaceTexture then Step(s, [], Some(NullSurfaceTexture))
    else
      match RecordingStep(s.recordingEnabled, s.recordingStatus, ConfigFor(s, context))
      case Err(f) => Step(s, [LatchFrame], Some(f))
      case Ok(t) =>
        var screen := ScreenStep(s.(recordingStatus := t.status));
        Step(screen.state,
             [LatchFrame] + t.effects + [SetTextureId(s.textureId), FrameAvailable] + screen.events,
             screen.fault)
  }

  /** The GLSurfaceView renderer, with the fields the source updates in place. */
  class CameraSurfaceRenderer {
    var recordingEnabled: bool
    var recordingStatus: int
    var incomingSizeUpdated: bool
    var incomingWidth: int
    var incomingHeight: int
    var fullScreen: Option<ProgramType>
    var surfaceTexture: bool
    var textureId: int
    var currentFilter: int
    var newFilter: int
    var recordWidth: int
    var recordHeight: int
    const outputFile: string
    /** The calls made on the encoder, the GL objects and the camera handler, in order. */
    ghost var trace: seq<Event>

    function State(): RendererState
      reads this
    {
      RendererState(recordingEnabled, recordingStatus, incomingSizeUpdated, incomingWidth,
                    incomingHeight, fullScreen, surfaceTexture, textureId, currentFilter,
                    newFilter, recordWidth, recordHeight, outputFile)
    }

    constructor (outputFile: string)
      ensures State() == Initial(outputFile) && trace == []
    {
      this.outputFile := outputFile;
      textureId := -1;
      recordingStatus := STATUS_UNSET;
      recordingEnabled := false;
      incomingSizeUpdated := false;
      incomingWidth, incomingHeight := -1, -1;
      fullScreen := None;
      surfaceTexture := false;
      currentFilter := -1;
      newFilter := FILTER_NONE;
      recordWidth, recordHeight := 0, 0;
      trace := [];
    }

    method SetRecordingEnabled(enabled: bool)
      modifies this
      ensures State() == WithRecordingEnabled(old(State()), enabled) && trace == old(trace)
    {
      recordingEnabled := enabled;
    }

    method OnSurfaceCreated(encoderRecording: bool, newTextureId: int)
      modifies this
      ensures var r := SurfaceCreatedStep(old(State()), encoderRecording, newTextureId);
              State() == r.state && trace == old(trace) + r.events
    {
      recordingEnabled := encoderRecording;
      if recordingEnabled {
        recordingStatus := RECORDING_RESUMED;
      } else {
        recordingStatus := RECORDING_OFF;
      }
      fullScreen := Some(TextureExt);
      textureId := newTextureId;
      surfaceTexture := true;
      trace := trace + [PostSurfaceTexture(textureId)];
    }

    method OnSurfaceChanged(width: int, height: int)
      modifies this
      ensures State() == SurfaceChangedState(old(State()), width, height) && trace == old(trace)
    {
      recordWidth := width;
      recordHeight := height;
    }

    method OnDrawFrame(context: int) returns (fault: Option<Fault>)
      modifies this
      ensures var r := DrawStep(old(State()), context);
              State() == r.state && trace == old(trace) + r.events && fault == r.fault
    {
      if !surfaceTexture {
        return Some(NullSurfaceTexture);
      }
      ghost var before := trace;
      trace := trace + [LatchFrame];
      fault := RecordingSwitch(context);
      if fault.Some? {
        return;
      }
      ghost var effects := trace[|before| + 1..];
      assert trace == before + [LatchFrame] + effects;
      ghost var switched := State();
      trace := trace + [SetTextureId(textureId), FrameAvailable];
      fault := DrawScreen();
      AppendFive(before, [LatchFrame], effects, [SetTextureId(old(textureId)), FrameAvailable], ScreenStep(switched).events);
    }

    /** The recording switch at the head of onDrawFrame. */
    method RecordingSwitch(context: int) returns (fault: Option<Fault>)
      modifies this
      ensures match RecordingStep(old(recordingEnabled), old(recordingStatus), ConfigFor(old(State()), context))
              case Ok(t) => State() == old(State()).(recordingStatus := t.status)
                            && trace == old(trace) + t.effects && fault.None?
              case Err(f) => State() == old(State()) && trace == old(trace) && fault == Some(f)
    {
      fault := None;
      if recordingEnabled {
        if recordingStatus == RECORDING_OFF {
          trace := trace + [StartRecording(EncoderConfig(outputFile, recordWidth, recordHeight, BIT_RATE, context))];
          recordingStatus := RECORDING_ON;
        } else if recordingStatus == RECORDING_RESUMED {
          trace := trace + [UpdateSharedContext(context)];
          recordingStatus := RECORDING_ON;
        } else if recordingStatus != RECORDING_ON {
          fault := Some(UnknownStatus(recordingStatus));
        }
      } else {
        if recordingStatus == RECORDING_ON || recordingStatus == RECORDING_RESUMED {
          trace := trace + [StopRecording];
          recordingStatus := RECORDING_OFF;
        } else if recordingStatus != RECORDING_OFF {
          fault := Some(UnknownStatus(recordingStatus));
        }
      }
    }

    /** The tail of onDrawFrame: skip, filter update, size push and draw. */
    method DrawScreen() returns (fault: Option<Fault>)
      modifies this
      ensures var r := ScreenStep(old(State()));
              State() == r.state && trace == old(trace) + r.events && fault == r.fault
    {
      if incomingWidth <= 0 || incomingHeight <= 0 {
        return None;
      }
      if currentFilter != newFilter {
        fault := UpdateFilter();
        if fault.Some? {
          return;
        }
      }
      if fullScreen.None? {
        return Some(NullFullScreen);
      }
      if incomingSizeUpdated {
        trace := trace + [SetTexSize(incomingWidth, incomingHeight)];
        incomingSizeUpdated := false;
      }
      trace := trace + [DrawFrame(textureId)];
      fault := None;
    }

    method SetCameraPreviewSize(width: int, height: int)
      modifies this
      ensures State() == PreviewSizedState(old(State()), width, height) && trace == old(trace)
    {
      incomingWidth := width;
      incomingHeight := height;
      incomingSizeUpdated := true;
    }

    method NotifyPausing()
      modifies this
      ensures var r := PausingStep(old(State()));
              State() == r.state && trace == old(trace) + r.events
    {
      if surfaceTexture {
        trace := trace + [ReleaseSurfaceTexture];
        surfaceTexture := false;
      }
      if fullScreen.Some? {
        trace := trace + [ReleaseFullScreen];
        fullScreen := None;
      }
      incomingWidth, incomingHeight := -1, -1;
    }

    method UpdateFilter() returns (fault: Option<Fault>)
      modifies this
      ensures match FilterStep(old(State()))
              case Ok(u) => State() == u.state && trace == old(trace) + u.events && fault.None?
              case Err(f) => State() == old(State()) && trace == old(trace) && fault == Some(f)
    {
      var spec := FilterFor(newFilter);
      if spec.None? {
        return Some(UnknownFilter(newFilter));
      }
      var programType := spec.value.programType;
      if fullScreen.None? {
        return Some(NullFullScreen);
      }
      if programType != fullScreen.value {
        trace := trace + [ChangeProgram(programType)];
        fullScreen := Some(programType);
        incomingSizeUpdated := true;
      }
      if spec.value.kernel.Some? {
        trace := trace + [SetKernel(spec.value.kernel.value, spec.value.colorAdj)];
      }
      currentFilter := newFilter;
      fault := None;
    }
  }
}
