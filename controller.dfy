/**
 * RecordMovieController and its two handlers: opening and releasing the
 * camera, forwarding recording requests and size changes to the renderer,
 * and dispatching the messages the renderer (MSG_SET_SURFACE_TEXTURE) and
 * the controller itself (RECORD_PAUSING, RECORD_PREVIEW_SIZE_CHANGE) post.
 *
 * The camera list is a sequence of facings, the default Camera.open() result
 * a flag, and CameraUtils.choosePreviewSize with getPreviewSize a function
 * from the camera and the requested size to the negotiated one. Calls into
 * the camera, the GLSurfaceView, the listener and message posts are events
 * appended to a ghost trace. Message delivery is a sequential call of the
 * handler's HandleMessage; each weak reference is a nullable field.
 */
module Controller {
  import opened Common
  import opened Renderer

  /** CameraMovieHandler's one message, sent by the renderer with its SurfaceTexture. */
  const MSG_SET_SURFACE_TEXTURE := 0
  /** RecordMainHandler's messages. */
  const RECORD_PAUSING := 1
  const RECORD_PREVIEW_SIZE_CHANGE := 2

  /** handleResume's size request. */
  const RESUME_WIDTH := 1280
  const RESUME_HEIGHT := 720

  datatype Facing = Front | Back

  /** The camera opened: Camera.open(i) for an index, or Camera.open(). */
  datatype CameraId = Indexed(index: nat) | DefaultCamera

  datatype PreviewSize = PreviewSize(width: int, height: int)

  /** A RecordMainHandler message; width and height are the bundle's two ints (0 when absent). */
  datatype MainMessage = MainMessage(what: int, width: int, height: int)

  datatype ControllerEvent =
    | ViewConfigured                 // setEGLContextClientVersion(2), setRenderer, RENDERMODE_WHEN_DIRTY
    | ViewResumed                    // GLSurfaceView.onResume
    | ViewPaused                     // GLSurfaceView.onPause
    | Opened(id: CameraId)
    | Post(message: MainMessage)     // sent to RecordMainHandler
    | Notified(id: CameraId, size: PreviewSize)  // listener.onCameraPreviewSizeChange
    | StopPreview
    | ReleaseCamera
    | ListenFrames(texture: int)     // texture.setOnFrameAvailableListener(controller)
    | AttachPreview(texture: int)    // camera.setPreviewTexture
    | StartPreview
    | Oriented(orientation: int)     // camera.setDisplayOrientation
    | RenderRequested                // GLSurfaceView.requestRender

  /** The exceptions the controller raises (null dereferences included). */
  datatype ControllerFault =
    | CameraAlreadyInitialized
    | UnableToOpenCamera
    | UnknownMessage(what: int)
    | NullCamera
    | NullSurfaceView

  /** The controller's own fields; a handler or the view counts by whether it is non-null. */
  datatype ControllerState = ControllerState(
    camera: Option<CameraId>,
    previewWidth: int,
    previewHeight: int,
    hasView: bool,
    hasMainHandler: bool,
    hasListener: bool)

  datatype Outcome = Outcome(state: ControllerState, events: seq<ControllerEvent>, fault: Option<ControllerFault>)

  /** The first index whose facing is f. */
  function FirstIndex(facings: seq<Facing>, f: Facing): (i: nat)
    requires f in facings
    ensures i < |facings| && facings[i] == f
    ensures forall j :: 0 <= j < i ==> facings[j] != f
  {
    if facings[0] == f then 0 else 1 + FirstIndex(facings[1..], f)
  }

  /**
   * openCamera's choice: the first front-facing index, else the default
   * camera when Camera.open() yields one, else none.
   */
  function SelectCamera(facings: seq<Facing>, defaultOpens: bool): (r: Option<CameraId>)
    ensures r.Some? && r.value.Indexed? ==>
              && r.value.index < |facings| && facings[r.value.index] == Front
              && forall j :: 0 <= j < r.value.index ==> facings[j] != Front
    ensures r == Some(DefaultCamera) <==> Front !in facings && defaultOpens
    ensures r.None? <==> Front !in facings && !defaultOpens
  {
    if Front in facings then Some(Indexed(FirstIndex(facings, Front)))
    else if defaultOpens then Some(DefaultCamera)
    else None
  }

  /** setSurfaceRendererSize: a size-change message, when both the view and the main handler exist. */
  function RendererSizeEvents(c: ControllerState, width: int, height: int): (evs: seq<ControllerEvent>)
    ensures evs == [] || evs == [Post(MainMessage(RECORD_PREVIEW_SIZE_CHANGE, width, height))]
    ensures evs != [] <==> c.hasView && c.hasMainHandler
  {
    if !c.hasView then []
    else if !c.hasMainHandler then []
    else [Post(MainMessage(RECORD_PREVIEW_SIZE_CHANGE, width, height))]
  }

  /** notifyCameraPreviewSizeChange: the listener hears of the size when it is still there. */
  function NotifyEvents(c: ControllerState, id: CameraId, size: PreviewSize): (evs: seq<ControllerEvent>)
    ensures evs == [] || evs == [Notified(id, size)]
    ensures evs != [] <==> c.hasListener
  {
    if c.hasListener then [Notified(id, size)] else []
  }

  /**
   * openCamera. The width and height arguments are not used: the preview
   * size requested of the camera is the one the controller held before.
   */
  function OpenCameraStep(c: ControllerState, facings: seq<Facing>, defaultOpens: bool,
                          choose: (CameraId, int, int) -> PreviewSize): (r: Outcome)
    ensures r.fault == Some(CameraAlreadyInitialized) <==> c.camera.Some?
    ensures r.fault == Some(UnableToOpenCamera) <==> c.camera.None? && SelectCamera(facings, defaultOpens).None?
    ensures r.fault.Some? ==> r.state == c && r.events == []
    ensures r.fault.None? ==>
              && r.state.camera == SelectCamera(facings, defaultOpens)
              && r.state.camera.Some?
              && PreviewSize(r.state.previewWidth, r.state.previewHeight)
                 == choose(r.state.camera.value, c.previewWidth, c.previewHeight)
              && r.state.(camera := c.camera, previewWidth := c.previewWidth,
                          previewHeight := c.previewHeight) == c
              && r.events != [] && r.events[0] == Opened(r.state.camera.value)
              && ((Post(MainMessage(RECORD_PREVIEW_SIZE_CHANGE, r.state.previewWidth, r.state.previewHeight))
                   in r.events) <==> c.hasView && c.hasMainHandler)
              && ((Notified(r.state.camera.value, PreviewSize(r.state.previewWidth, r.state.previewHeight))
                   in r.events) <==> c.hasListener)
              && forall e :: e in r.events ==> e.Opened? || e.Post? || e.Notified?
  {
    if c.camera.Some? then Outcome(c, [], Some(CameraAlreadyInitialized))
    else
      match SelectCamera(facings, defaultOpens)
      case None => Outcome(c, [], Some(UnableToOpenCamera))
      case Some(id) =>
        var size := choose(id, c.previewWidth, c.previewHeight);
        var c1 := c.(camera := Some(id), previewWidth := size.width, previewHeight := size.height);
        Outcome(c1, [Opened(id)] + RendererSizeEvents(c1, size.width, size.height) + NotifyEvents(c1, id, size), None)
  }

  /** release: stops and releases a held camera and forgets it. */
  function ReleaseStep(c: ControllerState): (r: Outcome)
    ensures r.state.camera.None? && r.fault.None?
    ensures r.state.(camera := c.camera) == c
    ensures r.events == (if c.camera.Some? then [StopPreview, ReleaseCamera] else [])
  {
    if c.camera.Some? then Outcome(c.(camera := None), [StopPreview, ReleaseCamera], None)
    else Outcome(c, [], None)
  }

  /**
   * handleSetSurfaceTexture: nothing for a null texture; otherwise the
   * controller listens for its frames and the camera previews into it,
   * which throws when no camera is held.
   */
  function SetSurfaceTextureStep(c: ControllerState, texture: Option<int>): (r: Outcome)
    ensures r.state == c
    ensures texture.None? ==> r.events == [] && r.fault.None?
    ensures texture.Some? ==> r.events != [] && r.events[0] == ListenFrames(texture.value)
    ensures r.fault.Some? <==> texture.Some? && c.camera.None?
    ensures r.fault.Some? ==> r.fault == Some(NullCamera) && StartPreview !in r.events
    ensures r.fault.None? && texture.Some? ==> r.events[|r.events| - 1] == StartPreview
    ensures r.fault.None? && texture.Some? ==> AttachPreview(texture.value) in r.events
    ensures forall e :: e in r.events ==>
              texture.Some? && (e == ListenFrames(texture.value) || e == AttachPreview(texture.value) || e == StartPreview)
  {
    match texture
    case None => Outcome(c, [], None)
    case Some(t) =>
      if c.camera.None? then Outcome(c, [ListenFrames(t)], Some(NullCamera))
      else Outcome(c, [ListenFrames(t), AttachPreview(t), StartPreview], None)
  }

  /** CameraMovieHandler.handleMessage with its controller still there. */
  function MovieMessageStep(c: ControllerState, what: int, texture: Option<int>): (r: Outcome)
    ensures r.state == c
    ensures what != MSG_SET_SURFACE_TEXTURE ==> r.fault == Some(UnknownMessage(what)) && r.events == []
    ensures what == MSG_SET_SURFACE_TEXTURE ==> r == SetSurfaceTextureStep(c, texture)
  {
    if what == MSG_SET_SURFACE_TEXTURE then SetSurfaceTextureStep(c, texture)
    else Outcome(c, [], Some(UnknownMessage(what)))
  }

  /**
   * RecordMainHandler.handleMessage as seen by the renderer, when the
   * controller and its renderer are there: pausing notifies the renderer, a
   * size change forwards the bundled size, anything else is ignored.
   */
  function MainMessageStep(s: RendererState, msg: Option<MainMessage>): (r: Effect)
    ensures msg.Some? && msg.value.what == RECORD_PAUSING ==> r == PausingStep(s)
    ensures msg.Some? && msg.value.what == RECORD_PREVIEW_SIZE_CHANGE ==>
              && r.state.incomingWidth == msg.value.width
              && r.state.incomingHeight == msg.value.height
              && r.state.incomingSizeUpdated
              && r.state.(incomingWidth := s.incomingWidth, incomingHeight := s.incomingHeight,
                          incomingSizeUpdated := s.incomingSizeUpdated) == s
              && r.events == []
    ensures msg.None? || (msg.value.what != RECORD_PAUSING && msg.value.what != RECORD_PREVIEW_SIZE_CHANGE) ==>
              r == Effect(s, [])
  {
    match msg
    case None => Effect(s, [])
    case Some(m) =>
      if m.what == RECORD_PAUSING then PausingStep(s)
      else if m.what == RECORD_PREVIEW_SIZE_CHANGE then Effect(PreviewSizedState(s, m.width, m.height), [])
      else Effect(s, [])
  }

  /**
   * handleResume: resume the view, repost the held preview size, and open a
   * camera when none is held. A null view throws before anything happens.
   */
  function ResumeStep(c: ControllerState, facings: seq<Facing>, defaultOpens: bool,
                      choose: (CameraId, int, int) -> PreviewSize): (r: Outcome)
    ensures !c.hasView ==> r == Outcome(c, [], Some(NullSurfaceView))
    ensures c.hasView ==> r.events != [] && r.events[0] == ViewResumed
    ensures c.hasView && c.camera.Some? ==> r.fault.None? && r.state == c
    ensures c.hasView && c.camera.None? ==>
              (r.fault.None? <==> SelectCamera(facings, defaultOpens).Some?)
    ensures c.hasView && c.camera.None? ==>
              var o := OpenCameraStep(c, facings, defaultOpens, choose);
              && r.state == o.state && r.fault == o.fault
              && (o.fault.None? ==> Opened(o.state.camera.value) in r.events)
    ensures c.hasView ==>
              ((Post(MainMessage(RECORD_PREVIEW_SIZE_CHANGE, c.previewWidth, c.previewHeight)) in r.events)
               <==> c.hasMainHandler)
    ensures r.fault.None? ==> r.state.camera.Some? || !c.hasView
  {
    if !c.hasView then Outcome(c, [], Some(NullSurfaceView))
    else
      var e1 := [ViewResumed] + RendererSizeEvents(c, c.previewWidth, c.previewHeight);
      if c.camera.Some? then Outcome(c, e1, None)
      else
        var o := OpenCameraStep(c, facings, defaultOpens, choose);
        Outcome(o.state, e1 + o.events, o.fault)
  }

  /**
   * handlePause: release the camera, ask the main handler to pause the
   * renderer, pause the view (throwing when it is null, after the rest).
   */
  function PauseStep(c: ControllerState): (r: Outcome)
    ensures r.state.camera.None?
    ensures r.state.(camera := c.camera) == c
    ensures (Post(MainMessage(RECORD_PAUSING, 0, 0)) in r.events) <==> c.hasMainHandler
    ensures r.fault.Some? <==> !c.hasView
    ensures r.fault.Some? ==> r.fault == Some(NullSurfaceView)
    ensures ReleaseStep(c).events <= r.events
    ensures r.fault.None? ==> r.events != [] && r.events[|r.events| - 1] == ViewPaused
  {
    var rel := ReleaseStep(c);
    var e1 := rel.events + (if c.hasMainHandler then [Post(MainMessage(RECORD_PAUSING, 0, 0))] else []);
    if c.hasView then Outcome(rel.state, e1 + [ViewPaused], None)
    else Outcome(rel.state, e1, Some(NullSurfaceView))
  }

  /** Regrouping four traces appended in turn. */
  lemma AppendFour(a: seq<ControllerEvent>, b: seq<ControllerEvent>, c: seq<ControllerEvent>, d: seq<ControllerEvent>)
    ensures a + b + c + d == a + (b + c + d)
  {
  }

  /** Releasing twice is releasing once: the second call does nothing. */
  lemma ReleaseIsIdempotent(c: ControllerState)
    ensures var r := ReleaseStep(c);
            ReleaseStep(r.state) == Outcome(r.state, [], None)
  {
  }

  /**
   * A held camera makes openCamera throw; a successful open leaves a camera
   * held, so opening again before a release throws.
   */
  lemma OpenTwiceThrows(c: ControllerState, facings: seq<Facing>, defaultOpens: bool,
                                           choose: (CameraId, int, int) -> PreviewSize,
                                           facings2: seq<Facing>, defaultOpens2: bool)
    requires OpenCameraStep(c, facings, defaultOpens, choose).fault.None?
    ensures OpenCameraStep(OpenCameraStep(c, facings, defaultOpens, choose).state, facings2, defaultOpens2, choose)
            == Outcome(OpenCameraStep(c, facings, defaultOpens, choose).state, [], Some(CameraAlreadyInitialized))
  {
  }

  /** After a release a camera can be opened again whenever one is available. */
  lemma ReopenAfterRelease(c: ControllerState, facings: seq<Facing>, defaultOpens: bool,
                           choose: (CameraId, int, int) -> PreviewSize)
    ensures var o := OpenCameraStep(ReleaseStep(c).state, facings, defaultOpens, choose);
            o.fault.None? <==> SelectCamera(facings, defaultOpens).Some?
  {
  }

  /**
   * The two handlers treat an unexpected message differently: the camera
   * handler throws, the main handler leaves the renderer as it was.
   */
  lemma UnknownMessageThrowsOnlyInMovieHandler(c: ControllerState, s: RendererState,
                                               what: int, texture: Option<int>, width: int, height: int)
    requires what != MSG_SET_SURFACE_TEXTURE && what != RECORD_PAUSING && what != RECORD_PREVIEW_SIZE_CHANGE
    ensures MovieMessageStep(c, what, texture).fault == Some(UnknownMessage(what))
    ensures MainMessageStep(s, Some(MainMessage(what, width, height))) == Effect(s, [])
  {
  }

  /**
   * handlePause releases the camera but leaves the camera handler valid, so
   * a SurfaceTexture message delivered after a pause still reaches the
   * controller and throws on the missing camera, before the preview starts.
   */
  lemma SurfaceTextureAfterPauseThrows(c: ControllerState, texture: int)
    ensures var p := PauseStep(c).state;
            var r := MovieMessageStep(p, MSG_SET_SURFACE_TEXTURE, Some(texture));
            r.fault == Some(NullCamera) && r.events == [ListenFrames(texture)]
  {
  }

  /**
   * A size change posted by a successful open reaches the renderer with
   * the negotiated size, which the next non-skipped draw then pushes.
   */
  lemma OpenedSizeReachesRenderer(c: ControllerState, facings: seq<Facing>, defaultOpens: bool,
                                  choose: (CameraId, int, int) -> PreviewSize, s: RendererState)
    requires c.camera.None? && c.hasView && c.hasMainHandler
    requires SelectCamera(facings, defaultOpens).Some?
    ensures var o := OpenCameraStep(c, facings, defaultOpens, choose);
            var size := choose(SelectCamera(facings, defaultOpens).value, c.previewWidth, c.previewHeight);
            && o.fault.None?
            && o.events[1] == Post(MainMessage(RECORD_PREVIEW_SIZE_CHANGE, size.width, size.height))
            && MainMessageStep(s, Some(o.events[1].message)).state == PreviewSizedState(s, size.width, size.height)
  {
  }

  /** The controller. The GLSurfaceView is only known as present or absent. */
  class RecordMovieController {
    var camera: Option<CameraId>
    var previewWidth: int
    var previewHeight: int
    var hasView: bool
    var hasListener: bool
    var renderer: CameraSurfaceRenderer?
    var movieHandler: CameraMovieHandler?
    var mainHandler: RecordMainHandler?
    ghost var trace: seq<ControllerEvent>

    function State(): ControllerState
      reads this
    {
      ControllerState(camera, previewWidth, previewHeight, hasView, mainHandler != null, hasListener)
    }

    /** Builder.builder: a new controller with the builder's view, before initialize. */
    constructor (hasView: bool)
      ensures State() == ControllerState(None, 0, 0, hasView, false, false)
      ensures renderer == null && movieHandler == null && mainHandler == null && trace == []
    {
      camera := None;
      previewWidth, previewHeight := 0, 0;
      this.hasView := hasView;
      hasListener := false;
      renderer, movieHandler, mainHandler := null, null, null;
      trace := [];
    }

    /** setGLSurfaceView. */
    method SetGLSurfaceView(present: bool)
      modifies this
      ensures State() == old(State()).(hasView := present) && trace == old(trace)
      ensures renderer == old(renderer) && movieHandler == old(movieHandler) && mainHandler == old(mainHandler)
    {
      hasView := present;
    }

    /**
     * initialize: two new handlers pointing back at this controller, a new
     * renderer for the file, and the view configured to render on demand.
     */
    method Initialize(outputFile: string)
      modifies this
      ensures fresh(renderer) && fresh(movieHandler) && fresh(mainHandler)
      ensures renderer.State() == Initial(outputFile) && renderer.trace == []
      ensures movieHandler.controller == this && mainHandler.controller == this
      ensures State() == old(State()).(hasMainHandler := true)
      ensures trace == old(trace) + (if hasView then [ViewConfigured] else [])
    {
      movieHandler := new CameraMovieHandler(this);
      mainHandler := new RecordMainHandler(this);
      renderer := new CameraSurfaceRenderer(outputFile);
      if hasView {
        trace := trace + [ViewConfigured];
      }
    }

    /** pauseMovieRecord: the renderer, when there is one, releases its GL objects. */
    method PauseMovieRecord()
      modifies renderer
      ensures renderer != null ==>
                var r := PausingStep(old(renderer.State()));
                renderer.State() == r.state && renderer.trace == old(renderer.trace) + r.events
    {
      if renderer != null {
        renderer.NotifyPausing();
      }
    }

    /** changePreviewSizeChange: the renderer, when there is one, takes the new incoming size. */
    method ChangePreviewSize(width: int, height: int)
      modifies renderer
      ensures renderer != null ==>
                renderer.State() == PreviewSizedState(old(renderer.State()), width, height)
                && renderer.trace == old(renderer.trace)
    {
      if renderer != null {
        renderer.SetCameraPreviewSize(width, height);
      }
    }

    /** setSurfaceRendererSize. */
    method SetSurfaceRendererSize(width: int, height: int)
      modifies this
      ensures State() == old(State()) && trace == old(trace) + RendererSizeEvents(old(State()), width, height)
      ensures renderer == old(renderer) && movieHandler == old(movieHandler) && mainHandler == old(mainHandler)
    {
      if !hasView {
        return;
      }
      if mainHandler != null {
        trace := trace + [Post(MainMessage(RECORD_PREVIEW_SIZE_CHANGE, width, height))];
      }
    }

    /**
     * openCamera: throws when a camera is held; scans the cameras for the
     * first front-facing one, falls back to the default camera, throws
     * when that fails too; then negotiates the preview size, reposts it and
     * tells the listener.
     */
    method OpenCamera(width: int, height: int, facings: seq<Facing>, defaultOpens: bool,
                      choose: (CameraId, int, int) -> PreviewSize)
      returns (fault: Option<ControllerFault>)
      modifies this
      ensures var r := OpenCameraStep(old(State()), facings, defaultOpens, choose);
              State() == r.state && trace == old(trace) + r.events && fault == r.fault
      ensures renderer == old(renderer) && movieHandler == old(movieHandler) && mainHandler == old(mainHandler)
    {
      if camera.Some? {
        return Some(CameraAlreadyInitialized);
      }
      var id := FrontCamera(facings);
      if id.None? && defaultOpens {
        id := Some(DefaultCamera);
      }
      if id.None? {
        return Some(UnableToOpenCamera);
      }
      assert id == SelectCamera(facings, defaultOpens);
      camera := id;
      OpenSelected(id.value, choose);
      fault := None;
    }

    /** openCamera's scan: the first front-facing camera, if any. */
    method FrontCamera(facings: seq<Facing>) returns (id: Option<CameraId>)
      ensures id == (if Front in facings then Some(Indexed(FirstIndex(facings, Front))) else None)
    {
      id := None;
      var i := 0;
      while i < |facings|
        invariant 0 <= i <= |facings|
        invariant forall j :: 0 <= j < i ==> facings[j] != Front
      {
        if facings[i] == Front {
          id := Some(Indexed(i));
          return;
        }
        i := i + 1;
      }
    }

    /** The tail of openCamera once a camera is open: negotiate, repost and notify. */
    method OpenSelected(id: CameraId, choose: (CameraId, int, int) -> PreviewSize)
      requires camera == Some(id)
      modifies this
      ensures var size := choose(id, old(previewWidth), old(previewHeight));
              var c1 := old(State()).(previewWidth := size.width, previewHeight := size.height);
              && State() == c1
              && trace == old(trace) + ([Opened(id)] + RendererSizeEvents(c1, size.width, size.height)
                                        + NotifyEvents(c1, id, size))
      ensures renderer == old(renderer) && movieHandler == old(movieHandler) && mainHandler == old(mainHandler)
    {
      var size := choose(id, previewWidth, previewHeight);
      trace := trace + [Opened(id)];
      previewWidth, previewHeight := size.width, size.height;
      SetSurfaceRendererSize(previewWidth, previewHeight);
      NotifyCameraPreviewSizeChange(id, size);
    }

    /** notifyCameraPreviewSizeChange. */
    method NotifyCameraPreviewSizeChange(id: CameraId, size: PreviewSize)
      modifies this
      ensures State() == old(State()) && trace == old(trace) + NotifyEvents(old(State()), id, size)
      ensures renderer == old(renderer) && movieHandler == old(movieHandler) && mainHandler == old(mainHandler)
    {
      if hasListener {
        trace := trace + [Notified(id, size)];
      }
    }

    /** release. */
    method Release()
      modifies this
      ensures var r := ReleaseStep(old(State()));
              State() == r.state && trace == old(trace) + r.events
      ensures renderer == old(renderer) && movieHandler == old(movieHandler) && mainHandler == old(mainHandler)
    {
      if camera.Some? {
        trace := trace + [StopPreview, ReleaseCamera];
        camera := None;
      }
    }

    /** handleResume, with the camera inputs openCamera needs. */
    method HandleResume(facings: seq<Facing>, defaultOpens: bool, choose: (CameraId, int, int) -> PreviewSize)
      returns (fault: Option<ControllerFault>)
      modifies this
      ensures var r := ResumeStep(old(State()), facings, defaultOpens, choose);
              State() == r.state && trace == old(trace) + r.events && fault == r.fault
      ensures renderer == old(renderer) && movieHandler == old(movieHandler) && mainHandler == old(mainHandler)
    {
      if !hasView {
        return Some(NullSurfaceView);
      }
      ghost var before := trace;
      trace := trace + [ViewResumed];
      SetSurfaceRendererSize(previewWidth, previewHeight);
      fault := None;
      if camera.None? {
        fault := OpenCamera(RESUME_WIDTH, RESUME_HEIGHT, facings, defaultOpens, choose);
        AppendFour(before, [ViewResumed], RendererSizeEvents(old(State()), old(previewWidth), old(previewHeight)),
                   OpenCameraStep(old(State()), facings, defaultOpens, choose).events);
      }
    }

    /** handlePause. */
    method HandlePause() returns (fault: Option<ControllerFault>)
      modifies this
      ensures var r := PauseStep(old(State()));
              State() == r.state && trace == old(trace) + r.events && fault == r.fault
      ensures renderer == old(renderer) && movieHandler == old(movieHandler) && mainHandler == old(mainHandler)
    {
      Release();
      if mainHandler != null {
        trace := trace + [Post(MainMessage(RECORD_PAUSING, 0, 0))];
      }
      if !hasView {
        return Some(NullSurfaceView);
      }
      trace := trace + [ViewPaused];
      fault := None;
    }

    /** handleDestroy: the camera handler lets go of the controller. */
    method HandleDestroy()
      modifies movieHandler
      ensures movieHandler != null ==> movieHandler.controller == null
    {
      if movieHandler != null {
        movieHandler.InvalidateHandler();
      }
    }

    /** startRecordVideo: the file path is not used. */
    method StartRecordVideo(filePath: string)
      modifies renderer
      ensures renderer != null ==>
                renderer.State() == WithRecordingEnabled(old(renderer.State()), true)
                && renderer.trace == old(renderer.trace)
    {
      if renderer != null {
        renderer.SetRecordingEnabled(true);
      }
    }

    /** stopRecordVideo. */
    method StopRecordVideo()
      modifies renderer
      ensures renderer != null ==>
                renderer.State() == WithRecordingEnabled(old(renderer.State()), false)
                && renderer.trace == old(renderer.trace)
    {
      if renderer != null {
        renderer.SetRecordingEnabled(false);
      }
    }

    /** setOnCameraPreviewSizeChangeListener; present is false for a null listener. */
    method SetOnCameraPreviewSizeChangeListener(present: bool)
      modifies this
      ensures State() == old(State()).(hasListener := present) && trace == old(trace)
      ensures renderer == old(renderer) && movieHandler == old(movieHandler) && mainHandler == old(mainHandler)
    {
      hasListener := present;
    }

    /** setDisplayOrientation: passed to a held camera, ignored otherwise. */
    method SetDisplayOrientation(orientation: int)
      modifies this
      ensures State() == old(State())
      ensures trace == old(trace) + (if camera.Some? then [Oriented(orientation)] else [])
      ensures renderer == old(renderer) && movieHandler == old(movieHandler) && mainHandler == old(mainHandler)
    {
      if camera.Some? {
        trace := trace + [Oriented(orientation)];
      }
    }

    /** onFrameAvailable: asks the view, when there is one, to render. */
    method OnFrameAvailable()
      modifies this
      ensures State() == old(State())
      ensures trace == old(trace) + (if hasView then [RenderRequested] else [])
      ensures renderer == old(renderer) && movieHandler == old(movieHandler) && mainHandler == old(mainHandler)
    {
      if hasView {
        trace := trace + [RenderRequested];
      }
    }

    /** handleSetSurfaceTexture. */
    method HandleSetSurfaceTexture(texture: Option<int>) returns (fault: Option<ControllerFault>)
      modifies this
      ensures var r := SetSurfaceTextureStep(old(State()), texture);
              State() == r.state && trace == old(trace) + r.events && fault == r.fault
      ensures renderer == old(renderer) && movieHandler == old(movieHandler) && mainHandler == old(mainHandler)
    {
      if texture.None? {
        return None;
      }
      trace := trace + [ListenFrames(texture.value)];
      if camera.None? {
        return Some(NullCamera);
      }
      trace := trace + [AttachPreview(texture.value), StartPreview];
      fault := None;
    }
  }

  /** CameraMovieHandler: runs the renderer's requests on the controller's thread. */
  class CameraMovieHandler {
    var controller: RecordMovieController?

    constructor (controller: RecordMovieController?)
      ensures this.controller == controller
    {
      this.controller := controller;
    }

    /**
     * handleMessage: nothing once the controller is gone; otherwise
     * MSG_SET_SURFACE_TEXTURE reaches the controller and anything else throws.
     */
    method HandleMessage(what: int, texture: Option<int>) returns (fault: Option<ControllerFault>)
      modifies controller
      ensures controller == null ==> fault.None?
      ensures controller != null ==>
                var r := MovieMessageStep(old(controller.State()), what, texture);
                controller.State() == r.state && controller.trace == old(controller.trace) + r.events
                && fault == r.fault
    {
      if controller == null {
        return None;
      }
      if what == MSG_SET_SURFACE_TEXTURE {
        fault := controller.HandleSetSurfaceTexture(texture);
      } else {
        fault := Some(UnknownMessage(what));
      }
    }

    /** invalidateHandler: every later message is ignored. */
    method InvalidateHandler()
      modifies this
      ensures controller == null
    {
      controller := null;
    }
  }

  /** RecordMainHandler: runs the controller's own requests on the main thread. */
  class RecordMainHandler {
    var controller: RecordMovieController?

    constructor (controller: RecordMovieController?)
      ensures this.controller == controller
    {
      this.controller := controller;
    }

    /** The renderer a message may reach, if the controller and its renderer are there. */
    function Target(): set<CameraSurfaceRenderer>
      reads this, controller
    {
      if controller != null && controller.renderer != null then {controller.renderer} else {}
    }

    /**
     * handleMessage: nothing for a null message or a missing controller;
     * otherwise the renderer is paused, resized or left alone.
     */
    method HandleMessage(msg: Option<MainMessage>)
      modifies Target()
      ensures Target() != {} ==>
                var r := MainMessageStep(old(controller.renderer.State()), msg);
                controller.renderer.State() == r.state
                && controller.renderer.trace == old(controller.renderer.trace) + r.events
    {
      if msg.None? || controller == null {
        return;
      }
      var m := msg.value;
      if m.what == RECORD_PAUSING {
        controller.PauseMovieRecord();
      } else if m.what == RECORD_PREVIEW_SIZE_CHANGE {
        controller.ChangePreviewSize(m.width, m.height);
      }
    }
  }
}
