# Camera recording renderer and controller, modelled in Dafny

This project models the recording core of the RecordLib Android library:

- `CameraSurfaceRenderer`, the GLSurfaceView renderer. Every frame it runs
  the recording state machine (OFF = 0, ON = 1, RESUMED = 2, and -1 until the
  surface exists). It tells the movie encoder about the frame and skips drawing
  while the incoming preview size is unknown. It brings the filter program up
  to date and pushes the texture size once per change.
- `RecordMovieController` and its two handlers. The controller opens the
  first front-facing camera (else the default one), releases the camera and
  forwards recording requests and size changes to the renderer.
  `CameraMovieHandler` dispatches the renderer's SurfaceTexture message and
  throws on anything else. `RecordMainHandler` dispatches pause and
  size-change messages and ignores anything else.

Layout:

- `common.dfy`: `Option` (a nullable reference) and `Result` (a call
  that may throw).
- `filters.dfy`: the filter ids and the pure switch of `updateFilter`,
  with exact kernel weights.
- `renderer.dfy`: one pure function per renderer call (`DrawStep`,
  `FilterStep` and the others) and the class `CameraSurfaceRenderer`,
  whose methods are proved to compute exactly those functions.
- `renderer_properties.dfy`: what a single draw does in each recording
  state and each size or filter situation.
- `renderer_runs.dfy`: arbitrary sequences of renderer calls. In this run
  model the encoder's `isRecording()` follows the renderer's own starts and
  stops at once. Under that condition, over any sequence from a new
  renderer, the encoder's starts and stops alternate, beginning with a
  start. Without it they need not alternate: `StaleIsRecordingStopsTwice`
  shows a start followed by two stops (see Findings). The file also covers
  repeated draws and unsized draws, and shows that the unknown-status
  exception cannot happen.
- `controller.dfy`: one pure function per controller call, the classes
  `RecordMovieController`, `CameraMovieHandler` and
  `RecordMainHandler`, and lemmas relating the calls.

Calls into foreign objects are appended as events to a ghost `trace`: the
encoder, the SurfaceTexture, the FullFrameRect and its program, the camera,
the GLSurfaceView, the listener and the message queues. Values those objects
return are parameters:

- the encoder's `isRecording()`;
- the texture id from `createTextureObject()`;
- the current EGL context;
- the list of camera facings and whether `Camera.open()` yields a camera;
- the preview size the camera negotiates.

Exceptions, including null dereferences, are a `fault` result.

Behaviour as the code has it:

- `updateFilter` runs only while the current filter differs from the
  requested one. A kernel is therefore set once per change of filter, not on
  every frame.
- Switching between two convolution filters (blur, sharpen, edge detection,
  emboss) keeps the TEXTURE_EXT_FILT program. Only the kernel changes, and
  the program is not rebuilt.
- The recording status has the values OFF, ON and RESUMED, and starts at -1
  (none of them). A draw before `onSurfaceCreated` throws, but because the
  SurfaceTexture is still null, not because of the status.
  `onSurfaceCreated` creates the SurfaceTexture and sets a known status
  together. So no sequence of calls reaches the "unknown status" throws of
  `onDrawFrame`: they are dead code (`NoUnknownStatusFromStart`).
- `onSurfaceCreated` installs a plain TEXTURE_EXT program but keeps the
  current filter. A filter applied before the surface was recreated is
  therefore not applied again (`FilterNotReappliedAfterSurfaceRecreated`).
- `handlePause` releases the camera but does not invalidate
  `CameraMovieHandler`. A pause does not turn pending messages into no-ops:
  a SurfaceTexture message delivered after a pause reaches the controller
  and throws on the null camera (`SurfaceTextureAfterPauseThrows`).
- `openCamera(width, height)` does not use its arguments. The preview size
  requested of the camera is the size the controller held before, which is
  (0, 0) on the first open. `OpenCameraStep` states it that way.
- The renderer has no setter for the requested filter. The constructor fixes
  it to FILTER_NONE. The filter lemmas hold for every requested filter, the
  others included.

## Model

| member | source | states |
|---|---|---|
| Filters.FilterFor | RecordLib/src/main/java/com/process/RecordLib/CameraSurfaceRenderer.java:241-282 | ids 0..5 are the known filters and every other id throws; a filter has a kernel exactly when it runs on the TEXTURE_EXT_FILT program, which is exactly the convolution filters; only FILTER_NONE uses TEXTURE_EXT; only emboss has a colour bias |
| Filters.KernelWeights | RecordLib/src/main/java/com/process/RecordLib/CameraSurfaceRenderer.java:251-279 | the blur and sharpen kernels' weights sum to 1 (brightness kept), edge-detect and emboss sum to 0 |
| Filters.SameProgramIffBothConvolution | RecordLib/src/main/java/com/process/RecordLib/CameraSurfaceRenderer.java:241-290 | two distinct known filters share a program type exactly when both are convolution filters, so only such a switch avoids a program rebuild |
| Renderer.SurfaceCreatedStep | RecordLib/src/main/java/com/process/RecordLib/CameraSurfaceRenderer.java:83-111 | recording enabled becomes the encoder's isRecording(), the status RESUMED exactly when it records and OFF otherwise; a TEXTURE_EXT program and a SurfaceTexture exist; the texture id becomes the new one; incoming size, size flag, filters, record size and output file are kept; the texture is posted to the camera handler |
| Renderer.PausingStep | RecordLib/src/main/java/com/process/RecordLib/CameraSurfaceRenderer.java:219-230 | SurfaceTexture and FullFrameRect released exactly once each when present, then null; incoming size -1 x -1; nothing else changes |
| Renderer.RecordingStep | RecordLib/src/main/java/com/process/RecordLib/CameraSurfaceRenderer.java:131-166 | a known status (0, 1, 2) never throws and an unknown one throws with that status; the new status is ON when enabled and OFF when disabled; at most one encoder call, made exactly when the status changes; a start exactly when enabled and OFF |
| Renderer.FilterStep | RecordLib/src/main/java/com/process/RecordLib/CameraSurfaceRenderer.java:235-298 | throws for an unknown filter or a null FullFrameRect; otherwise the current filter becomes the requested one, the program type becomes the filter's, only program, filter and size flag change, and only program and kernel calls are made |
| Renderer.ScreenStep | RecordLib/src/main/java/com/process/RecordLib/CameraSurfaceRenderer.java:179-197 | only program, kernel, size and draw calls; no program or kernel call when the filter is current; only filter, program and size flag change; a sized draw that does not throw ends with the filter current, the size flag down and a draw call last |
| Renderer.DrawStep | RecordLib/src/main/java/com/process/RecordLib/CameraSurfaceRenderer.java:121-198 | a null SurfaceTexture throws before any call; an unknown status throws right after the latch; otherwise the status ends ON when enabled and OFF when disabled; only status, filter, program and size flag change |
| Renderer.CameraSurfaceRenderer.constructor | RecordLib/src/main/java/com/process/RecordLib/CameraSurfaceRenderer.java:63-80 | status -1, recording disabled, sizes -1, no texture, no program, current filter -1, requested filter FILTER_NONE |
| Renderer.CameraSurfaceRenderer.SetRecordingEnabled | RecordLib/src/main/java/com/process/RecordLib/CameraSurfaceRenderer.java:59-61 | only the recording flag changes, no call is made |
| Renderer.CameraSurfaceRenderer.OnSurfaceCreated | RecordLib/src/main/java/com/process/RecordLib/CameraSurfaceRenderer.java:83-111 | new state and calls are those of SurfaceCreatedStep |
| Renderer.CameraSurfaceRenderer.OnSurfaceChanged | RecordLib/src/main/java/com/process/RecordLib/CameraSurfaceRenderer.java:114-118 | the surface size becomes the recording size, nothing else changes |
| Renderer.CameraSurfaceRenderer.OnDrawFrame | RecordLib/src/main/java/com/process/RecordLib/CameraSurfaceRenderer.java:121-198 | new state, calls and exception are those of DrawStep |
| Renderer.CameraSurfaceRenderer.RecordingSwitch | RecordLib/src/main/java/com/process/RecordLib/CameraSurfaceRenderer.java:131-166 | status and encoder calls are those of RecordingStep, after the latch; throws as it does |
| Renderer.CameraSurfaceRenderer.DrawScreen | RecordLib/src/main/java/com/process/RecordLib/CameraSurfaceRenderer.java:179-197 | new state, calls and exception are those of ScreenStep |
| Renderer.CameraSurfaceRenderer.SetCameraPreviewSize | RecordLib/src/main/java/com/process/RecordLib/CameraSurfaceRenderer.java:207-212 | stores the incoming size and raises the size flag |
| Renderer.CameraSurfaceRenderer.NotifyPausing | RecordLib/src/main/java/com/process/RecordLib/CameraSurfaceRenderer.java:219-230 | new state and release calls are those of PausingStep |
| Renderer.CameraSurfaceRenderer.UpdateFilter | RecordLib/src/main/java/com/process/RecordLib/CameraSurfaceRenderer.java:235-298 | new state, calls and exception are those of FilterStep |
| RendererProperties.DrawStartsRecording | RecordLib/src/main/java/com/process/RecordLib/CameraSurfaceRenderer.java:133-139 | enabled and OFF: the draw's only encoder-control call is a start with (output file, recording width, recording height, 1000000, current context), and the status becomes ON |
| RendererProperties.DrawResumesRecording | RecordLib/src/main/java/com/process/RecordLib/CameraSurfaceRenderer.java:140-144 | enabled and RESUMED: the only encoder-control call is updateSharedContext with the current context, never a start or stop; status ON |
| RendererProperties.DrawStopsRecording | RecordLib/src/main/java/com/process/RecordLib/CameraSurfaceRenderer.java:151-159 | disabled and ON or RESUMED: the only encoder-control call is one stop; status OFF |
| RendererProperties.DrawKeepsSettledRecording | RecordLib/src/main/java/com/process/RecordLib/CameraSurfaceRenderer.java:145-162 | enabled and ON, or disabled and OFF: no encoder-control call and the status is unchanged |
| RendererProperties.DrawBeforeSurfaceCreatedThrows | RecordLib/src/main/java/com/process/RecordLib/CameraSurfaceRenderer.java:63-80 | a draw on a new renderer throws on the null SurfaceTexture; with one it throws on status -1 |
| RendererProperties.SkippedDrawTouchesNoScreen | RecordLib/src/main/java/com/process/RecordLib/CameraSurfaceRenderer.java:131-185 | a non-positive incoming size: the latch, the recording switch, setTextureId and frameAvailable still happen; no program, kernel, size or draw call; nothing but the status changes; no exception |
| RendererProperties.ProgramRebuiltIffTypeDiffers | RecordLib/src/main/java/com/process/RecordLib/CameraSurfaceRenderer.java:284-295 | the program is replaced exactly when its type differs from the filter's; a replacement raises the size flag; the kernel is set exactly when the filter has one |
| RendererProperties.FilterUpdatedAtMostOnce | RecordLib/src/main/java/com/process/RecordLib/CameraSurfaceRenderer.java:187-189 | after a sized draw that did not throw, the current filter is the requested one, and the next draw makes no program or kernel call |
| RendererProperties.SizePushedOnce | RecordLib/src/main/java/com/process/RecordLib/CameraSurfaceRenderer.java:190-193 | after setCameraPreviewSize(w, h) with a positive size, the next draw pushes SetTexSize(w, h) exactly once and the draw after it pushes none |
| RendererProperties.RebuildPushesSize | RecordLib/src/main/java/com/process/RecordLib/CameraSurfaceRenderer.java:286-290 | a draw that replaces the program also pushes the incoming size into the new program |
| RendererProperties.ResumeAfterSurfaceCreated | RecordLib/src/main/java/com/process/RecordLib/CameraSurfaceRenderer.java:89-94 | after onSurfaceCreated, the next draw never starts or stops the encoder; it re-binds a recording encoder to the new context |
| RendererProperties.FilterNotReappliedAfterSurfaceRecreated | RecordLib/src/main/java/com/process/RecordLib/CameraSurfaceRenderer.java:98-99 | with a filter other than FILTER_NONE current, after onSurfaceCreated the next sized draw makes no program or kernel call and draws with TEXTURE_EXT, not the filter's program |
| RendererProperties.PausingIsIdempotent | RecordLib/src/main/java/com/process/RecordLib/CameraSurfaceRenderer.java:219-230 | a second notifyPausing makes no call and changes nothing |
| RendererProperties.NoCallsAfterPausing | RecordLib/src/main/java/com/process/RecordLib/CameraSurfaceRenderer.java:219-230 | after notifyPausing a draw throws at once, before any GL or encoder call |
| RendererRuns.DrawKeepsConsistent | RecordLib/src/main/java/com/process/RecordLib/CameraSurfaceRenderer.java:131-166 | with isRecording() following the renderer's own starts and stops at once, one draw keeps the run invariant: starts and stops alternate, the encoder records exactly after a start, and the status is ON or RESUMED exactly while it records |
| RendererRuns.RunKeepsConsistent | RecordLib/src/main/java/com/process/RecordLib/CameraSurfaceRenderer.java:131-166 | with isRecording() following the renderer's own starts and stops at once, every sequence of renderer calls keeps that invariant |
| RendererRuns.StartsAndStopsAlternate | RecordLib/src/main/java/com/process/RecordLib/CameraSurfaceRenderer.java:131-166 | with isRecording() following the renderer's own starts and stops at once, from a new renderer, over any sequence of enable, surface, size, pause and draw calls, starts and stops alternate beginning with a start, and the status says ON or RESUMED exactly while the encoder records |
| RendererRuns.SettledDrawsMakeNoEncoderCalls | RecordLib/src/main/java/com/process/RecordLib/CameraSurfaceRenderer.java:145-147 | enabled and ON, any number of draws make no encoder-control call |
| RendererRuns.EnabledDrawsStartOnce | RecordLib/src/main/java/com/process/RecordLib/CameraSurfaceRenderer.java:133-147 | enabled and OFF, one or more draws make exactly one encoder-control call, the first draw's start |
| RendererRuns.UnsizedDrawsNeverReachScreen | RecordLib/src/main/java/com/process/RecordLib/CameraSurfaceRenderer.java:179-185 | while the incoming size is not positive, any number of draws throw nothing, make no program, kernel, size or draw call and leave filter, program and size flag alone |
| RendererRuns.ApplyKeepsStatusReady | RecordLib/src/main/java/com/process/RecordLib/CameraSurfaceRenderer.java:148-164 | no single call throws "unknown status", and a renderer with a SurfaceTexture keeps a known status |
| RendererRuns.RunKeepsStatusReady | RecordLib/src/main/java/com/process/RecordLib/CameraSurfaceRenderer.java:148-164 | no sequence of calls on a renderer whose SurfaceTexture implies a known status ends in "unknown status" |
| RendererRuns.NoUnknownStatusFromStart | RecordLib/src/main/java/com/process/RecordLib/CameraSurfaceRenderer.java:148-164 | from a new renderer, no sequence of calls ends in the "unknown status" exception |
| RendererRuns.StaleIsRecordingStopsTwice | RecordLib/src/main/java/com/process/RecordLib/CameraSurfaceRenderer.java:89-94 | if isRecording() still answers true after a stop when the surface is recreated, recording is re-enabled against the user's stop and the encoder gets start, stop, stop, which does not alternate |
| Controller.FirstIndex | RecordLib/src/main/java/com/process/RecordLib/RecordMovieController.java:138-144 | the index found has the facing sought and no earlier index has it |
| Controller.SelectCamera | RecordLib/src/main/java/com/process/RecordLib/RecordMovieController.java:138-153 | the first front-facing index when there is one; the default camera exactly when none is front-facing and the default open succeeds; none exactly when neither |
| Controller.RendererSizeEvents | RecordLib/src/main/java/com/process/RecordLib/RecordMovieController.java:235-253 | a size-change message with exactly the given size is posted exactly when both the view and the main handler exist |
| Controller.NotifyEvents | RecordLib/src/main/java/com/process/RecordLib/RecordMovieController.java:255-268 | the listener gets onCameraPreviewSizeChange with the camera and the size, exactly when it is registered; nothing else is called |
| Controller.OpenCameraStep | RecordLib/src/main/java/com/process/RecordLib/RecordMovieController.java:130-170 | throws "camera already initialized" exactly when a camera is held and "Unable to open camera" exactly when none can be chosen, changing nothing; otherwise the camera is SelectCamera's, the preview size is the negotiated one, the open comes first, the size-change message carries the negotiated size exactly when view and main handler exist, the listener hears the camera and negotiated size exactly when registered, and no other call is made |
| Controller.ReleaseStep | RecordLib/src/main/java/com/process/RecordLib/RecordMovieController.java:198-205 | no camera afterwards; stopPreview and release exactly when one was held; nothing else changes |
| Controller.SetSurfaceTextureStep | RecordLib/src/main/java/com/process/RecordLib/RecordMovieController.java:274-289 | a null texture does nothing; otherwise the frame listener is set first; it throws exactly when no camera is held, before startPreview; otherwise the camera previews into exactly the given texture and startPreview is last; no call names another texture |
| Controller.MovieMessageStep | RecordLib/src/main/java/com/process/RecordLib/RecordMovieController.java:327-331 | MSG_SET_SURFACE_TEXTURE is handleSetSurfaceTexture; any other what throws "unknown msg" with no call |
| Controller.MainMessageStep | RecordLib/src/main/java/com/process/RecordLib/RecordMovieController.java:368-394 | RECORD_PAUSING pauses the renderer; RECORD_PREVIEW_SIZE_CHANGE gives it the bundled width and height unchanged with the size flag up and nothing else changed; a null message or any other what leaves it as it was |
| Controller.ResumeStep | RecordLib/src/main/java/com/process/RecordLib/RecordMovieController.java:95-103 | a null view throws first; otherwise the view resumes first and the held size is reposted exactly when the main handler exists; a held camera is kept; without one the new state and fault are openCamera's and a successful open is among the calls; without a fault a camera is held |
| Controller.PauseStep | RecordLib/src/main/java/com/process/RecordLib/RecordMovieController.java:106-118 | the release's calls come first (stopPreview and release of a held camera); no camera afterwards and nothing else changes; a pause message is posted exactly when the main handler exists; throws exactly when the view is null, otherwise the view is paused last |
| Controller.ReleaseIsIdempotent | RecordLib/src/main/java/com/process/RecordLib/RecordMovieController.java:198-205 | a second release makes no call and changes nothing |
| Controller.OpenTwiceThrows | RecordLib/src/main/java/com/process/RecordLib/RecordMovieController.java:131-133 | after a successful open, opening again throws "camera already initialized" and changes nothing |
| Controller.ReopenAfterRelease | RecordLib/src/main/java/com/process/RecordLib/RecordMovieController.java:198-205 | after release, an open succeeds exactly when a camera can be chosen |
| Controller.UnknownMessageThrowsOnlyInMovieHandler | RecordLib/src/main/java/com/process/RecordLib/RecordMovieController.java:385-393 | a what that neither handler knows makes CameraMovieHandler throw and RecordMainHandler leave the renderer alone |
| Controller.SurfaceTextureAfterPauseThrows | RecordLib/src/main/java/com/process/RecordLib/RecordMovieController.java:106-118 | after handlePause a SurfaceTexture message still reaches the controller, sets the frame listener and throws on the null camera |
| Controller.OpenedSizeReachesRenderer | RecordLib/src/main/java/com/process/RecordLib/RecordMovieController.java:162-167 | a successful open with view and main handler present posts the negotiated size, and delivering that message sets exactly that size in the renderer |
| Controller.RecordMovieController.constructor | RecordLib/src/main/java/com/process/RecordLib/RecordMovieController.java:412-416 | no camera, preview size 0 x 0, no handlers, renderer or listener; the builder's view |
| Controller.RecordMovieController.SetGLSurfaceView | RecordLib/src/main/java/com/process/RecordLib/RecordMovieController.java:295-297 | only the view changes |
| Controller.RecordMovieController.Initialize | RecordLib/src/main/java/com/process/RecordLib/RecordMovieController.java:77-92 | new handlers pointing back at this controller, a new renderer in its initial state for the file, and the view configured when present |
| Controller.RecordMovieController.PauseMovieRecord | RecordLib/src/main/java/com/process/RecordLib/RecordMovieController.java:51-57 | a present renderer does exactly notifyPausing |
| Controller.RecordMovieController.ChangePreviewSize | RecordLib/src/main/java/com/process/RecordLib/RecordMovieController.java:64-70 | a present renderer does exactly setCameraPreviewSize with the given size |
| Controller.RecordMovieController.SetSurfaceRendererSize | RecordLib/src/main/java/com/process/RecordLib/RecordMovieController.java:235-253 | posts what RendererSizeEvents says and changes nothing else |
| Controller.RecordMovieController.OpenCamera | RecordLib/src/main/java/com/process/RecordLib/RecordMovieController.java:130-170 | computes OpenCameraStep: the same new state, calls and exception |
| Controller.RecordMovieController.FrontCamera | RecordLib/src/main/java/com/process/RecordLib/RecordMovieController.java:136-145 | the scanning loop finds the first front-facing camera, or none when no camera faces front |
| Controller.RecordMovieController.NotifyCameraPreviewSizeChange | RecordLib/src/main/java/com/process/RecordLib/RecordMovieController.java:255-268 | calls what NotifyEvents says and changes nothing else |
| Controller.RecordMovieController.Release | RecordLib/src/main/java/com/process/RecordLib/RecordMovieController.java:198-205 | new state and calls are those of ReleaseStep |
| Controller.RecordMovieController.HandleResume | RecordLib/src/main/java/com/process/RecordLib/RecordMovieController.java:95-103 | new state, calls and exception are those of ResumeStep, with the request 1280 x 720 |
| Controller.RecordMovieController.HandlePause | RecordLib/src/main/java/com/process/RecordLib/RecordMovieController.java:106-118 | new state, calls and exception are those of PauseStep |
| Controller.RecordMovieController.HandleDestroy | RecordLib/src/main/java/com/process/RecordLib/RecordMovieController.java:121-127 | a present camera handler loses its controller |
| Controller.RecordMovieController.StartRecordVideo | RecordLib/src/main/java/com/process/RecordLib/RecordMovieController.java:173-180 | a present renderer gets recording enabled, whatever the path; nothing else |
| Controller.RecordMovieController.StopRecordVideo | RecordLib/src/main/java/com/process/RecordLib/RecordMovieController.java:183-190 | a present renderer gets recording disabled; nothing else |
| Controller.RecordMovieController.SetOnCameraPreviewSizeChangeListener | RecordLib/src/main/java/com/process/RecordLib/RecordMovieController.java:208-210 | only the listener changes |
| Controller.RecordMovieController.SetDisplayOrientation | RecordLib/src/main/java/com/process/RecordLib/RecordMovieController.java:213-219 | the orientation reaches a held camera; nothing changes otherwise |
| Controller.RecordMovieController.OnFrameAvailable | RecordLib/src/main/java/com/process/RecordLib/RecordMovieController.java:222-228 | a render is requested exactly when the view exists |
| Controller.RecordMovieController.HandleSetSurfaceTexture | RecordLib/src/main/java/com/process/RecordLib/RecordMovieController.java:274-289 | new state, calls and exception are those of SetSurfaceTextureStep |
| Controller.CameraMovieHandler.constructor | RecordLib/src/main/java/com/process/RecordLib/RecordMovieController.java:308-310 | the handler refers to the given controller |
| Controller.CameraMovieHandler.HandleMessage | RecordLib/src/main/java/com/process/RecordLib/RecordMovieController.java:313-332 | without a controller nothing happens and nothing throws; otherwise the calls and exception are those of MovieMessageStep |
| Controller.CameraMovieHandler.InvalidateHandler | RecordLib/src/main/java/com/process/RecordLib/RecordMovieController.java:337-343 | the controller reference is gone, so every later message is a no-op |
| Controller.RecordMainHandler.constructor | RecordLib/src/main/java/com/process/RecordLib/RecordMovieController.java:362-365 | the handler refers to the given controller |
| Controller.RecordMainHandler.HandleMessage | RecordLib/src/main/java/com/process/RecordLib/RecordMovieController.java:368-394 | with a controller and renderer present, the renderer's new state and calls are those of MainMessageStep; otherwise nothing can change |

## Findings

| source | as written | input that shows it | evidently intended | confidence | as-written member | corrected member |
|---|---|---|---|---|---|---|
| RecordLib/src/main/java/com/process/RecordLib/CameraSurfaceRenderer.java:89-94 | onSurfaceCreated re-enables recording from the encoder's isRecording(), which the encoder lowers on its own thread after a stop | surface created, enable, draw, disable, draw, pause, surface created while isRecording() still answers true, draw, disable, draw: start, stop, stop | the encoder is started and stopped alternately, and a stop the user asked for stays in force | low; not executed | RendererRuns.StaleIsRecordingStopsTwice | RendererRuns.StartsAndStopsAlternate |

## Left out

- Logging, and the `Log`-only branches, which have no other effect.
- `saveFrameFile` only logs; it is not modelled.
- `Builder.setSurfaceView` is folded into the controller's constructor argument.
- GL, EGL and camera objects are opaque: no transform matrix (`getTransformMatrix`), no shader behaviour, no `choosePreviewSize` algorithm. They appear only as events and parameters.
- Filters.FilterFor: kernels are exact rationals rather than 32-bit floats, which is exact for every weight used (sixteenths, integers and 0.5).
- `Camera.open(i)` throwing, and `setPreviewTexture` failing with an IOException, are foreign failures and are not modelled. A null camera in `handleSetSurfaceTexture` is modelled.
- Threading: handler queues, GLSurfaceView render scheduling and weak-reference clearing by the garbage collector. A posted message is an event; its delivery is a separate, sequential `HandleMessage` call. A weak reference is one nullable field that `invalidateHandler` sets to null.
- RendererRuns.Apply: the encoder's `isRecording()` is taken to follow the renderer's own starts and stops at once. The real encoder runs on its own thread.
- The renderer class has no way to change the requested filter, as in the code. The filter lemmas quantify over renderer states instead.
- VideoRecordController.java, IVideoRecordController.java, the app module's MainActivity.java and AspectSurfaceView.java are not part of this model.
