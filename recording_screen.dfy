/**
 * The capture screen: the 9:16 crop decision, the crop geometry, the
 * classification of camera errors, and the countdown / recording timeline
 * with its recorder and chunk buffer. Browser media objects are replaced by
 * their observable state; timers advance by discrete one-second ticks.
 */
module RecordingScreen {
  import opened Wrappers
  import opened JsMath
  import opened AppContext
  import opened Thrown

  // ------------------------------------------------------------ aspect ratio

  const TargetAspect: real := 9.0 / 16.0
  const AspectTolerance: real := 0.05

  /**
   * `|width / height - 9/16| > 0.05` on the negotiated track size. A zero
   * height makes the JavaScript ratio Infinity (crop) or, for 0/0, NaN (no crop).
   */
  predicate NeedsCanvasCrop(width: nat, height: nat)
  {
    if height == 0 then width > 0
    else Abs(width as real / height as real - TargetAspect) > AspectTolerance
  }

  lemma AbsScaled(x: real, k: real)
    requires k > 0.0
    ensures Abs(x) * k == Abs(x * k)
  {
  }

  lemma DeviationScaled(w: real, h: real)
    requires h > 0.0
    ensures (w / h - 9.0 / 16.0) * (16.0 * h) == 16.0 * w - 9.0 * h
  {
    assert w / h * h == w;
  }

  lemma ToleranceInIntegers(a: int, height: int)
    ensures (a as real > 0.8 * height as real) == (20 * a > 16 * height)
  {
    assert (20 * a) as real == 20.0 * a as real;
    assert (16 * height) as real == 20.0 * (0.8 * height as real);
    ScaleCompare(a as real, 0.8 * height as real, 20.0);
  }

  /** The deviation from 9:16, scaled by 16h, is |16w - 9h|. */
  lemma AbsDeviationScaled(w: real, h: real, n: real)
    requires h > 0.0 && n == 16.0 * w - 9.0 * h
    ensures Abs(w / h - 9.0 / 16.0) * (16.0 * h) == Abs(n)
  {
    DeviationScaled(w, h);
    AbsScaled(w / h - 9.0 / 16.0, 16.0 * h);
  }

  lemma ThresholdScaled(x: real, h: real, a: real)
    requires h > 0.0 && x * (16.0 * h) == a
    ensures (x > 0.05) == (a > 0.8 * h)
  {
    ScaleCompare(x, 0.05, 16.0 * h);
  }

  /** With a positive height the tolerance test is the integer test 20 * |16w - 9h| > 16h. */
  lemma {:induction false} NeedsCanvasCropCrossMultiplied(width: nat, height: nat)
    requires height > 0
    ensures NeedsCanvasCrop(width, height) <==>
              20 * (if 16 * width >= 9 * height then 16 * width - 9 * height else 9 * height - 16 * width) > 16 * height
  {
    var ni := 16 * width - 9 * height;
    var a := if ni >= 0 then ni else -ni;
    var w, h := width as real, height as real;
    assert ni as real == 16.0 * w - 9.0 * h;
    AbsDeviationScaled(w, h, ni as real);
    assert Abs(ni as real) == a as real;
    ThresholdScaled(Abs(w / h - 9.0 / 16.0), h, a as real);
    ToleranceInIntegers(a, height);
  }

  /** Portrait 720x1280 and 1080x1920 are recorded directly; landscape 1280x720 and 640x480 are cropped. */
  lemma CropDecisionExamples()
    ensures !NeedsCanvasCrop(720, 1280) && !NeedsCanvasCrop(1080, 1920)
    ensures NeedsCanvasCrop(1280, 720) && NeedsCanvasCrop(640, 480)
    ensures NeedsCanvasCrop(640, 0) && !NeedsCanvasCrop(0, 0)
  {
    NeedsCanvasCropCrossMultiplied(720, 1280);
    NeedsCanvasCropCrossMultiplied(1080, 1920);
    NeedsCanvasCropCrossMultiplied(1280, 720);
    NeedsCanvasCropCrossMultiplied(640, 480);
  }

  // ---------------------------------------------------------- crop geometry

  const OutputHeight: nat := 1280

  /** `Math.round(outH * 9 / 16)`. */
  function OutputWidth(): (w: nat)
    ensures w == 720 && 16 * w == 9 * OutputHeight
  {
    Round(OutputHeight as real * 9.0 / 16.0)
  }

  /** The source rectangle copied from a video frame onto the whole output canvas. */
  datatype CropRect = CropRect(sx: real, sy: real, sw: real, sh: real)

  /**
   * A full-height 9:16 strip, centred horizontally: the margins left and
   * right of it are equal, and there is no guard for frames narrower than the
   * strip (the offset is then negative).
   */
  function CropSource(iw: nat, ih: nat): (r: CropRect)
    ensures r.sy == 0.0 && r.sh == ih as real
    ensures 16.0 * r.sw == 9.0 * r.sh
    ensures r.sx == iw as real - (r.sx + r.sw)
    ensures r.sw <= iw as real ==> 0.0 <= r.sx && r.sx + r.sw <= iw as real
    ensures r.sw > iw as real ==> r.sx < 0.0
  {
    var cropW := ih as real * 9.0 / 16.0;
    CropRect((iw as real - cropW) / 2.0, 0.0, cropW, ih as real)
  }

  // ---------------------------------------------------------- camera errors

  const DeniedUserMessage := "カメラへのアクセスが拒否されました。ブラウザの設定でカメラの使用を許可してください。"
  const NotFoundUserMessage := "カメラが見つかりませんでした。カメラが接続されているか確認してください。"
  const StartFailedUserMessage := "カメラの起動に失敗しました。"

  predicate IsPermissionDenial(name: string)
  {
    name == "NotAllowedError" || name == "PermissionDeniedError"
  }

  predicate IsMissingDevice(name: string)
  {
    name == "NotFoundError" || name == "DevicesNotFoundError"
  }

  /**
   * The catch of camera acquisition: a denial is retryable CAMERA_ACCESS_DENIED,
   * a missing device is the one non-retryable CAMERA_NOT_AVAILABLE, any other
   * Error a retryable CAMERA_NOT_AVAILABLE; a thrown non-Error sets nothing.
   */
  function ClassifyCameraError(err: Thrown): (e: Option<AppError>)
    ensures e.None? <==> !IsErrorInstance(err)
    ensures e.Some? ==> e.value.message == MessageOf(err)
    ensures e.Some? ==> (e.value.kind == CAMERA_ACCESS_DENIED <==> IsPermissionDenial(NameOf(err)))
    ensures e.Some? ==> (e.value.kind == CAMERA_NOT_AVAILABLE <==> !IsPermissionDenial(NameOf(err)))
    ensures e.Some? ==> (!e.value.retryable <==> IsMissingDevice(NameOf(err)))
  {
    if !IsErrorInstance(err) then None
    else if IsPermissionDenial(NameOf(err)) then
      Some(AppError(CAMERA_ACCESS_DENIED, MessageOf(err), DeniedUserMessage, true))
    else if IsMissingDevice(NameOf(err)) then
      Some(AppError(CAMERA_NOT_AVAILABLE, MessageOf(err), NotFoundUserMessage, false))
    else
      Some(AppError(CAMERA_NOT_AVAILABLE, MessageOf(err), StartFailedUserMessage, true))
  }

  // --------------------------------------------------------------- timeline

  const CountdownStart: int := 3
  const RecordingSeconds: int := 4
  const ClipDurationMs: int := 4000
  const PreferredMime := "video/webm;codecs=vp9"
  const NextRoute := "/clothing-selection"

  datatype RecorderState = Inactive | Recording | Paused

  /** The current MediaRecorder: its MIME type, state, and whether it records the canvas. */
  datatype Recorder = Recorder(mimeType: string, state: RecorderState, throughCanvas: bool)

  /**
   * What the browser offers the recorder: VP9 support, its default type, a 2D
   * canvas context, and what (if anything) `captureStream`, the `MediaRecorder`
   * constructor or `start()` throws.
   */
  datatype RecorderEnv = RecorderEnv(vp9Supported: bool, defaultMime: string, canvasContext: bool,
                                     startFailure: Option<Thrown>)

  /** How one camera request ended. */
  datatype CameraAttempt = Granted | Refused(reason: Thrown)

  /** The screen's observable state (React state and refs). */
  datatype Screen = Screen(
    mounted: bool,
    hasStream: bool,
    tracksStopped: bool,
    needsCanvasCrop: bool,
    videoAttached: bool,
    isCountingDown: bool,
    countdown: int,
    isRecording: bool,
    remainingTime: int,
    recorder: Option<Recorder>,
    chunks: seq<Blob>,
    frameScheduled: bool,
    navigation: Option<string>)

  /** Writes to the session store made by one step (None: that setter is not called). */
  datatype Writes = Writes(error: Option<AppError>, video: Option<RecordedVideo>)

  datatype Step = Step(screen: Screen, writes: Writes)

  /** A drawing step: the new state and the rectangle drawn, if any. */
  datatype Frame = Frame(screen: Screen, drawn: Option<CropRect>)

  const NoWrites := Writes(None, None)

  const InitialScreen := Screen(true, false, false, false, false, false, CountdownStart, false,
                                RecordingSeconds, None, [], false, None)

  /** The store after a step's writes. */
  function ApplyWrites(st: AppState, w: Writes): AppState
  {
    st.(error := if w.error.Some? then w.error else st.error,
        recordedVideo := if w.video.Some? then w.video else st.recordedVideo)
  }

  /** `requestCamera`: the 9:16 request, else an unconstrained one; then the crop decision. */
  function AcquireCamera(s: Screen, constrained: CameraAttempt, unconstrained: CameraAttempt,
                         width: nat, height: nat): Step
  {
    if constrained.Granted? || unconstrained.Granted? then
      var crop := NeedsCanvasCrop(width, height);
      if s.mounted then Step(s.(hasStream := true, needsCanvasCrop := crop, videoAttached := crop), NoWrites)
      else Step(s, NoWrites)
    else Step(s, Writes(ClassifyCameraError(unconstrained.reason), None))
  }

  /** The settle delay after acquisition: the countdown begins. */
  function Settle(s: Screen): Screen
  {
    if s.mounted then s.(isCountingDown := true) else s
  }

  function RecorderMime(env: RecorderEnv): string
  {
    if env.vp9Supported then PreferredMime else env.defaultMime
  }

  const StartFailedRecordingMessage := "録画の開始に失敗しました。"
  const VideoMissingMessage := "Video element not found"
  const NoCanvasMessage := "Canvas context not available"

  /** Whether starting succeeds: a stream, and on the canvas path the video element and a 2D context. */
  predicate StartSucceeds(s: Screen, env: RecorderEnv)
  {
    s.hasStream && (!s.needsCanvasCrop || (s.videoAttached && env.canvasContext)) && env.startFailure.None?
  }

  /** The record the catch of `startRecording` stores for what was thrown. */
  function StartThrew(err: Thrown): AppError
  {
    RecordingStartError(MessageOr(err, "Unknown error"))
  }

  function RecordingStartError(message: string): AppError
  {
    AppError(RECORDING_FAILED, message, StartFailedRecordingMessage, true)
  }

  /** `startRecording`: nothing without a stream; otherwise a fresh recorder and an empty buffer. */
  /**
   * What the `catch` of `startRecording` stores, if anything: the missing
   * video element or canvas context on the canvas path, or what the recorder
   * set-up threw.
   */
  function StartFailure(s: Screen, env: RecorderEnv): (e: Option<AppError>)
    ensures e.None? <==> (!s.needsCanvasCrop || (s.videoAttached && env.canvasContext)) && env.startFailure.None?
  {
    if s.needsCanvasCrop && !s.videoAttached then Some(RecordingStartError(VideoMissingMessage))
    else if s.needsCanvasCrop && !env.canvasContext then Some(RecordingStartError(NoCanvasMessage))
    else if env.startFailure.Some? then Some(StartThrew(env.startFailure.value))
    else None
  }

  function Start(s: Screen, env: RecorderEnv): Step
  {
    if !s.hasStream then Step(s, NoWrites)
    else
      var s1 := s.(isRecording := true, remainingTime := RecordingSeconds);
      match StartFailure(s1, env)
      case Some(e) => Step(s1, Writes(Some(e), None))
      case None =>
        Step(s1.(recorder := Some(Recorder(RecorderMime(env), Recording, s1.needsCanvasCrop)), chunks := [],
                 frameScheduled := s1.needsCanvasCrop || s1.frameScheduled), NoWrites)
  }

  predicate RecorderActive(s: Screen)
  {
    s.recorder.Some? && s.recorder.value.state != Inactive
  }

  /** Without a stream, starting changes nothing and writes nothing. */
  lemma StartWithoutStream(s: Screen, env: RecorderEnv)
    requires !s.hasStream
    ensures Start(s, env) == Step(s, NoWrites)
  {
  }

  /**
   * With a stream the flags are raised first; then either a fresh recorder
   * with an empty buffer (and, on the canvas path, the frame loop) starts, or
   * a retryable RECORDING_FAILED naming the missing video element, the
   * missing canvas context or what was thrown is stored, with the recorder,
   * buffer and frame loop left as they were.
   */
  lemma StartOutcomes(s: Screen, env: RecorderEnv)
    requires s.hasStream
    ensures var st := Start(s, env);
            && st.screen.isRecording && st.screen.remainingTime == RecordingSeconds
            && (StartSucceeds(s, env) ==>
                  st.writes == NoWrites && st.screen.chunks == []
                  && st.screen.recorder == Some(Recorder(RecorderMime(env), Recording, s.needsCanvasCrop))
                  && st.screen.frameScheduled == (s.needsCanvasCrop || s.frameScheduled))
            && (!StartSucceeds(s, env) ==>
                  st.screen == s.(isRecording := true, remainingTime := RecordingSeconds)
                  && st.writes.video.None? && st.writes.error.Some?
                  && st.writes.error.value.kind == RECORDING_FAILED && st.writes.error.value.retryable)
            && (s.needsCanvasCrop && !s.videoAttached ==>
                  st.writes.error == Some(RecordingStartError(VideoMissingMessage)))
            && (s.needsCanvasCrop && s.videoAttached && !env.canvasContext ==>
                  st.writes.error == Some(RecordingStartError(NoCanvasMessage)))
            && ((!s.needsCanvasCrop || (s.videoAttached && env.canvasContext)) && env.startFailure.Some? ==>
                  st.writes.error == Some(AppError(RECORDING_FAILED, MessageOr(env.startFailure.value, "Unknown error"),
                                                   StartFailedRecordingMessage, true)))
  {
  }

  /** `stopRecording`: cancel the frame loop; stop the recorder only if it is not inactive. */
  function Stop(s: Screen): Screen
  {
    var s1 := s.(frameScheduled := false);
    if RecorderActive(s1) then s1.(recorder := Some(s1.recorder.value.(state := Inactive)), isRecording := false)
    else s1
  }

  /** Whether the tick from this state is the one that brings the countdown to zero. */
  predicate TickStarts(s: Screen)
  {
    s.mounted && s.isCountingDown && s.countdown == 1
  }

  /** One second of the countdown and recording timers. */
  function Tick(s: Screen, env: RecorderEnv): Step
  {
    if !s.mounted then Step(s, NoWrites)
    else if s.isCountingDown && s.countdown > 0 then
      var s1 := s.(countdown := s.countdown - 1);
      if s1.countdown == 0 then Start(s1.(isCountingDown := false), env) else Step(s1, NoWrites)
    else if s.isRecording && s.remainingTime > 0 then
      var s1 := s.(remainingTime := s.remainingTime - 1);
      if s1.remainingTime == 0 then Step(Stop(s1), NoWrites) else Step(s1, NoWrites)
    else Step(s, NoWrites)
  }

  /** The recorder's `dataavailable` event: only non-empty chunks are kept. */
  function DataAvailable(s: Screen, chunk: Blob): Screen
  {
    if chunk.Size() > 0 then s.(chunks := s.chunks + [chunk]) else s
  }

  /** The bytes of a blob assembled from chunks. */
  function Concat(chunks: seq<Blob>): Bytes
  {
    if chunks == [] then [] else Concat(chunks[..|chunks| - 1]) + chunks[|chunks| - 1].data
  }

  /** The recorder's `stop` event: store a 4000 ms clip of the buffered chunks, go to garment selection. */
  function RecorderStopped(s: Screen): Step
  {
    match s.recorder
    case None => Step(s, NoWrites)
    case Some(r) =>
      var clip := RecordedVideo(Blob(Concat(s.chunks), r.mimeType), ClipDurationMs, r.mimeType);
      Step(s.(navigation := Some(NextRoute)), Writes(None, Some(clip)))
  }

  /** The recorder's `error` event. */
  function RecorderFailed(s: Screen): Step
  {
    Step(s, Writes(Some(AppError(RECORDING_FAILED, "Recording failed", "録画に失敗しました。もう一度お試しください。", true)), None))
  }

  /**
   * One animation frame of the canvas path: without video dimensions it only
   * reschedules; otherwise it draws the centred strip and, from 4000 ms on,
   * stops the recorder and the loop.
   */
  function DrawFrame(s: Screen, iw: nat, ih: nat, elapsedMs: int): Frame
  {
    if !s.frameScheduled || iw == 0 || ih == 0 then Frame(s, None)
    else if elapsedMs >= ClipDurationMs then
      var s1 := if RecorderActive(s) then s.(recorder := Some(s.recorder.value.(state := Inactive))) else s;
      Frame(s1.(isRecording := false, frameScheduled := false), Some(CropSource(iw, ih)))
    else Frame(s, Some(CropSource(iw, ih)))
  }

  /**
   * The canvas loop: a frame with no video size draws nothing and stays
   * scheduled; otherwise it draws the centred strip, and from 4000 ms on it
   * leaves the recorder inactive and the loop cancelled, while before that it
   * keeps the loop and the recorder as they were.
   */
  lemma FrameLoop(s: Screen, iw: nat, ih: nat, elapsedMs: int)
    requires s.frameScheduled
    ensures iw == 0 || ih == 0 ==> DrawFrame(s, iw, ih, elapsedMs) == Frame(s, None)
    ensures iw > 0 && ih > 0 ==> DrawFrame(s, iw, ih, elapsedMs).drawn == Some(CropSource(iw, ih))
    ensures iw > 0 && ih > 0 && elapsedMs >= ClipDurationMs ==>
              var f := DrawFrame(s, iw, ih, elapsedMs).screen;
              !RecorderActive(f) && !f.frameScheduled && !f.isRecording
              && (s.recorder.Some? ==> f.recorder == Some(s.recorder.value.(state := Inactive)))
    ensures iw > 0 && ih > 0 && elapsedMs < ClipDurationMs ==> DrawFrame(s, iw, ih, elapsedMs).screen == s
  {
  }

  /** Teardown: release the tracks, stop an active recorder, cancel the frame loop and the timers. */
  function Unmount(s: Screen): Screen
  {
    var s1 := s.(mounted := false, tracksStopped := s.hasStream, frameScheduled := false);
    if RecorderActive(s1) then s1.(recorder := Some(s1.recorder.value.(state := Inactive))) else s1
  }

  // ------------------------------------------------- properties of the timeline

  /** n ticks in a row. */
  function Ticks(s: Screen, env: RecorderEnv, n: nat): Screen
    decreases n
  {
    if n == 0 then s else Ticks(Tick(s, env).screen, env, n - 1)
  }

  /** How many of n ticks in a row start a recording. */
  function StartsDuring(s: Screen, env: RecorderEnv, n: nat): nat
    decreases n
  {
    if n == 0 then 0 else (if TickStarts(s) then 1 else 0) + StartsDuring(Tick(s, env).screen, env, n - 1)
  }

  /** Reachable screens: countdown and timer within range, counting and recording exclusive. */
  ghost predicate Sane(s: Screen)
  {
    && 0 <= s.countdown <= CountdownStart
    && 0 <= s.remainingTime <= RecordingSeconds
    && (s.isCountingDown ==> s.countdown > 0 && !s.isRecording)
    && (s.countdown == 0 ==> !s.isCountingDown)
  }

  lemma TickKeepsSane(s: Screen, env: RecorderEnv)
    requires Sane(s)
    ensures Sane(Tick(s, env).screen)
  {
  }

  /** Once the countdown has reached zero, no tick starts another recording. */
  lemma {:induction false} NoRestart(s: Screen, env: RecorderEnv, n: nat)
    requires Sane(s) && s.countdown == 0
    ensures StartsDuring(s, env, n) == 0
    ensures Ticks(s, env, n).countdown == 0
    decreases n
  {
    if n > 0 {
      TickKeepsSane(s, env);
      NoRestart(Tick(s, env).screen, env, n - 1);
    }
  }

  /**
   * A mounted screen counting down from c starts exactly one recording, on
   * its c-th tick, however many ticks follow.
   */
  lemma {:induction false} CountdownStartsOnce(s: Screen, env: RecorderEnv, n: nat)
    requires Sane(s) && s.mounted && s.isCountingDown
    ensures StartsDuring(s, env, n) == (if n >= s.countdown then 1 else 0)
    decreases n
  {
    if n > 0 {
      var t := Tick(s, env).screen;
      TickKeepsSane(s, env);
      if s.countdown == 1 {
        assert t.countdown == 0;
        NoRestart(t, env, n - 1);
      } else {
        assert t.mounted && t.isCountingDown && t.countdown == s.countdown - 1;
        CountdownStartsOnce(t, env, n - 1);
      }
    }
  }

  /** The screen once the camera is ready and the settle delay has passed. */
  function Ready(needsCanvasCrop: bool): Screen
  {
    InitialScreen.(hasStream := true, needsCanvasCrop := needsCanvasCrop, videoAttached := needsCanvasCrop,
                   isCountingDown := true)
  }

  /**
   * The whole timeline from a ready camera: three ticks count 3, 2, 1, 0 and
   * start one recording with an empty buffer and the timer at 4; on either
   * path four more ticks stop the recorder and the frame loop. No other tick
   * starts one.
   */
  lemma {:induction false} Timeline(needsCanvasCrop: bool, env: RecorderEnv, n: nat)
    requires (!needsCanvasCrop || env.canvasContext) && env.startFailure.None?
    ensures StartsDuring(Ready(needsCanvasCrop), env, n) == (if n >= 3 then 1 else 0)
    ensures var s := Ticks(Ready(needsCanvasCrop), env, 3);
            && !s.isCountingDown && s.countdown == 0 && s.isRecording && s.remainingTime == RecordingSeconds
            && s.recorder == Some(Recorder(RecorderMime(env), Recording, needsCanvasCrop)) && s.chunks == []
    ensures var s := Ticks(Ready(needsCanvasCrop), env, 7);
            && !s.isRecording && !s.frameScheduled
            && s.recorder == Some(Recorder(RecorderMime(env), Inactive, needsCanvasCrop))
  {
    var s0 := Ready(needsCanvasCrop);
    CountdownStartsOnce(s0, env, n);
    var s1 := Tick(s0, env).screen;
    var s2 := Tick(s1, env).screen;
    var s3 := Tick(s2, env).screen;
    assert Ticks(s3, env, 0) == s3;
    assert Ticks(s2, env, 1) == s3;
    assert Ticks(s1, env, 2) == s3;
    assert Ticks(s0, env, 3) == s3;
    var s4 := Tick(s3, env).screen;
    var s5 := Tick(s4, env).screen;
    var s6 := Tick(s5, env).screen;
    var s7 := Tick(s6, env).screen;
    assert Ticks(s7, env, 0) == s7;
    assert Ticks(s6, env, 1) == s7;
    assert Ticks(s5, env, 2) == s7;
    assert Ticks(s4, env, 3) == s7;
    assert Ticks(s3, env, 4) == s7;
    assert Ticks(s2, env, 5) == s7;
    assert Ticks(s1, env, 6) == s7;
    assert Ticks(s0, env, 7) == s7;
  }

  /** A granted camera on a fresh screen, once the settle delay has passed, is exactly the ready screen. */
  lemma CameraReadyAfterSettle(constrained: CameraAttempt, unconstrained: CameraAttempt, width: nat, height: nat)
    requires constrained.Granted? || unconstrained.Granted?
    ensures Settle(AcquireCamera(InitialScreen, constrained, unconstrained, width, height).screen)
              == Ready(NeedsCanvasCrop(width, height))
    ensures AcquireCamera(InitialScreen, constrained, unconstrained, width, height).writes == NoWrites
  {
  }

  /** Chunk events in a row. */
  function DataEvents(s: Screen, events: seq<Blob>): Screen
  {
    if events == [] then s else DataAvailable(DataEvents(s, events[..|events| - 1]), events[|events| - 1])
  }

  /** The non-empty chunks of a sequence, in order. */
  function NonEmpty(events: seq<Blob>): seq<Blob>
  {
    if events == [] then []
    else NonEmpty(events[..|events| - 1]) + (if events[|events| - 1].Size() > 0 then [events[|events| - 1]] else [])
  }

  /** The buffer holds exactly the non-empty chunks delivered since it was last emptied, in order. */
  lemma {:induction false} BufferCollectsNonEmptyChunks(s: Screen, events: seq<Blob>)
    ensures DataEvents(s, events).chunks == s.chunks + NonEmpty(events)
    ensures DataEvents(s, events).recorder == s.recorder
  {
    if events != [] {
      BufferCollectsNonEmptyChunks(s, events[..|events| - 1]);
    }
  }

  /**
   * Whichever path recorded it, the stored clip lasts 4000 ms, carries the
   * recorder's MIME type, and holds the bytes of the non-empty chunks received
   * after the recording started.
   */
  lemma {:induction false} StoredClip(s: Screen, env: RecorderEnv, events: seq<Blob>)
    requires StartSucceeds(s, env)
    ensures var started := Start(s, env).screen;
            var w := RecorderStopped(DataEvents(started, events)).writes;
            && w.video.Some?
            && w.video.value.duration == ClipDurationMs
            && w.video.value.mimeType == RecorderMime(env)
            && w.video.value.blob == Blob(Concat(NonEmpty(events)), RecorderMime(env))
  {
    var started := Start(s, env).screen;
    assert started.chunks == [];
    BufferCollectsNonEmptyChunks(started, events);
    assert DataEvents(started, events).chunks == NonEmpty(events);
  }

  /**
   * The constrained request falls back to an unconstrained one: a stream from
   * either attempt makes the screen ready without any store write, and only
   * when both are refused is the second refusal classified into the store.
   */
  lemma CameraFallback(s: Screen, constrained: CameraAttempt, unconstrained: CameraAttempt, width: nat, height: nat)
    requires s.mounted && !s.hasStream
    ensures var step := AcquireCamera(s, constrained, unconstrained, width, height);
            (step.screen.hasStream <==> constrained.Granted? || unconstrained.Granted?)
            && (step.screen.hasStream ==>
                  step.writes == NoWrites && step.screen.needsCanvasCrop == NeedsCanvasCrop(width, height)
                  && step.screen.videoAttached == step.screen.needsCanvasCrop)
            && (!step.screen.hasStream ==>
                  step.screen == s && step.writes == Writes(ClassifyCameraError(unconstrained.reason), None))
  {
  }

  /**
   * After teardown the recorder is inactive, the frame loop is cancelled,
   * the tracks of an acquired stream are stopped, and neither a timer tick
   * nor an animation frame changes anything any more.
   */
  lemma TeardownQuiesces(s: Screen, env: RecorderEnv, iw: nat, ih: nat, elapsedMs: int)
    ensures var u := Unmount(s);
            && !RecorderActive(u) && !u.frameScheduled && u.tracksStopped == s.hasStream
            && Tick(u, env) == Step(u, NoWrites)
            && DrawFrame(u, iw, ih, elapsedMs) == Frame(u, None)
            && Unmount(u) == u
  {
  }

  /**
   * A recorder still running at teardown is stopped by it, and its stop event
   * then stores the partial clip and navigates on: teardown does not discard
   * the recording.
   */
  lemma LateStopStoresPartialClip(s: Screen)
    requires RecorderActive(s)
    ensures var stopped := RecorderStopped(Unmount(s));
            var r := s.recorder.value;
            && stopped.writes == Writes(None, Some(RecordedVideo(Blob(Concat(s.chunks), r.mimeType), ClipDurationMs, r.mimeType)))
            && stopped.screen.navigation == Some(NextRoute)
  {
  }

  /** Stopping twice is stopping once. */
  lemma StopIdempotent(s: Screen)
    ensures Stop(Stop(s)) == Stop(s)
    ensures !RecorderActive(Stop(s)) && !Stop(s).frameScheduled
  {
  }

  // --------------------------------------------------- the screen as an object

  /** The screen's state held in place, with each handler proved to follow the transition functions. */
  class RecordingSession {
    const store: AppStore
    const env: RecorderEnv
    var mounted: bool
    var hasStream: bool
    var tracksStopped: bool
    var needsCanvasCrop: bool
    var videoAttached: bool
    var isCountingDown: bool
    var countdown: int
    var isRecording: bool
    var remainingTime: int
    var recorder: Option<Recorder>
    var chunks: seq<Blob>
    var frameScheduled: bool
    var navigation: Option<string>

    function Snapshot(): Screen
      reads this
    {
      Screen(mounted, hasStream, tracksStopped, needsCanvasCrop, videoAttached, isCountingDown, countdown,
             isRecording, remainingTime, recorder, chunks, frameScheduled, navigation)
    }

    constructor (store: AppStore, env: RecorderEnv)
      ensures this.store == store && this.env == env
      ensures Snapshot() == InitialScreen
    {
      this.store := store;
      this.env := env;
      mounted, hasStream, tracksStopped, needsCanvasCrop, videoAttached := true, false, false, false, false;
      isCountingDown, countdown, isRecording, remainingTime := false, CountdownStart, false, RecordingSeconds;
      recorder, chunks, frameScheduled, navigation := None, [], false, None;
    }

    method Write(w: Writes)
      modifies store
      ensures store.State() == ApplyWrites(old(store.State()), w)
    {
      if w.error.Some? {
        store.SetError(w.error);
      }
      if w.video.Some? {
        store.SetRecordedVideo(w.video);
      }
    }

    method RequestCamera(constrained: CameraAttempt, unconstrained: CameraAttempt, width: nat, height: nat)
      modifies this, store
      ensures Snapshot() == AcquireCamera(old(Snapshot()), constrained, unconstrained, width, height).screen
      ensures store.State() ==
                ApplyWrites(old(store.State()), AcquireCamera(old(Snapshot()), constrained, unconstrained, width, height).writes)
    {
      if constrained.Granted? || unconstrained.Granted? {
        if mounted {
          hasStream := true;
          var crop := NeedsCanvasCrop(width, height);
          needsCanvasCrop := crop;
          videoAttached := crop;
        }
      } else {
        Write(Writes(ClassifyCameraError(unconstrained.reason), None));
      }
    }

    method SettleElapsed()
      modifies this
      ensures Snapshot() == Settle(old(Snapshot()))
    {
      if mounted {
        isCountingDown := true;
      }
    }

    method StartRecording()
      modifies this, store
      ensures Snapshot() == Start(old(Snapshot()), env).screen
      ensures store.State() == ApplyWrites(old(store.State()), Start(old(Snapshot()), env).writes)
    {
      if !hasStream {
        return;
      }
      isRecording := true;
      remainingTime := RecordingSeconds;
      var failure := StartFailure(Snapshot(), env);
      if failure.Some? {
        Write(Writes(failure, None));
        return;
      }
      recorder := Some(Recorder(RecorderMime(env), Recording, needsCanvasCrop));
      chunks := [];
      frameScheduled := needsCanvasCrop || frameScheduled;
    }

    method StopRecording()
      modifies this
      ensures Snapshot() == Stop(old(Snapshot()))
    {
      frameScheduled := false;
      if recorder.Some? && recorder.value.state != Inactive {
        recorder := Some(recorder.value.(state := Inactive));
        isRecording := false;
      }
    }

    method TimerTick()
      modifies this, store
      ensures Snapshot() == Tick(old(Snapshot()), env).screen
      ensures store.State() == ApplyWrites(old(store.State()), Tick(old(Snapshot()), env).writes)
    {
      if !mounted {
        return;
      }
      if isCountingDown && countdown > 0 {
        countdown := countdown - 1;
        if countdown == 0 {
          isCountingDown := false;
          StartRecording();
        }
      } else if isRecording && remainingTime > 0 {
        remainingTime := remainingTime - 1;
        if remainingTime == 0 {
          StopRecording();
        }
      }
    }

    method OnDataAvailable(chunk: Blob)
      modifies this
      ensures Snapshot() == DataAvailable(old(Snapshot()), chunk)
    {
      if chunk.Size() > 0 {
        chunks := chunks + [chunk];
      }
    }

    method OnRecorderStop()
      modifies this, store
      ensures Snapshot() == RecorderStopped(old(Snapshot())).screen
      ensures store.State() == ApplyWrites(old(store.State()), RecorderStopped(old(Snapshot())).writes)
    {
      if recorder.Some? {
        var mime := recorder.value.mimeType;
        store.SetRecordedVideo(Some(RecordedVideo(Blob(Concat(chunks), mime), ClipDurationMs, mime)));
        navigation := Some(NextRoute);
      }
    }

    method OnRecorderError()
      modifies store
      ensures store.State() == ApplyWrites(old(store.State()), RecorderFailed(Snapshot()).writes)
    {
      Write(RecorderFailed(Snapshot()).writes);
    }

    method OnAnimationFrame(iw: nat, ih: nat, elapsedMs: int) returns (drawn: Option<CropRect>)
      modifies this
      ensures Snapshot() == DrawFrame(old(Snapshot()), iw, ih, elapsedMs).screen
      ensures drawn == DrawFrame(old(Snapshot()), iw, ih, elapsedMs).drawn
    {
      if !frameScheduled || iw == 0 || ih == 0 {
        return None;
      }
      drawn := Some(CropSource(iw, ih));
      if elapsedMs >= ClipDurationMs {
        if recorder.Some? && recorder.value.state != Inactive {
          recorder := Some(recorder.value.(state := Inactive));
        }
        isRecording := false;
        frameScheduled := false;
      }
    }

    method Teardown()
      modifies this
      ensures Snapshot() == Unmount(old(Snapshot()))
    {
      mounted := false;
      tracksStopped := hasStream;
      if recorder.Some? && recorder.value.state != Inactive {
        recorder := Some(recorder.value.(state := Inactive));
      }
      frameScheduled := false;
    }
  }
}
