/**
 * The garment selection screen: choosing a garment, and the submission that
 * either simulates an upload (the shipped mode) or requests an upload URL,
 * uploads the clip with progress, asks the backend to process it and goes
 * to the result screen, alerting on any failure.
 */
module ClothingSelection {
  import opened Wrappers
  import opened Strings
  import opened JsMath
  import opened AppContext
  import opened Thrown
  import opened ApiClient

  // ---------------------------------------------------------------- catalog

  /** The six garments of the static catalog, in catalog order. */
  const Catalog: seq<ClothingItem> := [
    ClothingItem("red", "Red Evening Gown", "src/assets/red.png",
      Some("Glamorous red floor-length evening gown with a fitted bodice and high side slit."), None),
    ClothingItem("white", "White Formal Dress", "src/assets/white.png",
      Some("Elegant white floor-length formal dress with a straight skirt and slim belt."), None),
    ClothingItem("mini-pink", "Pink Sequin Party Dress", "src/assets/mini-pink.png",
      Some("Shiny light pink sequin mini dress with a fitted silhouette for parties."), None),
    ClothingItem("pink", "Pink Gingham Dress", "src/assets/pink.png",
      Some("Classic pink gingham knee-length dress with a fitted bodice and flared skirt."), None),
    ClothingItem("yellow", "Yellow Summer Dress", "src/assets/yellow.png",
      Some("Light yellow sleeveless summer dress with a flowy mid-calf A-line skirt."), None),
    ClothingItem("blue", "Blue Cocktail Dress", "src/assets/blue.png",
      Some("Bright blue sleeveless cocktail dress with a V-neckline and softly flared skirt."), None)
  ]

  const CatalogIds: set<string> := {"red", "white", "mini-pink", "pink", "yellow", "blue"}

  /** `items.find(item => item.id === id)`: the first item with that id. */
  function FindIn(items: seq<ClothingItem>, id: string): (r: Option<ClothingItem>)
    ensures r.None? <==> forall i :: 0 <= i < |items| ==> items[i].id != id
    ensures r.Some? ==> (r.value.id == id &&
              exists i :: 0 <= i < |items| && items[i] == r.value && forall j :: 0 <= j < i ==> items[j].id != id)
    decreases |items|
  {
    if |items| == 0 then None
    else if items[0].id == id then Some(items[0])
    else
      var r := FindIn(items[1..], id);
      if r.Some? then
        ghost var i :| 0 <= i < |items[1..]| && items[1..][i] == r.value && forall j :: 0 <= j < i ==> items[1..][j].id != id;
        assert items[i + 1] == r.value;
        r
      else r
  }

  function FindClothing(id: string): Option<ClothingItem>
  {
    FindIn(Catalog, id)
  }

  /** Exactly the six catalog ids are found, each as the entry carrying it. */
  lemma CatalogLookup(id: string)
    ensures FindClothing(id).Some? <==> id in CatalogIds
    ensures FindClothing(id).Some? ==> FindClothing(id).value.id == id && FindClothing(id).value in Catalog
  {
    if id in CatalogIds {
      var i := if id == "red" then 0 else if id == "white" then 1 else if id == "mini-pink" then 2
               else if id == "pink" then 3 else if id == "yellow" then 4 else 5;
      assert Catalog[i].id == id;
    } else {
      forall i | 0 <= i < |Catalog|
        ensures Catalog[i].id != id
      {
        assert Catalog[i].id in CatalogIds;
      }
    }
  }

  // ------------------------------------------------------ file name and type

  /** "webm" for a MIME type mentioning webm, "mp4" for everything else. */
  function Extension(mimeType: string): (ext: string)
    ensures ext == "webm" <==> Contains(mimeType, "webm")
    ensures ext == "mp4" <==> !Contains(mimeType, "webm")
  {
    if Contains(mimeType, "webm") then "webm" else "mp4"
  }

  /** `video-<now>.<extension>`, with the clock reading as a parameter. */
  function Filename(now: nat, mimeType: string): (f: string)
    ensures EndsWith(f, "." + Extension(mimeType))
    ensures |f| > 6 && f[..6] == "video-"
  {
    var f := "video-" + NatToString(now) + "." + Extension(mimeType);
    assert f[..6] == "video-";
    assert f[|f| - |"." + Extension(mimeType)|..] == "." + Extension(mimeType);
    f
  }

  /**
   * A MIME type mentioning webm anywhere (the recorder's "video/webm;codecs=vp9"
   * or a plain "video/webm") names a ".webm" upload.
   */
  lemma WebmClipName(now: nat, pre: string, post: string)
    ensures Extension(pre + "webm" + post) == "webm"
    ensures EndsWith(Filename(now, pre + "webm" + post), ".webm")
  {
    ContainsInMiddle(pre, "webm", post);
  }

  // --------------------------------------------------------------- progress

  /**
   * A value handed to `setUploadProgress`: a whole percentage, or the
   * non-finite number `Math.round` returns for a zero-length upload.
   */
  datatype Progress = Percent(value: nat) | NotFinite


  /** `Math.round(20 + loaded / total * 50)` for a positive total. */
  function ScaledPercent(loaded: nat, total: nat): (p: nat)
    requires total > 0
    ensures loaded <= total ==> 20 <= p <= 70
    ensures loaded == 0 ==> p == 20
    ensures loaded == total ==> p == 70
  {
    var x := 20.0 + loaded as real / total as real * 50.0;
    if loaded <= total then
      ShareInUnit(loaded, total);
      RoundWithin(x, 70);
      RoundAtLeast(x, 20);
      Round(x)
    else Round(x)
  }

  /** The progress reported for one computable upload event. */
  function UploadPercent(loaded: nat, total: nat): (p: Progress)
    ensures p.NotFinite? <==> total == 0
    ensures total > 0 && loaded <= total ==> p.Percent? && 20 <= p.value <= 70
  {
    if total == 0 then NotFinite else Percent(ScaledPercent(loaded, total))
  }

  /** More bytes sent never shows less progress. */
  lemma ScaledPercentMonotone(a: nat, b: nat, total: nat)
    requires 0 < total && a <= b
    ensures ScaledPercent(a, total) <= ScaledPercent(b, total)
  {
    var t := total as real;
    assert a as real / t * t == a as real;
    assert b as real / t * t == b as real;
    ScaleCompare(a as real / t, b as real / t, t);
    RoundMonotone(20.0 + a as real / t * 50.0, 20.0 + b as real / t * 50.0);
  }

  /** The values reported during the upload: one per computable event, in order. */
  function UploadProgressLog(events: seq<ProgressEvent>): (log: seq<Progress>)
    ensures |log| <= |events|
    decreases |events|
  {
    if |events| == 0 then []
    else
      var last := events[|events| - 1];
      UploadProgressLog(events[..|events| - 1])
        + (if last.lengthComputable then [UploadPercent(last.loaded, last.total)] else [])
  }

  /** The upload log holds exactly one entry per computable event, in order, each the percentage of that event. */
  lemma {:induction false} UploadProgressLogPerEvent(events: seq<ProgressEvent>)
    ensures |UploadProgressLog(events)| == |Computable(events)|
    ensures forall k :: 0 <= k < |UploadProgressLog(events)| ==>
              UploadProgressLog(events)[k] == UploadPercent(Computable(events)[k].loaded, Computable(events)[k].total)
    decreases |events|
  {
    if |events| > 0 {
      var front, last := events[..|events| - 1], events[|events| - 1];
      assert events == front + [last];
      ComputableSnoc(front, last);
      UploadProgressLogPerEvent(front);
    }
  }

  /**
   * The events a browser sends for a clip of `size` bytes: computable ones
   * carry that total, no more than it is ever sent, and the count only grows.
   */
  ghost predicate WellFormedUpload(events: seq<ProgressEvent>, size: nat)
  {
    && size > 0
    && (forall i :: 0 <= i < |events| ==> events[i].loaded <= size)
    && (forall i :: 0 <= i < |events| && events[i].lengthComputable ==> events[i].total == size)
    && (forall i, j :: 0 <= i < j < |events| ==> events[i].loaded <= events[j].loaded)
  }

  /** Every entry a whole percentage in [lo, hi]. */
  ghost predicate Within(log: seq<Progress>, lo: nat, hi: nat)
  {
    forall k :: 0 <= k < |log| ==> log[k].Percent? && lo <= log[k].value <= hi
  }

  ghost predicate NonDecreasing(log: seq<Progress>)
  {
    forall i, j :: 0 <= i < j < |log| && log[i].Percent? && log[j].Percent? ==> log[i].value <= log[j].value
  }

  /**
   * During a well-formed upload every report lies between 20 and the value
   * of the latest event, and the reports never go back.
   */
  lemma {:induction false} UploadProgressLogBounded(events: seq<ProgressEvent>, size: nat)
    requires WellFormedUpload(events, size) && |events| > 0
    ensures Within(UploadProgressLog(events), 20, ScaledPercent(events[|events| - 1].loaded, size))
    ensures NonDecreasing(UploadProgressLog(events))
    decreases |events|
  {
    var n := |events|;
    var last := events[n - 1];
    var front := events[..n - 1];
    var top := ScaledPercent(last.loaded, size);
    var tail := if last.lengthComputable then [UploadPercent(last.loaded, last.total)] else [];
    assert UploadProgressLog(events) == UploadProgressLog(front) + tail;
    assert Within(tail, 20, top);
    if n > 1 {
      assert WellFormedUpload(front, size);
      UploadProgressLogBounded(front, size);
      ScaledPercentMonotone(front[n - 2].loaded, last.loaded, size);
      WithinWiden(UploadProgressLog(front), 20, ScaledPercent(front[n - 2].loaded, size), top);
      ConcatNonDecreasing(UploadProgressLog(front), tail, top);
    } else {
      assert UploadProgressLog(front) == [];
      assert UploadProgressLog(events) == tail;
    }
  }

  lemma WithinWiden(log: seq<Progress>, lo: nat, hi: nat, hi': nat)
    requires Within(log, lo, hi) && hi <= hi'
    ensures Within(log, lo, hi')
  {
  }

  /** A non-decreasing log below m followed by one non-decreasing log from m is non-decreasing. */
  lemma ConcatNonDecreasing(a: seq<Progress>, b: seq<Progress>, m: nat)
    requires Within(a, 0, m) && NonDecreasing(a) && NonDecreasing(b)
    requires forall k :: 0 <= k < |b| ==> b[k].Percent? && m <= b[k].value
    ensures NonDecreasing(a + b)
  {
    var c := a + b;
    forall i, j | 0 <= i < j < |c| && c[i].Percent? && c[j].Percent?
      ensures c[i].value <= c[j].value
    {
      if j < |a| {
        assert c[i] == a[i] && c[j] == a[j];
      } else if i >= |a| {
        assert c[i] == b[i - |a|] && c[j] == b[j - |a|];
      } else {
        assert c[i] == a[i] && c[j] == b[j - |a|];
      }
    }
  }

  /** The values the shipped simulation steps through: 0, 10, ..., 100. */
  function DummyLog(n: nat): (log: seq<Progress>)
    ensures |log| == n
    ensures forall k :: 0 <= k < n ==> log[k] == Percent(10 * k)
  {
    seq(n, k requires 0 <= k < n => Percent(10 * k))
  }

  // ------------------------------------------------------------- submission

  /** The body of the presigned-upload response, and of the processing response. */
  datatype UploadTicket = UploadTicket(uploadUrl: string, inputKey: string)
  datatype ProcessResult = ProcessResult(jobId: string, outputKey: string, resultUrl: string)

  /** The requests the submission sends, in order. */
  datatype Request =
    | CreateUpload(filename: string, contentType: string)
    | PutVideo(url: string, contentType: string)
    | Process(inputKey: string, garmentId: string)

  /** The route state handed to the result screen. */
  datatype ResultNav = ResultNav(videoUrl: string, jobId: Option<string>, outputKey: Option<string>)

  /**
   * What the outside world answers during one submission: the clock, the
   * object URL of the recorded blob, and the outcome of each request.
   */
  datatype SubmitEnv = SubmitEnv(
    now: nat,
    objectUrl: string,
    presign: FetchOutcome<UploadTicket>,
    events: seq<ProgressEvent>,
    upload: XhrOutcome,
    process: FetchOutcome<ProcessResult>)

  /** The screen's own state and what it has done. */
  datatype Screen = Screen(
    selectedId: Option<string>,
    uploadProgress: Progress,
    isUploading: bool,
    progressLog: seq<Progress>,
    requests: seq<Request>,
    navigation: Option<ResultNav>,
    alerts: seq<string>)

  const InitialScreen := Screen(None, Percent(0), false, [], [], None, [])
  const FailureAlert := "Failed to process video. Please try again."

  /** The parsed body of a response that is ok and parses; anything else throws. */
  function Accepted<T>(outcome: FetchOutcome<T>): (r: Option<T>)
    ensures r.Some? <==> outcome.Responded? && IsOkStatus(outcome.status) && outcome.body.Success?
    ensures r.Some? ==> r.value == outcome.body.value
  {
    if outcome.Responded? && IsOkStatus(outcome.status) && outcome.body.Success? then Some(outcome.body.value)
    else None
  }

  /** The XHR settles successfully only on status 200. */
  predicate UploadSucceeded(outcome: XhrOutcome)
  {
    outcome == Loaded(200)
  }

  /**
   * The screen's own upload accepts only status 200, where the client's
   * upload accepts any 2xx: a 204 is a success for one and a failure for
   * the other.
   */
  lemma UploadStricterThanClient(outcome: XhrOutcome)
    ensures UploadSucceeded(outcome) ==> UploadToS3(outcome).Success?
    ensures !UploadSucceeded(Loaded(204)) && UploadToS3(Loaded(204)).Success?
  {
  }

  /** The garment a submission starts with, when its guards let it start. */
  function StartGuard(selectedId: Option<string>, recorded: Option<RecordedVideo>): (item: Option<ClothingItem>)
    ensures item.Some? <==> Truthy(selectedId) && recorded.Some? && FindClothing(selectedId.value).Some?
    ensures item.Some? ==> item.value.id == selectedId.value && item.value in Catalog
  {
    if Truthy(selectedId) && recorded.Some? then
      var r := FindClothing(selectedId.value);
      if r.Some? then
        ghost var i :| 0 <= i < |Catalog| && Catalog[i] == r.value && forall j :: 0 <= j < i ==> Catalog[j].id != selectedId.value;
        r
      else r
    else None
  }

  /** The progress values, requests and navigation of the real-API path. */
  datatype RealRun = RealRun(progress: seq<Progress>, requests: seq<Request>, nav: Option<ResultNav>)

  function RealPath(garmentId: string, mimeType: string, env: SubmitEnv): (run: RealRun)
    ensures |run.progress| > 0 && run.progress[0] == Percent(10)
    ensures 1 <= |run.requests| <= 3 && run.requests[0] == CreateUpload(Filename(env.now, mimeType), mimeType)
    ensures |run.requests| >= 2 <==> Accepted(env.presign).Some?
    ensures |run.requests| >= 2 ==>
              run.requests[1] == PutVideo(Accepted(env.presign).value.uploadUrl, mimeType)
    ensures |run.requests| == 3 ==>
              UploadSucceeded(env.upload) &&
              run.requests[2] == Process(Accepted(env.presign).value.inputKey, garmentId)
    ensures run.nav.Some? <==>
              Accepted(env.presign).Some? && UploadSucceeded(env.upload) && Accepted(env.process).Some?
    ensures run.nav.Some? ==>
              var result := Accepted(env.process).value;
              run.nav.value == ResultNav(result.resultUrl, Some(result.jobId), Some(result.outputKey))
  {
    var create := CreateUpload(Filename(env.now, mimeType), mimeType);
    match Accepted(env.presign)
    case None => RealRun([Percent(10)], [create], None)
    case Some(ticket) =>
      var rest := AfterTicket(garmentId, mimeType, ticket, env);
      RealRun([Percent(10)] + rest.progress, [create] + rest.requests, rest.nav)
  }

  /** The real path once the upload ticket is in hand. */
  function AfterTicket(garmentId: string, mimeType: string, ticket: UploadTicket, env: SubmitEnv): (rest: RealRun)
    ensures |rest.progress| > 0 && rest.progress[0] == Percent(20)
    ensures 1 <= |rest.requests| <= 2 && rest.requests[0] == PutVideo(ticket.uploadUrl, mimeType)
    ensures |rest.requests| == 2 <==> UploadSucceeded(env.upload)
    ensures |rest.requests| == 2 ==> rest.requests[1] == Process(ticket.inputKey, garmentId)
    ensures rest.nav.Some? <==> UploadSucceeded(env.upload) && Accepted(env.process).Some?
    ensures rest.nav.Some? ==>
              var result := Accepted(env.process).value;
              rest.nav.value == ResultNav(result.resultUrl, Some(result.jobId), Some(result.outputKey))
  {
    var put := PutVideo(ticket.uploadUrl, mimeType);
    var during := [Percent(20)] + UploadProgressLog(env.events);
    if !UploadSucceeded(env.upload) then RealRun(during, [put], None)
    else
      var process := Process(ticket.inputKey, garmentId);
      match Accepted(env.process)
      case None => RealRun(during + [Percent(70)], [put, process], None)
      case Some(result) =>
        RealRun(during + [Percent(70), Percent(100)], [put, process],
                Some(ResultNav(result.resultUrl, Some(result.jobId), Some(result.outputKey))))
  }

  /**
   * The reports after the ticket: 20 and the upload's own reports; then,
   * exactly after a 200 upload, 70 before the processing request; then 100
   * exactly when the result screen is reached.
   */
  lemma AfterTicketReports(garmentId: string, mimeType: string, ticket: UploadTicket, env: SubmitEnv)
    ensures var rest := AfterTicket(garmentId, mimeType, ticket, env);
            var n := 1 + |UploadProgressLog(env.events)|;
            && n <= |rest.progress|
            && rest.progress[..n] == [Percent(20)] + UploadProgressLog(env.events)
            && (|rest.progress| > n <==> UploadSucceeded(env.upload))
            && (UploadSucceeded(env.upload) ==> rest.progress[n] == Percent(70))
            && (|rest.progress| == n + 2 <==> rest.nav.Some?)
            && (rest.nav.Some? ==> rest.progress[n + 1] == Percent(100))
            && |rest.progress| <= n + 2
  {
    var during := [Percent(20)] + UploadProgressLog(env.events);
    var rest := AfterTicket(garmentId, mimeType, ticket, env);
    if UploadSucceeded(env.upload) {
      assert rest.progress[..|during|] == during;
    } else {
      assert rest.progress == during;
      assert rest.progress[..|during|] == during;
    }
  }

  /** The screen after the simulated upload: 0 to 100 reported, then the result screen. */
  function AfterDummy(s: Screen, objectUrl: string): Screen
  {
    s.(uploadProgress := Percent(100), isUploading := false,
       progressLog := s.progressLog + DummyLog(11),
       navigation := Some(ResultNav(objectUrl, None, None)))
  }

  /** The screen after the real path: its progress and requests, then navigation or an alert. */
  function AfterReal(s: Screen, run: RealRun): Screen
    requires |run.progress| > 0
  {
    s.(uploadProgress := run.progress[|run.progress| - 1], isUploading := false,
       progressLog := s.progressLog + run.progress,
       requests := s.requests + run.requests,
       navigation := if run.nav.Some? then run.nav else s.navigation,
       alerts := if run.nav.None? then s.alerts + [FailureAlert] else s.alerts)
  }

  /** Running a first report and request, then the rest of a run, is running the whole run. */
  lemma AfterRealPrefix(s: Screen, first: Progress, req: Request, run: RealRun)
    requires |run.progress| > 0
    ensures AfterReal(s.(uploadProgress := first, progressLog := s.progressLog + [first], requests := s.requests + [req]), run)
            == AfterReal(s, RealRun([first] + run.progress, [req] + run.requests, run.nav))
  {
    assert (s.progressLog + [first]) + run.progress == s.progressLog + ([first] + run.progress);
    assert (s.requests + [req]) + run.requests == s.requests + ([req] + run.requests);
  }

  /** The screen and store after `handleStart`. */
  datatype Effect = Effect(screen: Screen, app: AppState)

  function Submit(s: Screen, app: AppState, useRealApi: bool, env: SubmitEnv): Effect
  {
    match StartGuard(s.selectedId, app.recordedVideo)
    case None => Effect(s, app)
    case Some(item) =>
      var app' := app.(selectedClothing := Some(item), isProcessing := false);
      if !useRealApi then Effect(AfterDummy(s, env.objectUrl), app')
      else Effect(AfterReal(s, RealPath(s.selectedId.value, app.recordedVideo.value.mimeType, env)), app')
  }

  // ------------------------------------------------------------- properties

  /**
   * Nothing happens unless a garment id is selected, a clip is recorded and
   * the id is in the catalog; otherwise the chosen garment is stored and both
   * busy flags end cleared, whichever way the submission ends.
   */
  lemma SubmitGuardsAndCleanup(s: Screen, app: AppState, useRealApi: bool, env: SubmitEnv)
    ensures var e := Submit(s, app, useRealApi, env);
            var started := Truthy(s.selectedId) && app.recordedVideo.Some? && FindClothing(s.selectedId.value).Some?;
            (!started ==> e == Effect(s, app))
            && (started ==> !e.screen.isUploading && !e.app.isProcessing
                            && e.app.selectedClothing == FindClothing(s.selectedId.value)
                            && e.app == app.(selectedClothing := e.app.selectedClothing, isProcessing := false))
            && (started ==>
                  (e.screen.alerts == s.alerts + [FailureAlert] && e.screen.navigation == s.navigation) ||
                  (e.screen.alerts == s.alerts && e.screen.navigation.Some?))
  {
    var started := Truthy(s.selectedId) && app.recordedVideo.Some? && FindClothing(s.selectedId.value).Some?;
    if started {
      var item := StartGuard(s.selectedId, app.recordedVideo);
      assert item == FindClothing(s.selectedId.value) by {
        var r := FindClothing(s.selectedId.value);
        assert FindIn(Catalog, s.selectedId.value) == r;
      }
    }
  }

  /**
   * The shipped simulation reports 0, 10, ..., 100 in order, ends at 100 and
   * lands on the result screen with the recorded clip's object URL.
   */
  lemma DummySubmission(s: Screen, app: AppState, env: SubmitEnv)
    requires StartGuard(s.selectedId, app.recordedVideo).Some?
    ensures var e := Submit(s, app, false, env);
            e.screen.progressLog[|s.progressLog|..] == DummyLog(11)
            && Within(DummyLog(11), 0, 100) && NonDecreasing(DummyLog(11))
            && e.screen.uploadProgress == Percent(100)
            && e.screen.navigation == Some(ResultNav(env.objectUrl, None, None))
            && e.screen.alerts == s.alerts && e.screen.requests == s.requests
  {
    var e := Submit(s, app, false, env);
    assert e.screen.progressLog[|s.progressLog|..] == DummyLog(11);
  }

  /** While the upload runs: 20, then the upload's reports, all within [20, 70] and never going back. */
  lemma DuringUploadProgress(events: seq<ProgressEvent>, size: nat)
    requires WellFormedUpload(events, size)
    ensures Within([Percent(20)] + UploadProgressLog(events), 20, 70)
    ensures NonDecreasing([Percent(20)] + UploadProgressLog(events))
  {
    var up := UploadProgressLog(events);
    if |events| > 0 {
      UploadProgressLogBounded(events, size);
      WithinWiden(up, 20, ScaledPercent(events[|events| - 1].loaded, size), 70);
    } else {
      assert up == [];
    }
    ConcatNonDecreasing([Percent(20)], up, 20);
  }

  /** After the ticket: 20, the upload's reports, then 70 and 100, never going back. */
  lemma AfterTicketProgress(garmentId: string, mimeType: string, ticket: UploadTicket, env: SubmitEnv, size: nat)
    requires WellFormedUpload(env.events, size)
    ensures var rest := AfterTicket(garmentId, mimeType, ticket, env);
            Within(rest.progress, 20, 100) && NonDecreasing(rest.progress)
            && (rest.nav.Some? ==> rest.progress[|rest.progress| - 1] == Percent(100))
  {
    var during := [Percent(20)] + UploadProgressLog(env.events);
    DuringUploadProgress(env.events, size);
    WithinWiden(during, 20, 70, 100);
    if UploadSucceeded(env.upload) {
      ConcatNonDecreasing(during, [Percent(70)], 70);
      ConcatNonDecreasing(during, [Percent(70), Percent(100)], 70);
    }
  }

  /**
   * On the real path with a well-formed upload the progress goes 10, 20,
   * the upload's reports within [20, 70], then 70 and 100, and never goes
   * back; a submission that reaches the result screen ends at 100.
   */
  lemma RealProgressMonotone(garmentId: string, mimeType: string, env: SubmitEnv, size: nat)
    requires WellFormedUpload(env.events, size)
    ensures var run := RealPath(garmentId, mimeType, env);
            Within(run.progress, 10, 100) && NonDecreasing(run.progress)
            && (run.nav.Some? ==> run.progress[|run.progress| - 1] == Percent(100))
  {
    var ticket := Accepted(env.presign);
    if ticket.Some? {
      var rest := AfterTicket(garmentId, mimeType, ticket.value, env);
      AfterTicketProgress(garmentId, mimeType, ticket.value, env, size);
      WithinWiden(rest.progress, 20, 100, 100);
      ConcatNonDecreasing([Percent(10)], rest.progress, 10);
      assert RealPath(garmentId, mimeType, env).progress == [Percent(10)] + rest.progress;
    }
  }

  // --------------------------------------------------------------- the screen

  class SelectionScreen {
    const store: AppStore
    var selectedId: Option<string>
    var uploadProgress: Progress
    var isUploading: bool
    var progressLog: seq<Progress>
    var requests: seq<Request>
    var navigation: Option<ResultNav>
    var alerts: seq<string>

    function Snapshot(): Screen
      reads this
    {
      Screen(selectedId, uploadProgress, isUploading, progressLog, requests, navigation, alerts)
    }

    constructor (store: AppStore)
      ensures this.store == store && Snapshot() == InitialScreen
    {
      this.store := store;
      selectedId, uploadProgress, isUploading := None, Percent(0), false;
      progressLog, requests, navigation, alerts := [], [], None, [];
    }

    /** Picking a garment only records its id. */
    method HandleSelect(id: string)
      modifies this
      ensures Snapshot() == old(Snapshot()).(selectedId := Some(id))
    {
      selectedId := Some(id);
    }

    method SetUploadProgress(p: Progress)
      modifies this
      ensures Snapshot() == old(Snapshot()).(uploadProgress := p, progressLog := old(progressLog) + [p])
    {
      uploadProgress := p;
      progressLog := progressLog + [p];
    }

    /** The catch clause: both busy flags cleared, then the alert. */
    method Abort()
      modifies this, store
      ensures Snapshot() == old(Snapshot()).(isUploading := false, alerts := old(alerts) + [FailureAlert])
      ensures store.State() == old(store.State()).(isProcessing := false)
    {
      isUploading := false;
      store.SetIsProcessing(false);
      alerts := alerts + [FailureAlert];
    }

    /** The simulated upload: progress 0, 10, ..., 100, one step per timeout. */
    method SimulateUpload()
      modifies this
      ensures Snapshot() == old(Snapshot()).(uploadProgress := Percent(100),
                                             progressLog := old(progressLog) + DummyLog(11))
    {
      var i := 0;
      while i <= 100
        invariant 0 <= i <= 110 && i % 10 == 0
        invariant progressLog == old(progressLog) + DummyLog(i / 10)
        invariant i > 0 ==> uploadProgress == Percent(i - 10)
        invariant Snapshot() == old(Snapshot()).(uploadProgress := uploadProgress, progressLog := progressLog)
      {
        SetUploadProgress(Percent(i));
        assert DummyLog(i / 10) + [Percent(i)] == DummyLog((i + 10) / 10);
        i := i + 10;
      }
    }

    /** The XHR's progress handler over the events of one upload. */
    method ReportUploadProgress(events: seq<ProgressEvent>)
      modifies this
      ensures var log := UploadProgressLog(events);
              Snapshot() == old(Snapshot()).(
                uploadProgress := if |log| == 0 then old(uploadProgress) else log[|log| - 1],
                progressLog := old(progressLog) + log)
    {
      var j := 0;
      while j < |events|
        invariant 0 <= j <= |events|
        invariant progressLog == old(progressLog) + UploadProgressLog(events[..j])
        invariant uploadProgress == (if |UploadProgressLog(events[..j])| == 0 then old(uploadProgress)
                                     else progressLog[|progressLog| - 1])
        invariant Snapshot() == old(Snapshot()).(uploadProgress := uploadProgress, progressLog := progressLog)
      {
        var e := events[j];
        assert events[..j + 1][..j] == events[..j];
        if e.lengthComputable {
          SetUploadProgress(UploadPercent(e.loaded, e.total));
        }
        j := j + 1;
      }
      assert events[..j] == events;
    }

    /** The real-API path: presigned URL, then the upload and the processing request. */
    method SubmitToBackend(garmentId: string, mimeType: string, env: SubmitEnv)
      modifies this, store
      ensures Snapshot() == AfterReal(old(Snapshot()), RealPath(garmentId, mimeType, env))
      ensures store.State() == old(store.State()).(isProcessing := false)
    {
      var create := CreateUpload(Filename(env.now, mimeType), mimeType);
      SetUploadProgress(Percent(10));
      requests := requests + [create];
      var ticket := Accepted(env.presign);
      if ticket.None? {
        Abort();
        return;
      }
      ghost var rest := AfterTicket(garmentId, mimeType, ticket.value, env);
      assert RealPath(garmentId, mimeType, env) == RealRun([Percent(10)] + rest.progress, [create] + rest.requests, rest.nav);
      assert Snapshot() == old(Snapshot()).(uploadProgress := Percent(10), progressLog := old(progressLog) + [Percent(10)],
                                            requests := old(requests) + [create]);
      AfterRealPrefix(old(Snapshot()), Percent(10), create, rest);
      UploadAndProcess(garmentId, mimeType, ticket.value, env);
    }

    /** The PUT of the clip: 20%, the request, then the progress of each event. */
    method Upload(put: Request, events: seq<ProgressEvent>)
      modifies this
      ensures var during := [Percent(20)] + UploadProgressLog(events);
              Snapshot() == old(Snapshot()).(uploadProgress := during[|during| - 1],
                                             progressLog := old(progressLog) + during,
                                             requests := old(requests) + [put])
    {
      SetUploadProgress(Percent(20));
      requests := requests + [put];
      ReportUploadProgress(events);
      ghost var log := UploadProgressLog(events);
      assert old(progressLog) + [Percent(20)] + log == old(progressLog) + ([Percent(20)] + log);
    }

    /** The upload with its progress, the processing request and the result screen. */
    method UploadAndProcess(garmentId: string, mimeType: string, ticket: UploadTicket, env: SubmitEnv)
      modifies this, store
      ensures Snapshot() == AfterReal(old(Snapshot()), AfterTicket(garmentId, mimeType, ticket, env))
      ensures store.State() == old(store.State()).(isProcessing := false)
    {
      ghost var rest := AfterTicket(garmentId, mimeType, ticket, env);
      var put := PutVideo(ticket.uploadUrl, mimeType);
      ghost var during := [Percent(20)] + UploadProgressLog(env.events);
      Upload(put, env.events);
      if !UploadSucceeded(env.upload) {
        assert rest == RealRun(during, [put], None);
        Abort();
        return;
      }
      var process := Process(ticket.inputKey, garmentId);
      SetUploadProgress(Percent(70));
      requests := requests + [process];
      var result := Accepted(env.process);
      if result.None? {
        assert rest == RealRun(during + [Percent(70)], [put, process], None);
        assert progressLog == old(progressLog) + (during + [Percent(70)]);
        Abort();
        return;
      }
      assert rest == RealRun(during + [Percent(70), Percent(100)], [put, process],
                             Some(ResultNav(result.value.resultUrl, Some(result.value.jobId), Some(result.value.outputKey))));
      SetUploadProgress(Percent(100));
      isUploading := false;
      store.SetIsProcessing(false);
      navigation := Some(ResultNav(result.value.resultUrl, Some(result.value.jobId), Some(result.value.outputKey)));
    }

    /** The simulated path after the flags are set: the dummy progress, then the result screen. */
    method RunSimulation(objectUrl: string)
      modifies this, store
      ensures Snapshot() == AfterDummy(old(Snapshot()), objectUrl)
      ensures store.State() == old(store.State()).(isProcessing := false)
    {
      SimulateUpload();
      isUploading := false;
      store.SetIsProcessing(false);
      navigation := Some(ResultNav(objectUrl, None, None));
    }

    /** `handleStart`, in the simulated mode or against the backend. */
    method HandleStart(useRealApi: bool, env: SubmitEnv)
      modifies this, store
      ensures Snapshot() == Submit(old(Snapshot()), old(store.State()), useRealApi, env).screen
      ensures store.State() == Submit(old(Snapshot()), old(store.State()), useRealApi, env).app
    {
      var item := StartGuard(selectedId, store.recordedVideo);
      if item.None? {
        return;
      }
      var mimeType := store.recordedVideo.value.mimeType;
      store.SetSelectedClothing(item);
      store.SetIsProcessing(true);
      isUploading := true;
      if !useRealApi {
        RunSimulation(env.objectUrl);
      } else {
        SubmitToBackend(selectedId.value, mimeType, env);
      }
    }
  }
}
