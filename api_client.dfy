/**
 * The REST client of the generation service: error translation, the status
 * rules of fetch and of the binary upload, header merging, upload progress
 * and the endpoint URLs. The transport itself is replaced by its outcome.
 */
module ApiClient {
  import opened Wrappers
  import opened Strings
  import opened AppContext
  import opened Thrown
  import opened JsMath

  // ---------------------------------------------------------------- endpoints

  const DefaultBaseUrl := "/api"

  /** `VITE_API_BASE_URL || "/api"`: an unset or empty setting falls back to the default. */
  function BaseUrl(configured: Option<string>): (b: string)
    ensures configured.Some? && configured.value != "" ==> b == configured.value
    ensures configured.None? || configured.value == "" ==> b == DefaultBaseUrl
  {
    if configured.Some? && configured.value != "" then configured.value else DefaultBaseUrl
  }

  const PresignedPath := "/upload/presigned-url"
  const GeneratePath := "/generate"
  const StatusPath := "/generate/status/"

  function PresignedUrlEndpoint(base: string): string { base + PresignedPath }
  function GenerateEndpoint(base: string): string { base + GeneratePath }
  function StatusEndpoint(base: string, jobId: string): string { base + StatusPath + jobId }

  /** Recovers the job id from a status URL built on a known base. */
  function JobIdOfStatusUrl(base: string, url: string): (r: Option<string>)
    ensures r.Some? ==> url == base + StatusPath + r.value
  {
    var prefix := base + StatusPath;
    if |prefix| <= |url| && url[..|prefix|] == prefix then Some(url[|prefix|..]) else None
  }

  /**
   * The three endpoints share the base; the status URL determines its job id,
   * so different jobs are polled at different URLs.
   */
  lemma EndpointsRoundTrip(base: string, jobId: string, other: string)
    ensures PresignedUrlEndpoint(base)[..|base|] == base
    ensures GenerateEndpoint(base)[..|base|] == base
    ensures JobIdOfStatusUrl(base, StatusEndpoint(base, jobId)) == Some(jobId)
    ensures StatusEndpoint(base, jobId) == StatusEndpoint(base, other) ==> jobId == other
  {
    var prefix := base + StatusPath;
    assert StatusEndpoint(base, jobId) == prefix + jobId;
    assert (prefix + jobId)[..|prefix|] == prefix;
    assert (prefix + jobId)[|prefix|..] == jobId;
    if StatusEndpoint(base, jobId) == StatusEndpoint(base, other) {
      assert (prefix + other)[|prefix|..] == other;
    }
  }

  // ------------------------------------------------------------ createAppError

  const NetworkUserMessage := "ネットワークエラーが発生しました。もう一度お試しください。"
  const PresignedFailureMessage := "アップロードURLの取得に失敗しました。"
  const UploadFailureMessage := "ファイルのアップロードに失敗しました。"
  const GenerationFailureMessage := "動画生成の開始に失敗しました。"
  const StatusFailureMessage := "生成状況の確認に失敗しました。"

  /** Translates anything caught into a retryable NETWORK_ERROR record. */
  function CreateAppError(error: Thrown, defaultMessage: string): (e: AppError)
    ensures e.kind == NETWORK_ERROR && e.retryable
    ensures error.ApiError? ==> e.message == error.apiMessage && e.userMessage == NetworkUserMessage
    ensures !error.ApiError? ==> e.userMessage == defaultMessage
    ensures error.JsError? ==> e.message == error.message
    ensures !IsErrorInstance(error) ==> e.message == defaultMessage
  {
    if error.ApiError? then
      AppError(NETWORK_ERROR, error.apiMessage, NetworkUserMessage, true)
    else
      AppError(NETWORK_ERROR, MessageOr(error, defaultMessage), defaultMessage, true)
  }

  // ---------------------------------------------------------------- headers

  /** Caller headers spread over the JSON default: the caller wins on a clash. */
  function MergeHeaders(callerHeaders: map<string, string>): (h: map<string, string>)
    ensures h.Keys == callerHeaders.Keys + {"Content-Type"}
    ensures "Content-Type" !in callerHeaders ==> h["Content-Type"] == "application/json"
    ensures forall k :: k in callerHeaders ==> h[k] == callerHeaders[k]
  {
    map["Content-Type" := "application/json"] + callerHeaders
  }

  // ---------------------------------------------------- fetchWithErrorHandling

  /** What one `fetch` call produced: a response (with its parsed body) or a rejection. */
  datatype FetchOutcome<T> =
    | Responded(status: int, statusText: string, body: Result<T, Thrown>)
    | Rejected(reason: Thrown)

  /** `Response.ok`: a status in the 200-299 range. */
  predicate IsOkStatus(status: int)
  {
    200 <= status < 300
  }

  function HttpErrorText(status: int, statusText: string): string
  {
    "HTTP " + IntToString(status) + ": " + statusText
  }

  /** The catch clause: an ApiError passes through, anything else is wrapped without a status. */
  function RewrapFailure(error: Thrown): (t: Thrown)
    ensures t.ApiError?
    ensures error.ApiError? ==> t == error
    ensures !error.ApiError? ==> t == ApiError(MessageOr(error, "Network request failed"), None)
  {
    if error.ApiError? then error else ApiError(MessageOr(error, "Network request failed"), None)
  }

  /** The parsed body of an ok response, or an ApiError. */
  function FetchWithErrorHandling<T>(outcome: FetchOutcome<T>): (r: Result<T, Thrown>)
    ensures r.Failure? ==> r.error.ApiError?
    ensures outcome.Responded? && outcome.body.Success? ==>
              (r.Success? <==> IsOkStatus(outcome.status))
    ensures r.Success? ==> outcome.Responded? && IsOkStatus(outcome.status)
                           && outcome.body == Success(r.value)
    ensures outcome.Responded? && !IsOkStatus(outcome.status) ==>
              r == Failure(ApiError(HttpErrorText(outcome.status, outcome.statusText), Some(outcome.status)))
    ensures outcome.Rejected? && !outcome.reason.ApiError? ==> r.Failure? && r.error.statusCode.None?
  {
    match outcome
    case Rejected(reason) => Failure(RewrapFailure(reason))
    case Responded(status, statusText, body) =>
      if !IsOkStatus(status) then
        Failure(ApiError(HttpErrorText(status, statusText), Some(status)))
      else
        match body
        case Success(v) => Success(v)
        case Failure(e) => Failure(RewrapFailure(e))
  }

  // ------------------------------------------------ the three JSON endpoints

  datatype PresignedUrlResponse = PresignedUrlResponse(uploadUrl: string, videoKey: string, expiresIn: int)
  datatype GenerationResponse = GenerationResponse(jobId: string)
  datatype GenerationStatus = Processing | Completed | Failed
  datatype StatusResponse = StatusResponse(status: GenerationStatus, videoUrl: Option<string>, error: Option<string>)

  /** The try/catch of each JSON call: any failure is rethrown as a createAppError record. */
  function Translated<T>(r: Result<T, Thrown>, defaultMessage: string): (t: Result<T, Thrown>)
    ensures r.Success? ==> t == r
    ensures r.Failure? ==> t == Failure(AppErrorValue(CreateAppError(r.error, defaultMessage)))
  {
    match r
    case Success(v) => Success(v)
    case Failure(e) => Failure(AppErrorValue(CreateAppError(e, defaultMessage)))
  }

  function GetPresignedUrl(outcome: FetchOutcome<PresignedUrlResponse>): Result<PresignedUrlResponse, Thrown>
  {
    Translated(FetchWithErrorHandling(outcome), PresignedFailureMessage)
  }

  function StartGeneration(outcome: FetchOutcome<GenerationResponse>): Result<GenerationResponse, Thrown>
  {
    Translated(FetchWithErrorHandling(outcome), GenerationFailureMessage)
  }

  function CheckGenerationStatus(outcome: FetchOutcome<StatusResponse>): Result<StatusResponse, Thrown>
  {
    Translated(FetchWithErrorHandling(outcome), StatusFailureMessage)
  }

  /**
   * Every failure of a JSON call reaches the caller as a plain retryable
   * NETWORK_ERROR record (not an Error instance); an HTTP failure keeps the
   * "HTTP <status>: <text>" line as its technical message.
   */
  lemma {:induction false} JsonCallFailures(outcome: FetchOutcome<StatusResponse>)
    ensures var r := CheckGenerationStatus(outcome);
            r.Failure? ==> r.error.AppErrorValue? && !IsErrorInstance(r.error)
                           && r.error.appError.kind == NETWORK_ERROR && r.error.appError.retryable
    ensures outcome.Responded? && !IsOkStatus(outcome.status) ==>
              CheckGenerationStatus(outcome) == Failure(AppErrorValue(AppError(NETWORK_ERROR,
                HttpErrorText(outcome.status, outcome.statusText), NetworkUserMessage, true)))
    ensures outcome.Rejected? && outcome.reason.JsError? ==>
              CheckGenerationStatus(outcome) == Failure(AppErrorValue(AppError(NETWORK_ERROR,
                outcome.reason.message, NetworkUserMessage, true)))
  {
    var f := FetchWithErrorHandling(outcome);
    if f.Failure? {
      assert f.error.ApiError?;
    }
  }

  // --------------------------------------------------------------- uploadToS3

  /** One upload progress event of the request. */
  datatype ProgressEvent = ProgressEvent(lengthComputable: bool, loaded: nat, total: nat)

  /** How the request ended: a `load` event with a status, or an `error` event. */
  datatype XhrOutcome = Loaded(status: int) | NetworkFailure

  /**
   * `loaded / total * 100`; None stands for the non-finite number the
   * division yields when total is 0.
   */
  function ProgressPercent(loaded: nat, total: nat): (p: Option<real>)
    ensures p.None? <==> total == 0
    ensures p.Some? && loaded <= total ==> 0.0 <= p.value <= 100.0
    ensures p.Some? && loaded == total ==> p.value == 100.0
    ensures p.Some? ==> p.value * total as real == loaded as real * 100.0
  {
    if total == 0 then None
    else
      assert loaded <= total ==> 0.0 <= loaded as real / total as real <= 1.0 by {
        if loaded <= total { ShareInUnit(loaded, total); }
      }
      var share := loaded as real / total as real;
      assert share * 100.0 * total as real == loaded as real * 100.0 by {
        assert share * total as real == loaded as real;
      }
      Some(share * 100.0)
  }

  /** The events the progress handler acts on: the length-computable ones, in order. */
  function Computable(events: seq<ProgressEvent>): (c: seq<ProgressEvent>)
    ensures |c| <= |events|
    ensures forall k :: 0 <= k < |c| ==> c[k].lengthComputable && c[k] in events
    ensures (forall i :: 0 <= i < |events| ==> events[i].lengthComputable) ==> c == events
  {
    if events == [] then []
    else (if events[0].lengthComputable then [events[0]] else []) + Computable(events[1..])
  }

  /** Filtering an event sequence extended by one event extends the filtered sequence by that event if it is computable. */
  lemma {:induction false} ComputableSnoc(events: seq<ProgressEvent>, e: ProgressEvent)
    ensures Computable(events + [e]) == Computable(events) + (if e.lengthComputable then [e] else [])
    decreases |events|
  {
    if events == [] {
      assert events + [e] == [e];
      assert Computable([e][1..]) == [];
    } else {
      assert (events + [e])[1..] == events[1..] + [e];
      ComputableSnoc(events[1..], e);
    }
  }

  /**
   * The values handed to the progress callback: with a callback, one per
   * computable event, in order, each `loaded / total * 100` of its event;
   * without one, none.
   */
  function ProgressReports(events: seq<ProgressEvent>, hasCallback: bool): (reports: seq<Option<real>>)
    ensures |reports| <= |events|
    ensures !hasCallback ==> reports == []
    ensures hasCallback ==> |reports| == |Computable(events)|
    ensures hasCallback ==> forall k :: 0 <= k < |reports| ==>
              reports[k] == ProgressPercent(Computable(events)[k].loaded, Computable(events)[k].total)
    ensures hasCallback && (forall i :: 0 <= i < |events| ==> events[i].lengthComputable) ==>
              |reports| == |events|
              && forall i :: 0 <= i < |events| ==> reports[i] == ProgressPercent(events[i].loaded, events[i].total)
  {
    if !hasCallback || events == [] then []
    else
      var rest := ProgressReports(events[1..], hasCallback);
      if events[0].lengthComputable then
        assert Computable(events) == [events[0]] + Computable(events[1..]);
        [ProgressPercent(events[0].loaded, events[0].total)] + rest
      else
        assert Computable(events) == Computable(events[1..]);
        rest
  }

  /** The promise's settlement: resolved, or rejected with the raw ApiError. */
  function UploadToS3(outcome: XhrOutcome): (r: Result<(), Thrown>)
    ensures r.Success? <==> outcome.Loaded? && IsOkStatus(outcome.status)
    ensures outcome.Loaded? && !IsOkStatus(outcome.status) ==>
              r == Failure(ApiError("Upload failed with status " + IntToString(outcome.status), Some(outcome.status)))
    ensures outcome.NetworkFailure? ==> r == Failure(ApiError("Upload failed due to network error", None))
  {
    match outcome
    case Loaded(status) =>
      if IsOkStatus(status) then Success(())
      else Failure(ApiError("Upload failed with status " + IntToString(status), Some(status)))
    case NetworkFailure => Failure(ApiError("Upload failed due to network error", None))
  }

  /**
   * The upload promise is returned, not awaited, inside its try block, so a
   * rejection never passes through createAppError: the caller sees an
   * ApiError instance, unlike the JSON calls whose failures are plain records.
   */
  lemma UploadRejectionBypassesTranslation(outcome: XhrOutcome, json: FetchOutcome<StatusResponse>)
    ensures UploadToS3(outcome).Failure? ==>
              IsErrorInstance(UploadToS3(outcome).error) && !UploadToS3(outcome).error.AppErrorValue?
    ensures CheckGenerationStatus(json).Failure? ==> !IsErrorInstance(CheckGenerationStatus(json).error)
  {
  }

  /** Each report of a well-formed event sequence is a percentage in [0, 100]. */
  lemma {:induction false} ProgressReportsInRange(events: seq<ProgressEvent>, hasCallback: bool)
    requires forall i :: 0 <= i < |events| ==> 0 < events[i].total && events[i].loaded <= events[i].total
    ensures forall j :: 0 <= j < |ProgressReports(events, hasCallback)| ==>
              ProgressReports(events, hasCallback)[j].Some? &&
              0.0 <= ProgressReports(events, hasCallback)[j].value <= 100.0
  {
    if hasCallback && events != [] {
      ProgressReportsInRange(events[1..], hasCallback);
    }
  }
}
