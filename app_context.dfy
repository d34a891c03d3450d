/**
 * The cross-screen session store of the application: the data types the
 * screens exchange and the seven-field state object with its setters and
 * its reset operation.
 */
module AppContext {
  import opened Wrappers

  /** Raw bytes, as held by a browser Blob. */
  type Bytes = seq<bv8>

  /** A browser Blob: its bytes and its declared MIME type. */
  datatype Blob = Blob(data: Bytes, mimeType: string)
  {
    function Size(): nat { |data| }
  }

  /** An entry of the garment catalog. */
  datatype ClothingItem = ClothingItem(
    id: string,
    name: string,
    thumbnailUrl: string,
    description: Option<string>,
    s3Key: Option<string>)

  /** A recorded clip, ready for submission. */
  datatype RecordedVideo = RecordedVideo(blob: Blob, duration: int, mimeType: string)

  /** The six error kinds of the application. */
  datatype ErrorType =
    | CAMERA_ACCESS_DENIED
    | CAMERA_NOT_AVAILABLE
    | RECORDING_FAILED
    | UPLOAD_FAILED
    | GENERATION_FAILED
    | NETWORK_ERROR

  /** The string value each kind carries at run time. */
  function ErrorTypeValue(t: ErrorType): string
  {
    match t
    case CAMERA_ACCESS_DENIED => "CAMERA_ACCESS_DENIED"
    case CAMERA_NOT_AVAILABLE => "CAMERA_NOT_AVAILABLE"
    case RECORDING_FAILED => "RECORDING_FAILED"
    case UPLOAD_FAILED => "UPLOAD_FAILED"
    case GENERATION_FAILED => "GENERATION_FAILED"
    case NETWORK_ERROR => "NETWORK_ERROR"
  }

  /** The constant object `ErrorType`: key to value. */
  const ErrorTypeObject: map<string, string> := map[
    "CAMERA_ACCESS_DENIED" := "CAMERA_ACCESS_DENIED",
    "CAMERA_NOT_AVAILABLE" := "CAMERA_NOT_AVAILABLE",
    "RECORDING_FAILED" := "RECORDING_FAILED",
    "UPLOAD_FAILED" := "UPLOAD_FAILED",
    "GENERATION_FAILED" := "GENERATION_FAILED",
    "NETWORK_ERROR" := "NETWORK_ERROR"]

  /** Reads a run-time string back as an error kind, as a `switch` on it would. */
  function ParseErrorType(s: string): (r: Option<ErrorType>)
    ensures r.Some? ==> s in ErrorTypeObject
  {
    if s == "CAMERA_ACCESS_DENIED" then Some(CAMERA_ACCESS_DENIED)
    else if s == "CAMERA_NOT_AVAILABLE" then Some(CAMERA_NOT_AVAILABLE)
    else if s == "RECORDING_FAILED" then Some(RECORDING_FAILED)
    else if s == "UPLOAD_FAILED" then Some(UPLOAD_FAILED)
    else if s == "GENERATION_FAILED" then Some(GENERATION_FAILED)
    else if s == "NETWORK_ERROR" then Some(NETWORK_ERROR)
    else None
  }

  /**
   * The enumeration has six distinct values, each equal to its key, and each
   * value reads back as the kind it came from.
   */
  lemma ErrorTypeEnumeration(t: ErrorType, u: ErrorType)
    ensures |ErrorTypeObject| == 6
    ensures forall k :: k in ErrorTypeObject ==> ErrorTypeObject[k] == k
    ensures ErrorTypeValue(t) in ErrorTypeObject
    ensures ParseErrorType(ErrorTypeValue(t)) == Some(t)
    ensures ErrorTypeValue(t) == ErrorTypeValue(u) ==> t == u
  {
    assert ErrorTypeObject.Keys == {"CAMERA_ACCESS_DENIED", "CAMERA_NOT_AVAILABLE",
      "RECORDING_FAILED", "UPLOAD_FAILED", "GENERATION_FAILED", "NETWORK_ERROR"};
  }

  /** A user-facing failure record. */
  datatype AppError = AppError(kind: ErrorType, message: string, userMessage: string, retryable: bool)

  /** A snapshot of the seven session fields. */
  datatype AppState = AppState(
    recordedVideo: Option<RecordedVideo>,
    selectedClothing: Option<ClothingItem>,
    generatedVideoUrl: Option<string>,
    isProcessing: bool,
    error: Option<AppError>,
    videoKey: Option<string>,
    jobId: Option<string>)

  /** The state the provider starts in and `resetState` returns to. */
  const InitialState := AppState(None, None, None, false, None, None, None)

  /** The session store owned by the application's provider. */
  class AppStore {
    var recordedVideo: Option<RecordedVideo>
    var selectedClothing: Option<ClothingItem>
    var generatedVideoUrl: Option<string>
    var isProcessing: bool
    var error: Option<AppError>
    var videoKey: Option<string>
    var jobId: Option<string>

    /** The current value of all seven fields. */
    function State(): AppState
      reads this
    {
      AppState(recordedVideo, selectedClothing, generatedVideoUrl, isProcessing, error, videoKey, jobId)
    }

    /** Every nullable field null, isProcessing false. */
    constructor ()
      ensures State() == InitialState
      ensures recordedVideo.None? && selectedClothing.None? && generatedVideoUrl.None?
      ensures !isProcessing && error.None? && videoKey.None? && jobId.None?
    {
      recordedVideo, selectedClothing, generatedVideoUrl := None, None, None;
      isProcessing, error, videoKey, jobId := false, None, None, None;
    }

    method SetRecordedVideo(v: Option<RecordedVideo>)
      modifies this
      ensures State() == old(State()).(recordedVideo := v)
    {
      recordedVideo := v;
    }

    method SetSelectedClothing(c: Option<ClothingItem>)
      modifies this
      ensures State() == old(State()).(selectedClothing := c)
    {
      selectedClothing := c;
    }

    method SetGeneratedVideoUrl(url: Option<string>)
      modifies this
      ensures State() == old(State()).(generatedVideoUrl := url)
    {
      generatedVideoUrl := url;
    }

    method SetIsProcessing(b: bool)
      modifies this
      ensures State() == old(State()).(isProcessing := b)
    {
      isProcessing := b;
    }

    method SetError(e: Option<AppError>)
      modifies this
      ensures State() == old(State()).(error := e)
    {
      error := e;
    }

    method SetVideoKey(k: Option<string>)
      modifies this
      ensures State() == old(State()).(videoKey := k)
    {
      videoKey := k;
    }

    method SetJobId(id: Option<string>)
      modifies this
      ensures State() == old(State()).(jobId := id)
    {
      jobId := id;
    }

    /** Returns all seven fields to their initial values, whatever they were. */
    method ResetState()
      modifies this
      ensures State() == InitialState
    {
      SetRecordedVideo(None);
      SetSelectedClothing(None);
      SetGeneratedVideoUrl(None);
      SetIsProcessing(false);
      SetError(None);
      SetVideoKey(None);
      SetJobId(None);
    }
  }

  /** `useAppContext`: the store of the enclosing provider, or an error outside one. */
  function UseAppContext(provided: Option<AppStore>): (r: Result<AppStore, string>)
    ensures r.Failure? <==> provided.None?
    ensures r.Failure? ==> r.error == "useAppContext must be used within an AppProvider"
    ensures r.Success? ==> r.value == provided.value
  {
    match provided
    case None => Failure("useAppContext must be used within an AppProvider")
    case Some(store) => Success(store)
  }
}
