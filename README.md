# Barbie Virtual Try-On: a Dafny model of the client core

The application records a short 9:16 clip of the user with the camera and
lets them pick a garment. It then uploads the clip and asks the back end to
generate a try-on video, and polls the job until the video is ready. This
project models that flow and proves properties about it, one Dafny module
per source file:

- `AppContext` (app_context.dfy): the session store. It holds the recorded
  clip, the chosen garment, the generated video URL, the busy flag, the
  current error, the video key and the job id. `AppStore` is a class whose
  setters update these fields in place. It also defines the six error kinds
  and `useAppContext`.
- `ApiClient` (api_client.dfy): the HTTP client. It covers the base URL and
  endpoints, `fetchWithErrorHandling`, the translation of what is thrown into
  an `AppError` record, the three JSON calls, and the XHR upload with its
  progress callback.
- `ImageConverter` (image_converter.dfy): image preparation. It covers the
  resize rule, HEIC detection and renaming, the quality and dimension
  back-off ladder of `convertWithQuality` (as a loop proved against the
  ladder), the error paths of `convertImageFormat` (read, decode, canvas
  context and what the canvas set-up throws), and data-URL splitting.
- `RecordingScreen` (recording_screen.dfy): the camera screen. It covers
  camera acquisition with its fallback and error classification, the
  aspect-ratio crop decision and the crop rectangle, the countdown and
  recording timers, the `MediaRecorder` events, the canvas frame loop and
  teardown. Each is a transition function on the screen's state.
  `RecordingSession` is a class whose handlers follow those functions.
- `ClothingSelection` (clothing_selection.dfy): the garment screen. It
  covers the catalog lookup, the submission guards, the simulated upload,
  and the real presign / upload / process path. It tracks the progress
  reported along the way, the requests issued, the failure alert and the
  navigation to the result screen.
- `LoadingScreen` (loading_screen.dfy): the waiting screen. It polls the job
  status until the first terminal answer.
- `ErrorDisplay` (error_display.dfy): the error panel and its retry and
  dismiss buttons.
- `BrowserCheck` (browser_check.dfy): feature detection and user-agent
  naming.
- Shared helpers:
  - `Thrown` (thrown.dfy) describes what a `catch` can receive.
  - `Strings` (strings.dfy) and `JsMath` (js_math.dfy) model the few
    JavaScript built-ins used: `includes`, `endsWith`, `toLowerCase`,
    `Math.round`, `Math.abs`.
  - `Wrappers` (wrappers.dfy) defines `Option` and `Result`.

Things outside the program are inputs to the model. These include the
browser (camera, recorder, canvas, decoder, encoder), the network responses,
the clock, and object URLs. Each handler takes what the outside world did as
a parameter.

## Model

| member | source | states |
|---|---|---|
| AppContext.ErrorTypeEnumeration | src/context/AppContext.tsx:18-25 | The error-kind object has exactly six entries, each mapping its name to itself; the string of a kind parses back to that kind, and distinct kinds have distinct strings |
| AppContext.AppStore.constructor | src/context/AppContext.tsx:62-74 | A fresh store holds no clip, garment, video URL, error, video key or job id, and is not processing |
| AppContext.AppStore.SetRecordedVideo | src/context/AppContext.tsx:62-64 | Replaces the recorded clip and nothing else |
| AppContext.AppStore.SetSelectedClothing | src/context/AppContext.tsx:65-67 | Replaces the chosen garment and nothing else |
| AppContext.AppStore.SetGeneratedVideoUrl | src/context/AppContext.tsx:68-70 | Replaces the generated video URL and nothing else |
| AppContext.AppStore.SetIsProcessing | src/context/AppContext.tsx:71 | Replaces the busy flag and nothing else |
| AppContext.AppStore.SetError | src/context/AppContext.tsx:72 | Replaces the current error and nothing else |
| AppContext.AppStore.SetVideoKey | src/context/AppContext.tsx:73 | Replaces the video key and nothing else |
| AppContext.AppStore.SetJobId | src/context/AppContext.tsx:74 | Replaces the job id and nothing else |
| AppContext.AppStore.ResetState | src/context/AppContext.tsx:76-84 | Brings every field of the store back to its initial value |
| AppContext.UseAppContext | src/context/AppContext.tsx:107-113 | Fails, with the provider message, exactly when no provider is present; otherwise yields the provided store |
| ApiClient.BaseUrl | src/api/client.ts:11 | A non-empty configured URL wins; a missing or empty one falls back to the local default |
| ApiClient.JobIdOfStatusUrl | src/api/client.ts:152-157 | A recovered job id rebuilds exactly the URL it came from |
| ApiClient.EndpointsRoundTrip | src/api/client.ts:85 | Every endpoint starts with the base URL; the job id of a status URL is recovered from it, so different job ids give different status URLs |
| ApiClient.CreateAppError | src/api/client.ts:25-43 | Always a retryable NETWORK_ERROR; an ApiError keeps its message with the network user message; another Error keeps its message with the caller's user message; a non-Error gets the caller's message for both |
| ApiClient.MergeHeaders | src/api/client.ts:50-56 | The headers are the caller's plus Content-Type; caller values win, and Content-Type defaults to application/json |
| ApiClient.RewrapFailure | src/api/client.ts:68-77 | What leaves the catch is always an ApiError: an ApiError passes through unchanged, and anything else becomes one with its message (or "Network request failed") and no status |
| ApiClient.FetchWithErrorHandling | src/api/client.ts:45-78 | Succeeds only on an ok status with a parsed body, yielding that body; a non-ok status fails with an ApiError carrying "HTTP status: text" and the status; a network rejection fails with an ApiError without status |
| ApiClient.Translated | src/api/client.ts:80-94 | The catch of the JSON calls: success passes through; a failure is replaced by the AppError record built from it, thrown as a plain value |
| ApiClient.JsonCallFailures | src/api/client.ts:152-162 | Every failure of the status call is a plain retryable NETWORK_ERROR record rather than an Error instance; an HTTP failure keeps its "HTTP status: text" line; a rejected fetch keeps the Error's message |
| ApiClient.ProgressPercent | src/api/client.ts:106-111 | Undefined (non-finite) exactly when the total is zero; otherwise the report times the total is the loaded bytes times 100, so it lies in [0, 100] and is 100 when everything is loaded |
| ApiClient.Computable | src/api/client.ts:107 | The events with a computable length, in order: each is one of the events, and when every event is computable they are all of them |
| ApiClient.ComputableSnoc | src/api/client.ts:107 | Appending an event appends it to the computable events exactly when its length is computable |
| ApiClient.ProgressReports | src/api/client.ts:106-111 | None without a callback; with one, exactly one report per computable event, in order, each the percentage of that event; one per event when every event is computable |
| ApiClient.ProgressReportsInRange | src/api/client.ts:106-111 | For well-formed events every report is a finite percentage in [0, 100] |
| ApiClient.UploadToS3 | src/api/client.ts:96-134 | Resolves exactly on a 2xx load; any other status rejects with "Upload failed with status N" and that status; a network error rejects with its own message |
| ApiClient.UploadRejectionBypassesTranslation | src/api/client.ts:113-127 | An upload rejection reaches the caller as an Error instance, never as an AppError record, whereas a status-call failure is never an Error instance |
| ImageConverter.ClampWidthProperties | src/utils/imageConverter.ts:15-18 | Clamping the width keeps both sides within the original, the width within the limit, and the aspect ratio exact |
| ImageConverter.ClampHeightProperties | src/utils/imageConverter.ts:20-23 | Clamping the height brings it to the limit, does not grow the width, and keeps the aspect ratio exact |
| ImageConverter.FitExactProperties | src/utils/imageConverter.ts:6-26 | Before rounding, the size fits the box, never exceeds the original and keeps the aspect ratio; a picture that already fits is unchanged |
| ImageConverter.CalculateResizeDimensions | src/utils/imageConverter.ts:6-26 | The result is the exact fit with each side rounded, so it fits the box and never upscales; a picture that already fits keeps its size |
| ImageConverter.ResizeKeepsAspect | src/utils/imageConverter.ts:3-26 | The resized picture keeps the original aspect ratio up to rounding: the cross products of the two sizes differ by at most half the sum of the original sides |
| ImageConverter.RenameHeic | src/utils/imageConverter.ts:69 | A name ending in ".heic" in any case gets ".jpg" in place of that suffix; every other name is unchanged |
| ImageConverter.RenameHeicBySuffix | src/utils/imageConverter.ts:47-69 | Only the last five characters decide: a suffix that lower-cases to ".heic" is replaced by ".jpg" and the stem kept; any other name is unchanged; the name counts as HEIC exactly for ".heic" or ".heif" in any case |
| ImageConverter.HeicCaseExamples | src/utils/imageConverter.ts:47-69 | ".heic" and ".HEIC" names become ".jpg" names with the same stem; a ".heif" name is kept as it is, although ".HEIF" counts as HEIC |
| ImageConverter.PrepareInput | src/utils/imageConverter.ts:55-82 | Only a file whose MIME type is HEIC or HEIF is transcoded, into a JPEG renamed as above; when transcoding fails the original file goes on |
| ImageConverter.ExtensionAloneNeverTranscodes | src/utils/imageConverter.ts:47-58 | A HEIC extension with another MIME type is only logged; the file goes on unchanged |
| ImageConverter.MimeFor | src/utils/imageConverter.ts:219 | JPEG encodes as image/jpeg and PNG as image/png |
| ImageConverter.ShrinkDimension | src/utils/imageConverter.ts:198 | The result is three quarters of the dimension, rounded down |
| ImageConverter.Reduce | src/utils/imageConverter.ts:185-205 | Nothing is left to reduce exactly when the quality (JPEG only) is at the floor of 40 and the dimension at most 800; JPEG lowers quality by 15 first, otherwise the dimension shrinks to max(800, floor(0.75 d)); PNG quality never changes |
| ImageConverter.ReduceUsesOneRung | src/utils/imageConverter.ts:185-205 | Each reduction uses up exactly one rung of a finite budget, so the back-off terminates |
| ImageConverter.DefaultRungs | src/utils/imageConverter.ts:42-44 | From quality 0.85 and 1920 px, a JPEG has 7 reductions available and a PNG 4 |
| ImageConverter.LadderProperties | src/utils/imageConverter.ts:134-222 | The first attempt uses the requested setting; the attempt count is bounded by the rungs; a blob has the requested MIME type; an encoder failure is "Failed to convert image"; an over-budget blob is returned only at the floors; no attempt exceeds the starting dimension; PNG quality is never lowered; an in-budget first blob is returned at once |
| ImageConverter.LadderStep | src/utils/imageConverter.ts:168-218 | One attempt: an encoder failure rejects with "Failed to convert image"; a blob within budget, or one that cannot be reduced further, is the result; otherwise the ladder goes on from the reduced setting |
| ImageConverter.LadderTrace | src/utils/imageConverter.ts:134-222 | Each attempt after the first is one reduction of the one before; every attempt but the last encoded a blob over the budget; the result is the last attempt's blob, and a failure means the last attempt's encoding failed |
| ImageConverter.ConvertWithQuality | src/utils/imageConverter.ts:134-222 | The loop returns the ladder's result after exactly the ladder's number of encodes, at least one and at most one more than the rungs |
| ImageConverter.ConvertImageFormat | src/utils/imageConverter.ts:39-244 | A read failure rejects with the Error "Failed to read file", a decode failure with "Failed to load image", a missing 2D context with "Failed to get canvas context", and a throw in the canvas set-up with what was thrown; otherwise the result is the ladder's, starting at the caller's quality and maximum dimension, its failure as an Error with the same message; a result comes only from a decoded image with a context and has the requested MIME type, never HEIC |
| ImageConverter.Base64Payload | src/utils/imageConverter.ts:255 | The payload is undefined exactly when there is no comma; otherwise it is comma-free and is the whole text from the first comma up to the next comma or the end |
| ImageConverter.Base64PayloadOfDataUrl | src/utils/imageConverter.ts:249-264 | Splitting a data URL built from a comma-free MIME type and payload gives back the payload |
| RecordingScreen.NeedsCanvasCropCrossMultiplied | src/screens/RecordingScreen.tsx:89-97 | The crop decision \|w/h - 9/16\| > 0.05 holds exactly when 20·\|16w - 9h\| > 16h |
| RecordingScreen.CropDecisionExamples | src/screens/RecordingScreen.tsx:89-97 | 720x1280 and 1080x1920 are recorded directly; 1280x720 and 640x480 are cropped; a zero height crops unless the width is zero too |
| RecordingScreen.OutputWidth | src/screens/RecordingScreen.tsx:222-223 | The output canvas is 720 wide, exactly 9:16 of its 1280 height |
| RecordingScreen.CropSource | src/screens/RecordingScreen.tsx:301-303 | The source strip is full height and exactly 9:16, with equal margins; it lies inside a wide enough frame, and its offset goes negative for a narrower one |
| RecordingScreen.ClassifyCameraError | src/screens/RecordingScreen.tsx:104-139 | A non-Error sets nothing; a denial is CAMERA_ACCESS_DENIED, anything else CAMERA_NOT_AVAILABLE; only a missing device is non-retryable; the message is the Error's |
| RecordingScreen.CameraFallback | src/screens/RecordingScreen.tsx:33-103 | A stream from either the 9:16 request or the unconstrained one makes the camera ready with the crop decision and no store write; only when both are refused is the second refusal classified |
| RecordingScreen.TickKeepsSane | src/screens/RecordingScreen.tsx:443-471 | A timer tick keeps the countdown in [0, 3] and the timer in [0, 4], and never lets counting down and recording overlap |
| RecordingScreen.NoRestart | src/screens/RecordingScreen.tsx:443-456 | Once the countdown is at zero, no number of ticks starts another recording |
| RecordingScreen.CountdownStartsOnce | src/screens/RecordingScreen.tsx:443-456 | A countdown from c starts exactly one recording, on its c-th tick, however many ticks follow |
| RecordingScreen.CameraReadyAfterSettle | src/screens/RecordingScreen.tsx:33-103 | When either camera request is granted, the fresh screen settles into the ready state with the crop decision for the stream's size, with no store write |
| RecordingScreen.StartWithoutStream | src/screens/RecordingScreen.tsx:168 | Without a stream, starting changes nothing and writes nothing |
| RecordingScreen.StartOutcomes | src/screens/RecordingScreen.tsx:167-396 | With a stream the recording flags are raised. A start that succeeds writes nothing and gives a fresh recording recorder of the right MIME type and path with an empty buffer, scheduling the frame loop on the canvas path. A failed start changes only the flags and stores a retryable RECORDING_FAILED: "Video element not found" without a video element, "Canvas context not available" without a context, otherwise the thrown Error's message or "Unknown error" |
| RecordingScreen.FrameLoop | src/screens/RecordingScreen.tsx:293-330 | A scheduled frame of a zero-sized video draws nothing and changes nothing; otherwise it draws the 9:16 crop strip; from 4000 ms on it stops the recorder, cancels the loop and ends the recording, and before that it leaves the screen unchanged |
| RecordingScreen.Timeline | src/screens/RecordingScreen.tsx:167-332 | From a ready camera whose start succeeds, three ticks start the single recording with a fresh recorder, an empty buffer and 4 s on the timer; seven ticks leave the recorder stopped, the frame loop cancelled and the recording over, on either path |
| RecordingScreen.BufferCollectsNonEmptyChunks | src/screens/RecordingScreen.tsx:247-251 | The buffer receives exactly the non-empty chunks, in order |
| RecordingScreen.StoredClip | src/screens/RecordingScreen.tsx:253-277 | After a successful start, the stored clip lasts 4000 ms, has the recorder's MIME type (VP9 WebM when supported), and holds the bytes of the non-empty chunks since the start |
| RecordingScreen.TeardownQuiesces | src/screens/RecordingScreen.tsx:150-165 | After teardown the recorder is inactive, the frame loop is cancelled and a stream acquired while mounted is released; later ticks and frames change nothing, and a second teardown is a no-op |
| RecordingScreen.LateStopStoresPartialClip | src/screens/RecordingScreen.tsx:253-277 | When teardown stops an active recorder, its stop event still stores the chunks gathered so far as a 4000 ms clip and heads to garment selection |
| RecordingScreen.StopIdempotent | src/screens/RecordingScreen.tsx:399-417 | Stopping leaves no active recorder and no frame loop, and stopping again changes nothing |
| RecordingScreen.RecordingSession.constructor | src/screens/RecordingScreen.tsx:18-28 | A new screen is mounted, has no stream, and has the countdown at 3 and the timer at 4 |
| RecordingScreen.RecordingSession.RequestCamera | src/screens/RecordingScreen.tsx:33-140 | The screen and store become those of the acquisition step |
| RecordingScreen.RecordingSession.SettleElapsed | src/screens/RecordingScreen.tsx:101-103 | The countdown begins on a mounted screen |
| RecordingScreen.RecordingSession.StartRecording | src/screens/RecordingScreen.tsx:167-397 | The screen and store become those of the start step (see StartOutcomes): either a recording recorder on the right path, or RECORDING_FAILED when the video or canvas context is missing or the recorder set-up throws |
| RecordingScreen.RecordingSession.StopRecording | src/screens/RecordingScreen.tsx:399-417 | The screen becomes the stopped screen |
| RecordingScreen.RecordingSession.TimerTick | src/screens/RecordingScreen.tsx:443-471 | The screen and store become those of one tick |
| RecordingScreen.RecordingSession.OnDataAvailable | src/screens/RecordingScreen.tsx:247-251 | A non-empty chunk is appended to the buffer |
| RecordingScreen.RecordingSession.OnRecorderStop | src/screens/RecordingScreen.tsx:253-277 | The clip is stored and the screen heads to garment selection |
| RecordingScreen.RecordingSession.OnRecorderError | src/screens/RecordingScreen.tsx:279-286 | A RECORDING_FAILED error is stored |
| RecordingScreen.RecordingSession.OnAnimationFrame | src/screens/RecordingScreen.tsx:293-330 | One frame of the canvas loop, as FrameLoop characterises it: it draws the crop strip and stops at 4000 ms |
| RecordingScreen.RecordingSession.Teardown | src/screens/RecordingScreen.tsx:150-165 | The screen becomes the torn-down screen |
| LoadingScreen.PollStep | src/screens/LoadingScreen.tsx:25-60 | After unmount nothing happens; it finishes exactly on "completed" with a non-empty URL, which it returns; polling continues exactly on a non-failed status without a usable URL; every failure is retryable: GENERATION_FAILED with the job's error or "Generation failed", or NETWORK_ERROR with the Error's message or "Unknown error" |
| LoadingScreen.FailedStatusCheckMessage | src/screens/LoadingScreen.tsx:47-59 | A failed status check is always recorded as "Unknown error", because the client throws a plain record; an HTTP error status always fails the polling |
| LoadingScreen.PollFailureOffersRetryHome | src/components/ErrorDisplay.tsx:11-48 | Every polling failure is shown with a retry button, and retry and dismiss both clear it and lead to "/" |
| LoadingScreen.FirstTerminal | src/screens/LoadingScreen.tsx:31-45 | Locates the first response that finishes or fails the job; every earlier one keeps polling |
| LoadingScreen.PollingStopsAtFirstTerminal | src/screens/LoadingScreen.tsx:25-64 | Polling stops exactly at the first terminal response, after that many requests. Only that response's writes reach the store, and processing ends. The result route is taken only with a non-empty video URL. Without a terminal response the store is untouched |
| LoadingScreen.OnMount | src/screens/LoadingScreen.tsx:15-20 | A missing or empty job id redirects home; otherwise polling starts for that id |
| LoadingScreen.PollUntilSettled | src/screens/LoadingScreen.tsx:25-64 | The polling loop ends with the store, request count and route of the polling run |
| LoadingScreen.Mount | src/screens/LoadingScreen.tsx:15-72 | Without a job id the store is unchanged and the route is "/"; otherwise the store and route are those of the polling run |
| ClothingSelection.FindIn | src/screens/ClothingSelectionScreen.tsx:28-31 | Finds the first item with the id, and finds none exactly when no item has it |
| ClothingSelection.CatalogLookup | src/data/clothingData.ts:3-40 | A garment is found exactly for the six catalog ids, and it is the catalog item with that id |
| ClothingSelection.Extension | src/screens/ClothingSelectionScreen.tsx:62-65 | "webm" exactly when the MIME type mentions webm, "mp4" otherwise |
| ClothingSelection.Filename | src/screens/ClothingSelectionScreen.tsx:62-65 | The upload name starts with "video-" and ends with the extension of the MIME type |
| ClothingSelection.WebmClipName | src/screens/ClothingSelectionScreen.tsx:62-65 | A MIME type mentioning webm anywhere, such as the recorder's VP9 WebM type, names a ".webm" upload |
| ClothingSelection.ScaledPercent | src/screens/ClothingSelectionScreen.tsx:95-100 | The upload share is mapped into [20, 70]: 20 at the start and 70 when complete |
| ClothingSelection.UploadPercent | src/screens/ClothingSelectionScreen.tsx:95-100 | Non-finite exactly when the total is zero; otherwise a percentage in [20, 70] |
| ClothingSelection.ScaledPercentMonotone | src/screens/ClothingSelectionScreen.tsx:95-100 | More bytes loaded never gives a lower percentage |
| ClothingSelection.UploadProgressLog | src/screens/ClothingSelectionScreen.tsx:95-100 | At most one report per progress event |
| ClothingSelection.UploadProgressLogPerEvent | src/screens/ClothingSelectionScreen.tsx:95-100 | Exactly one report per computable event, in order, each the scaled percentage of that event |
| ClothingSelection.UploadProgressLogBounded | src/screens/ClothingSelectionScreen.tsx:95-100 | For a well-formed upload the reports lie between 20 and the last event's percentage, and never go back |
| ClothingSelection.DummyLog | src/screens/ClothingSelectionScreen.tsx:38-53 | The simulation reports 0, 10, ..., 10(n-1) in order |
| ClothingSelection.Accepted | src/screens/ClothingSelectionScreen.tsx:67-86 | A response is used exactly when it has an ok status and a parsed body, and that body is what is used |
| ClothingSelection.UploadStricterThanClient | src/screens/ClothingSelectionScreen.tsx:102-108 | The screen's own upload accepts status 200 only, so a 204 fails here although the client's upload accepts it |
| ClothingSelection.StartGuard | src/screens/ClothingSelectionScreen.tsx:28-31 | A submission starts exactly with a non-empty selected id, a recorded clip and a catalog garment with that id, which it returns |
| ClothingSelection.RealPath | src/screens/ClothingSelectionScreen.tsx:59-151 | Starts at 10% with the create-upload request. The PUT is issued exactly when the ticket is accepted, and the process request only after a 200 upload. The result screen is reached exactly when all three steps succeed, and receives the processing answer's result URL, job id and output key |
| ClothingSelection.AfterTicket | src/screens/ClothingSelectionScreen.tsx:87-145 | From 20% it PUTs to the ticket's URL, asks to process the input key with the garment only after a 200 upload, and reaches the result screen exactly when processing is accepted too, passing the result URL, job id and output key |
| ClothingSelection.AfterTicketReports | src/screens/ClothingSelectionScreen.tsx:87-140 | The reports after the ticket are 20 and the upload's own reports; then 70 exactly after a 200 upload; then 100 exactly when the result screen is reached, and nothing more |
| ClothingSelection.SubmitGuardsAndCleanup | src/screens/ClothingSelectionScreen.tsx:27-152 | Without the guards nothing changes. Otherwise the catalog garment is stored and both busy flags end cleared. The screen either shows the failure alert and keeps its navigation, or navigates without an alert |
| ClothingSelection.DummySubmission | src/screens/ClothingSelectionScreen.tsx:38-53 | The simulation reports 0 to 100 in steps of ten, ends at 100, issues no request and opens the result screen with the clip's object URL |
| ClothingSelection.DuringUploadProgress | src/screens/ClothingSelectionScreen.tsx:87-100 | While uploading, the progress starts at 20 and its reports stay within [20, 70] and never go back |
| ClothingSelection.AfterTicketProgress | src/screens/ClothingSelectionScreen.tsx:87-140 | After the ticket the progress stays within [20, 100] and never goes back; a success ends at 100 |
| ClothingSelection.RealProgressMonotone | src/screens/ClothingSelectionScreen.tsx:59-145 | On the real path the progress stays within [10, 100] and never goes back; a success ends at 100 |
| ClothingSelection.SelectionScreen.constructor | src/screens/ClothingSelectionScreen.tsx:16-18 | Nothing selected, 0% progress, not uploading |
| ClothingSelection.SelectionScreen.HandleSelect | src/screens/ClothingSelectionScreen.tsx:23-25 | Records the selected id and nothing else |
| ClothingSelection.SelectionScreen.SetUploadProgress | src/screens/ClothingSelectionScreen.tsx:18 | Sets the progress and appends it to the reported log |
| ClothingSelection.SelectionScreen.Abort | src/screens/ClothingSelectionScreen.tsx:146-151 | Shows the failure alert and clears both busy flags |
| ClothingSelection.SelectionScreen.SimulateUpload | src/screens/ClothingSelectionScreen.tsx:38-53 | The loop reports 0..100 in tens, ends at 100 and opens the result screen |
| ClothingSelection.SelectionScreen.ReportUploadProgress | src/screens/ClothingSelectionScreen.tsx:95-100 | The loop reports exactly the upload progress log |
| ClothingSelection.SelectionScreen.Upload | src/screens/ClothingSelectionScreen.tsx:87-100 | Reports 20%, issues the PUT, then reports the upload progress log, ending on its last report |
| ClothingSelection.SelectionScreen.SubmitToBackend | src/screens/ClothingSelectionScreen.tsx:59-151 | The screen becomes the real path's outcome and the busy flag is cleared |
| ClothingSelection.SelectionScreen.UploadAndProcess | src/screens/ClothingSelectionScreen.tsx:87-151 | The screen becomes the outcome after the ticket and the busy flag is cleared |
| ClothingSelection.SelectionScreen.RunSimulation | src/screens/ClothingSelectionScreen.tsx:38-53 | The screen becomes the simulated outcome, which opens the result screen with the clip's object URL, and the busy flag is cleared |
| ClothingSelection.SelectionScreen.HandleStart | src/screens/ClothingSelectionScreen.tsx:27-152 | The screen and store become those of a submission |
| ErrorDisplay.Render | src/components/ErrorDisplay.tsx:9-48 | There is a panel exactly when there is an error; it shows the user message and a dismiss button, with a retry button exactly for retryable errors |
| ErrorDisplay.HandleRetry | src/components/ErrorDisplay.tsx:11-24 | Retry always clears the error; it reloads exactly for camera errors, stays exactly for upload failures, and otherwise goes to "/" |
| ErrorDisplay.HandleDismiss | src/components/ErrorDisplay.tsx:26-29 | Dismiss clears the error and goes to "/", whatever the kind |
| ErrorDisplay.Apply | src/components/ErrorDisplay.tsx:11-29 | A button changes only the error slot of the store, and navigates as its reaction says |
| ErrorDisplay.RetryAndDismissAgree | src/components/ErrorDisplay.tsx:11-29 | Both buttons clear the error; they lead to the same place exactly for recording, generation and network errors |
| BrowserCheck.CheckBrowserCompatibility | src/utils/browserCheck.ts:6-29 | The browser is compatible exactly when both capture APIs exist, which is exactly when nothing is listed missing. Each missing API is listed once, camera access first |
| BrowserCheck.GetBrowserName | src/utils/browserCheck.ts:31-45 | Each name is characterised by the words the user agent contains: Chrome without Edg, Safari without Chrome, Firefox, Edge, otherwise Unknown |
| BrowserCheck.ChromiumUserAgents | src/utils/browserCheck.ts:34-41 | A Chromium Edge user agent, which also contains "Chrome", is named Edge; a plain Chrome one is named Chrome |

## Left out

- Browser services are inputs, not modelled code. These are the camera
  (`getUserMedia`), `MediaRecorder`, the canvas, `FileReader`, `Image`, the
  `heic2any` decoder, `canvas.toBlob`, `fetch` and `XMLHttpRequest`, and
  `URL.createObjectURL`. Each is a parameter that says what the service
  returned.
- Timers are steps. The two-second polling interval, the 1 s countdown and
  recording timers, the settle delay and `requestAnimationFrame` become one
  call or one tick each. Wall-clock timing is not modelled.
- LoadingScreen.PollUntilSettled: overlapping status requests are not
  modelled, so responses are handled one at a time in order. The source
  starts a request every two seconds whether or not the previous one has
  answered.
- JavaScript numbers are exact reals, with no IEEE rounding. JPEG quality is
  in integer hundredths (0.85 is 85, the step 0.15 is 15, the floor 0.4 is
  40). The floating-point drift of repeated subtraction is not modelled.
  Widths and heights are naturals.
- `blobToDataUrl` (src/utils/imageConverter.ts:269-282) is not modelled,
  because no modelled code calls it. Base64 encoding itself is an input.
- `toLowerCase` is modelled for ASCII letters only.
- Console logging, the error body read on a failed response, and
  `JSON.stringify` of request bodies are left out. The requests are recorded
  as structured values.
- Header names are compared exactly as written; HTTP's case-insensitive
  header names are not modelled.
- The developer switches `USE_TEST_VIDEO` and `AUTO_DOWNLOAD_RECORDING` in
  src/screens/RecordingScreen.tsx are left out, as shipped off.
  `USE_REAL_API` in src/screens/ClothingSelectionScreen.tsx is a parameter,
  so both paths are modelled.
- ClothingSelection.UploadProgressLogBounded: the bounds are proved only for
  well-formed events (a positive total equal to the clip size, and
  non-decreasing loaded bytes). A zero total yields a non-finite progress
  value, `NotFinite`, whose rendering is not modelled.
- ImageConverter.ConvertImageFormat: only a throw before the first encoding
  is requested is caught and rejected with. A throw inside a later
  `toBlob` callback (src/utils/imageConverter.ts:168-221) escapes the
  `try` at lines 94-228 and leaves the promise pending; the model does not
  represent that. The redraw when the canvas context is missing on a
  smaller rung (lines 150-161) is not modelled: each rung is encoded as the
  ladder says.
- RecordingScreen.RecordingSession.StartRecording: a throw from
  `mediaRecorder.start()` (src/screens/RecordingScreen.tsx:289 and 386) is modelled like a throw
  from the `MediaRecorder` constructor. The source has already stored the
  new recorder and its event handlers by then; the model keeps the
  previous recorder.
- RecordingScreen.TeardownQuiesces: a stream granted after the screen has
  unmounted is dropped by the model and never released, as in the source:
  src/screens/RecordingScreen.tsx:60 stores it in component state, which
  no longer updates once unmounted, and the cleanup at lines 150-165 stops
  only a stored stream. A live-stream flag for that leak is not modelled. A recorder stopped by teardown still
  fires its stop event, which stores the partial clip and navigates
  (LateStopStoresPartialClip). The model follows the code here, not a
  reading under which a cancelled recording stores nothing.
- Rendering (markup, styles, animations) and the components outside these
  eight files are not part of this model.
