/** The modal error panel: what it shows and where its two buttons lead. */
module ErrorDisplay {
  import opened Wrappers
  import opened AppContext

  /** Where a button sends the user. */
  datatype Navigation = ReloadPage | StayOnPage | NavigateTo(path: string)

  /** The rendered panel: the user-facing message and which buttons exist. */
  datatype Panel = Panel(userMessage: string, retryButton: bool, dismissButton: bool)

  /** The effect of a button: the error slot afterwards and the navigation. */
  datatype Reaction = Reaction(errorAfter: Option<AppError>, navigation: Navigation)

  predicate IsCameraError(t: ErrorType)
  {
    t == CAMERA_ACCESS_DENIED || t == CAMERA_NOT_AVAILABLE
  }

  /** Nothing without an error; otherwise a dismiss button and, only for retryable errors, a retry button. */
  function Render(error: Option<AppError>): (p: Option<Panel>)
    ensures p.None? <==> error.None?
    ensures p.Some? ==> p.value.userMessage == error.value.userMessage
    ensures p.Some? ==> (p.value.retryButton <==> error.value.retryable) && p.value.dismissButton
  {
    match error
    case None => None
    case Some(e) => Some(Panel(e.userMessage, e.retryable, true))
  }

  /** The retry button: clear the error, then reload, stay, or go home by kind. */
  function HandleRetry(error: AppError): (r: Reaction)
    ensures r.errorAfter.None?
    ensures r.navigation == ReloadPage <==> IsCameraError(error.kind)
    ensures r.navigation == StayOnPage <==> error.kind == UPLOAD_FAILED
    ensures r.navigation == NavigateTo("/") <==> !IsCameraError(error.kind) && error.kind != UPLOAD_FAILED
    ensures r.navigation.NavigateTo? ==> r.navigation.path == "/"
  {
    if IsCameraError(error.kind) then Reaction(None, ReloadPage)
    else if error.kind == UPLOAD_FAILED then Reaction(None, StayOnPage)
    else Reaction(None, NavigateTo("/"))
  }

  /** The dismiss button: clear the error and go home, whatever the kind. */
  function HandleDismiss(error: AppError): (r: Reaction)
    ensures r.errorAfter.None?
    ensures r.navigation == NavigateTo("/")
  {
    Reaction(None, NavigateTo("/"))
  }

  /** Applies a button's reaction to the session store: only the error slot changes. */
  method Apply(store: AppStore, r: Reaction) returns (nav: Navigation)
    modifies store
    ensures store.State() == old(store.State()).(error := r.errorAfter)
    ensures nav == r.navigation
  {
    store.SetError(r.errorAfter);
    nav := r.navigation;
  }

  /** Both buttons clear the error; they agree on navigation exactly for the go-home kinds. */
  lemma {:induction false} RetryAndDismissAgree(error: AppError)
    ensures HandleRetry(error).errorAfter == HandleDismiss(error).errorAfter
    ensures HandleRetry(error) == HandleDismiss(error) <==>
              error.kind in {RECORDING_FAILED, GENERATION_FAILED, NETWORK_ERROR}
  {
    match error.kind
    case CAMERA_ACCESS_DENIED =>
    case CAMERA_NOT_AVAILABLE =>
    case RECORDING_FAILED =>
    case UPLOAD_FAILED =>
    case GENERATION_FAILED =>
    case NETWORK_ERROR =>
  }
}
