/**
 * The waiting screen: with a job id it polls the generation status once at
 * once and then every two seconds, until the job completes with a video URL
 * (store the URL, leave the processing state, go to the result screen), the
 * job fails, or a status check throws (record an error, leave the processing
 * state). Without a job id it goes back to the start screen.
 */
module LoadingScreen {
  import opened Wrappers
  import opened Strings
  import opened AppContext
  import opened Thrown
  import opened ApiClient
  import ErrorDisplay

  const ResultRoute := "/result"
  const HomeRoute := "/"
  const GenerationFailedDefault := "Generation failed"
  const GenerationFailedUserMessage := "Video generation failed. Please try again."
  const UnknownErrorMessage := "Unknown error"
  const StatusCheckUserMessage := "Failed to check generation status. Please try again."

  /** What one status response (or the exception in its place) makes the screen do. */
  datatype PollReaction =
    | KeepPolling
    | Finish(url: string)
    | Fail(error: AppError)
    | Ignore

  predicate Terminal(r: PollReaction)
  {
    r.Finish? || r.Fail?
  }

  /**
   * The body of `pollStatus` after the awaited status check: nothing once the
   * screen has unmounted; a finish on "completed" with a truthy URL; a
   * GENERATION_FAILED record on "failed"; a NETWORK_ERROR record when the
   * check threw; otherwise the interval keeps running.
   */
  function PollStep(mounted: bool, outcome: Result<StatusResponse, Thrown>): (r: PollReaction)
    ensures !mounted <==> r.Ignore?
    ensures r.Finish? <==> mounted && outcome.Success? && outcome.value.status == Completed
                           && Truthy(outcome.value.videoUrl)
    ensures r.Finish? ==> Some(r.url) == outcome.value.videoUrl && r.url != ""
    ensures r.KeepPolling? <==> mounted && outcome.Success? && outcome.value.status != Failed
                                && !(outcome.value.status == Completed && Truthy(outcome.value.videoUrl))
    ensures r.Fail? ==> r.error.retryable
    ensures r.Fail? && outcome.Success? ==>
              r.error.kind == GENERATION_FAILED && r.error.userMessage == GenerationFailedUserMessage
              && r.error.message != ""
              && (Truthy(outcome.value.error) ==> r.error.message == outcome.value.error.value)
              && (!Truthy(outcome.value.error) ==> r.error.message == GenerationFailedDefault)
    ensures r.Fail? && outcome.Failure? ==>
              r.error == AppError(NETWORK_ERROR, MessageOr(outcome.error, UnknownErrorMessage),
                                  StatusCheckUserMessage, true)
  {
    if !mounted then Ignore
    else
      match outcome
      case Failure(e) =>
        Fail(AppError(NETWORK_ERROR, MessageOr(e, UnknownErrorMessage), StatusCheckUserMessage, true))
      case Success(status) =>
        if status.status == Completed && Truthy(status.videoUrl) then Finish(status.videoUrl.value)
        else if status.status == Failed then
          Fail(AppError(GENERATION_FAILED,
                        if Truthy(status.error) then status.error.value else GenerationFailedDefault,
                        GenerationFailedUserMessage, true))
        else KeepPolling
  }

  /** The store writes of a reaction. */
  function ApplyReaction(s: AppState, r: PollReaction): AppState
  {
    match r
    case Finish(url) => s.(generatedVideoUrl := Some(url), isProcessing := false)
    case Fail(e) => s.(error := Some(e), isProcessing := false)
    case _ => s
  }

  /** The reaction to the response of one status request issued while mounted. */
  function Reaction(outcome: FetchOutcome<StatusResponse>): PollReaction
  {
    PollStep(true, CheckGenerationStatus(outcome))
  }

  /**
   * A status check that fails for any reason reaches the screen as the plain
   * record the client throws, which is not an Error instance: the recorded
   * message is always "Unknown error", and neither the HTTP line nor the
   * client's own user message survives.
   */
  lemma FailedStatusCheckMessage(outcome: FetchOutcome<StatusResponse>)
    ensures CheckGenerationStatus(outcome).Failure? ==>
              Reaction(outcome) == Fail(AppError(NETWORK_ERROR, UnknownErrorMessage, StatusCheckUserMessage, true))
    ensures outcome.Responded? && !IsOkStatus(outcome.status) ==> Reaction(outcome).Fail?
  {
    JsonCallFailures(outcome);
  }

  /**
   * Every failure the polling records is shown with a retry button, and both
   * of the panel's buttons clear it and lead back to the start screen.
   */
  lemma PollFailureOffersRetryHome(outcome: FetchOutcome<StatusResponse>)
    requires Reaction(outcome).Fail?
    ensures var e := Reaction(outcome).error;
            var panel := ErrorDisplay.Render(Some(e));
            panel.Some? && panel.value.retryButton && panel.value.dismissButton
            && ErrorDisplay.HandleRetry(e) == ErrorDisplay.Reaction(None, ErrorDisplay.NavigateTo(HomeRoute))
            && ErrorDisplay.HandleRetry(e) == ErrorDisplay.HandleDismiss(e)
  {
    ErrorDisplay.RetryAndDismissAgree(Reaction(outcome).error);
  }

  /** The outcome of the polling session, from the first request to the one that settled it. */
  datatype PollRun = PollRun(state: AppState, polls: nat, route: Option<string>, settled: bool)

  /**
   * Polling over the successive responses: each response that keeps the job
   * going leads to the next request; the first terminal one applies its writes
   * and clears the interval. Running out of responses stands for the screen
   * still waiting (or being unmounted, after which nothing more happens).
   */
  function RunPolls(s: AppState, outcomes: seq<FetchOutcome<StatusResponse>>): PollRun
    decreases |outcomes|
  {
    if |outcomes| == 0 then PollRun(s, 0, None, false)
    else
      var r := Reaction(outcomes[0]);
      if r.KeepPolling? then
        var rest := RunPolls(s, outcomes[1..]);
        rest.(polls := rest.polls + 1)
      else
        PollRun(ApplyReaction(s, r), 1, if r.Finish? then Some(ResultRoute) else None, true)
  }

  /** Index of the first response that ends the polling, if any. */
  function FirstTerminal(outcomes: seq<FetchOutcome<StatusResponse>>): (k: Option<nat>)
    ensures k.Some? ==> k.value < |outcomes| && Terminal(Reaction(outcomes[k.value]))
                        && forall j :: 0 <= j < k.value ==> Reaction(outcomes[j]).KeepPolling?
    ensures k.None? ==> forall j :: 0 <= j < |outcomes| ==> Reaction(outcomes[j]).KeepPolling?
    decreases |outcomes|
  {
    if |outcomes| == 0 then None
    else if !Reaction(outcomes[0]).KeepPolling? then Some(0)
    else
      match FirstTerminal(outcomes[1..])
      case None => None
      case Some(k) => Some(k + 1)
  }

  /**
   * Polling stops exactly at the first terminal response: that many requests
   * were issued, only that response's writes reach the store, processing is
   * over, and the result route is taken only with a non-empty video URL.
   * Without a terminal response every response was consumed and the store is
   * untouched.
   */
  lemma {:induction false} PollingStopsAtFirstTerminal(s: AppState, outcomes: seq<FetchOutcome<StatusResponse>>)
    ensures var run := RunPolls(s, outcomes);
            var k := FirstTerminal(outcomes);
            (run.settled <==> k.Some?)
            && (k.Some? ==> run.polls == k.value + 1
                            && run.state == ApplyReaction(s, Reaction(outcomes[k.value]))
                            && !run.state.isProcessing)
            && (k.None? ==> run.polls == |outcomes| && run.state == s && run.route.None?)
            && (run.route.Some? ==> run.route == Some(ResultRoute) && Truthy(run.state.generatedVideoUrl))
    decreases |outcomes|
  {
    if |outcomes| > 0 && Reaction(outcomes[0]).KeepPolling? {
      PollingStopsAtFirstTerminal(s, outcomes[1..]);
      var k := FirstTerminal(outcomes[1..]);
      if k.Some? {
        assert outcomes[k.value + 1] == outcomes[1..][k.value];
      }
    }
  }

  /** Responses that keep the job going leave the rest of the run unchanged but for the count. */
  lemma {:induction false} RunPollsSkip(s: AppState, outcomes: seq<FetchOutcome<StatusResponse>>, i: nat)
    requires i <= |outcomes|
    requires forall j :: 0 <= j < i ==> Reaction(outcomes[j]).KeepPolling?
    ensures RunPolls(s, outcomes) == RunPolls(s, outcomes[i..]).(polls := RunPolls(s, outcomes[i..]).polls + i)
    decreases i
  {
    if i > 0 {
      assert outcomes[1..][i - 1..] == outcomes[i..];
      RunPollsSkip(s, outcomes[1..], i - 1);
    }
  }

  /** What the screen does on mount. */
  datatype MountEffect = RedirectHome | StartPolling(jobId: string)

  /** A missing or empty job id sends the user home and starts no polling. */
  function OnMount(jobId: Option<string>): (m: MountEffect)
    ensures m.RedirectHome? <==> !Truthy(jobId)
    ensures m.StartPolling? ==> jobId == Some(m.jobId)
  {
    if Truthy(jobId) then StartPolling(jobId.value) else RedirectHome
  }

  /**
   * Polling as the screen runs it: one status request per iteration, until
   * a terminal reaction clears the interval or the responses run out.
   */
  method PollUntilSettled(store: AppStore, outcomes: seq<FetchOutcome<StatusResponse>>)
      returns (polls: nat, route: Option<string>, settled: bool)
    modifies store
    ensures PollRun(store.State(), polls, route, settled) == RunPolls(old(store.State()), outcomes)
  {
    var s0 := store.State();
    var i := 0;
    polls, route, settled := 0, None, false;
    while i < |outcomes| && !settled
      invariant 0 <= i <= |outcomes|
      invariant !settled ==> polls == i && store.State() == s0 && route.None?
      invariant !settled ==> forall j :: 0 <= j < i ==> Reaction(outcomes[j]).KeepPolling?
      invariant settled ==> PollRun(store.State(), polls, route, settled) == RunPolls(s0, outcomes)
      decreases |outcomes| - i, if settled then 0 else 1
    {
      var r := PollStep(true, CheckGenerationStatus(outcomes[i]));
      if r.Finish? {
        RunPollsSkip(s0, outcomes, i);
        store.SetGeneratedVideoUrl(Some(r.url));
        store.SetIsProcessing(false);
        polls, route, settled := polls + 1, Some(ResultRoute), true;
      } else if r.Fail? {
        RunPollsSkip(s0, outcomes, i);
        store.SetError(Some(r.error));
        store.SetIsProcessing(false);
        polls, settled := polls + 1, true;
      } else {
        polls := polls + 1;
        i := i + 1;
      }
    }
    if !settled {
      RunPollsSkip(s0, outcomes, i);
    }
  }

  /**
   * The mount effect: home without a job id, otherwise the polling session.
   */
  method Mount(store: AppStore, outcomes: seq<FetchOutcome<StatusResponse>>)
      returns (polls: nat, route: Option<string>)
    modifies store
    ensures !Truthy(old(store.jobId)) ==> polls == 0 && route == Some(HomeRoute) && store.State() == old(store.State())
    ensures Truthy(old(store.jobId)) ==>
              var run := RunPolls(old(store.State()), outcomes);
              store.State() == run.state && polls == run.polls && route == run.route
  {
    match OnMount(store.jobId) {
      case RedirectHome =>
        polls, route := 0, Some(HomeRoute);
      case StartPolling(_) =>
        var settled;
        polls, route, settled := PollUntilSettled(store, outcomes);
    }
  }
}
