/** RetryingHTTPOperation: runs an idempotent HTTP request and retries it
    after failures that are likely to go away. Each attempt is a
    QHTTPOperation; after a retryable failure it waits for the first of a
    random back-off timer, a reachability change of the host from unreachable
    to reachable, or another request to the same host succeeding, and then
    retries. The attempt, the timer, the reachability watch and the
    success notification are children it owns; their completions are input
    events here. */
module RetryingHTTPOperation {
  import opened Foundation
  import RunLoopOperation
  import HTTPOperation
  import ReachabilityOperation

  datatype RetryState = NotStarted | Getting | WaitingToRetry | Retrying | Finished

  /** The moves of the retry machine. Finished has no successor. */
  function Transition(from: RetryState, to: RetryState): (allowed: bool)
    ensures allowed ==> to != NotStarted && to != from
    ensures allowed && to == Getting ==> from == NotStarted
    ensures allowed && to == Retrying ==> from == WaitingToRetry
    ensures allowed && to == WaitingToRetry ==> from == Getting || from == Retrying
    ensures to == Finished ==> (allowed <==> from != Finished)
  {
    match from
    case NotStarted => to == Getting || to == Finished
    case Getting => to == WaitingToRetry || to == Finished
    case WaitingToRetry => to == Retrying || to == Finished
    case Retrying => to == WaitingToRetry || to == Finished
    case Finished => false
  }

  /** The retry states an operation has gone through: it is created in
      NotStarted, and each later state is appended as the machine moves. */
  datatype History = Created | Then(earlier: History, state: RetryState)

  /** The current state at the end of a history. */
  function Latest(history: History): RetryState {
    match history
    case Created => NotStarted
    case Then(_, state) => state
  }

  /** Each appended state is a move from the one before it. */
  ghost predicate ValidHistory(history: History) {
    match history
    case Created => true
    case Then(earlier, state) => ValidHistory(earlier) && Transition(Latest(earlier), state)
  }

  /** How many times `state` occurs in `history`. */
  function Count(history: History, state: RetryState): nat {
    match history
    case Created => if state == NotStarted then 1 else 0
    case Then(earlier, s) => Count(earlier, state) + (if s == state then 1 else 0)
  }

  /** What the retry count and `hasHadRetryableFailure` say about the
      history: the count is the number of retries started and the flag is
      set once a retryable failure has happened. */
  ghost predicate HistoryInvariant(history: History, retryState: RetryState, retryCount: nat,
                                   hasHadRetryableFailure: bool) {
    && ValidHistory(history)
    && Latest(history) == retryState
    && retryCount == Count(history, Retrying)
    && (hasHadRetryableFailure <==> Count(history, WaitingToRetry) > 0)
  }

  /** Every wait for a retry is followed by one retry, unless the operation
      finished while waiting: while waiting there has been one more failure
      than retries, in the other running states as many, and at the end at
      most one more. The operation is created once, and Finished occurs
      once at most, as the last state. */
  lemma {:induction false} HistoryCounts(history: History)
    requires ValidHistory(history)
    ensures var last := Latest(history);
      && (last == WaitingToRetry ==> Count(history, WaitingToRetry) == Count(history, Retrying) + 1)
      && (last != WaitingToRetry && last != Finished ==> Count(history, WaitingToRetry) == Count(history, Retrying))
      && (last == Finished ==> Count(history, Retrying) <= Count(history, WaitingToRetry) <= Count(history, Retrying) + 1)
      && Count(history, NotStarted) == 1
      && Count(history, Getting) <= 1
      && Count(history, Finished) == (if last == Finished then 1 else 0)
  {
    match history
    case Created =>
    case Then(earlier, _) => HistoryCounts(earlier);
  }

  /** Ceilings of the random back-off, in seconds: one second, one minute,
      one hour and six hours (kRetryDelays). */
  const RetryDelays: seq<nat> := [1, 60, 3600, 21600]

  /** The ceiling of the delay after a failure, indexed by the retries
      started so far and capped at the last entry. */
  function MaxRetryDelay(retryCount: nat): (ceiling: nat)
    ensures 1 <= ceiling <= 21600
    ensures retryCount < |RetryDelays| ==> ceiling == RetryDelays[retryCount]
    ensures retryCount >= |RetryDelays| - 1 ==> ceiling == 21600
  {
    RetryDelays[if retryCount < |RetryDelays| - 1 then retryCount else |RetryDelays| - 1]
  }

  /** Each failure raises the ceiling or keeps it, up to the overall limit. */
  lemma MaxRetryDelayIsMonotonic(m: nat, n: nat)
    requires m <= n
    ensures MaxRetryDelay(m) <= MaxRetryDelay(n)
  {
  }

  /** The delay actually waited: `draw`, the random fraction in [0, 1), of
      the ceiling. */
  function RetryDelay(retryCount: nat, draw: real): (delay: real)
    requires 0.0 <= draw < 1.0
    ensures 0.0 <= delay < MaxRetryDelay(retryCount) as real
    ensures draw == 0.0 ==> delay == 0.0
  {
    draw * MaxRetryDelay(retryCount) as real
  }

  /** `shouldRetryAfterError:`: transport errors are retried, as are
      server-side (5xx) status codes; client-side status codes such as 404,
      the module's own errors (too large, output stream, content type) and
      cancellation are not, since retrying would not change the result. */
  function ShouldRetryAfterError(e: NSError): (retry: bool)
    ensures e.domain == QHTTPOperationErrorDomain && 400 <= e.code <= 499 ==> !retry
    ensures e.domain == QHTTPOperationErrorDomain && e.code < 0 ==> !retry
    ensures e.domain == QHTTPOperationErrorDomain && 500 <= e.code <= 599 ==> retry
    ensures e == RunLoopOperation.UserCancelledError() ==> !retry
    ensures e.domain == URLErrorDomain || e.domain == POSIXErrorDomain ==> retry
    ensures e.domain == CocoaErrorDomain && e.code != NSUserCancelledError ==> retry
  {
    match e.domain
    case QHTTPOperationErrorDomain => 500 <= e.code <= 599
    case CocoaErrorDomain => e.code != NSUserCancelledError
    case URLErrorDomain => true
    case POSIXErrorDomain => true
  }

  /** The module's own failures of an attempt (a body too large for
      memory, a failed write to the output stream, a refused content type)
      would recur on a retry, so they end the operation. */
  lemma ModuleFailuresAreTerminal()
    ensures !ShouldRetryAfterError(NSError(QHTTPOperationErrorDomain, HTTPOperation.ErrorResponseTooLarge))
    ensures !ShouldRetryAfterError(HTTPOperation.OutputStreamFailure)
    ensures !ShouldRetryAfterError(NSError(QHTTPOperationErrorDomain, HTTPOperation.ErrorBadContentType))
  {
  }

  /** The QHTTPOperation started for one attempt, by how it was configured. */
  datatype Attempt = Attempt(request: URLRequest, acceptableContentTypes: Option<set<string>>, toFile: bool)

  /** How an attempt ended: its error, last response and in-memory body. */
  datatype AttemptOutcome = AttemptOutcome(error: Option<NSError>, response: Option<HTTPURLResponse>, body: Option<seq<Byte>>)

  /** The QReachabilityOperation watching the request's host, by its target. */
  datatype ReachabilityWait = ReachabilityWait(
    hostName: string, flagsTargetMask: ReachabilityOperation.Flags, flagsTargetValue: ReachabilityOperation.Flags)

  /** First phase of the wait: until the host is unreachable. */
  function WaitForUnreachable(hostName: string): ReachabilityWait {
    ReachabilityWait(hostName, ReachabilityOperation.Reachable, 0)
  }

  /** Second phase of the wait: until the host is reachable again. */
  function WaitForReachable(hostName: string): ReachabilityWait {
    ReachabilityWait(hostName, ReachabilityOperation.Reachable, ReachabilityOperation.Reachable)
  }

  /** Which children are live in each retry state: the attempt while
      getting or retrying, and the timer, the reachability watch and the
      success notification while waiting to retry. */
  predicate ChildrenLive(retryState: RetryState, attempt: bool, timer: bool, watch: bool, notification: bool) {
    && (attempt <==> retryState == Getting || retryState == Retrying)
    && (timer <==> retryState == WaitingToRetry)
    && (watch <==> retryState == WaitingToRetry)
    && (notification <==> retryState == WaitingToRetry)
  }

  ghost predicate MachineInvariant(history: History, retryState: RetryState, retryCount: nat, hasHadRetryableFailure: bool,
                                   networkOperation: Option<Attempt>, retryTimer: Option<real>,
                                   reachabilityOperation: Option<ReachabilityWait>, notificationInstalled: bool,
                                   request: URLRequest, acceptableContentTypes: Option<set<string>>,
                                   responseFilePath: Option<string>, response: Option<HTTPURLResponse>,
                                   responseContent: Option<seq<Byte>>) {
    && HistoryInvariant(history, retryState, retryCount, hasHadRetryableFailure)
    && ChildrenLive(retryState, networkOperation.Some?, retryTimer.Some?, reachabilityOperation.Some?, notificationInstalled)
    && (networkOperation.Some? ==> networkOperation.value == Attempt(request, acceptableContentTypes, responseFilePath.Some?))
    && (reachabilityOperation.Some? ==>
          reachabilityOperation.value == WaitForUnreachable(request.url.host)
          || reachabilityOperation.value == WaitForReachable(request.url.host))
    && (retryState != Finished ==> response.None? && responseContent.None?)
    && (responseFilePath.Some? ==> responseContent.None?)
  }

  /** A retryable failure ends the attempt and starts the three waiters. */
  lemma EnterWaitingToRetry(history: History, retryState: RetryState, retryCount: nat, hasHadRetryableFailure: bool,
                            attempt: Attempt, delay: real, request: URLRequest,
                            acceptableContentTypes: Option<set<string>>, responseFilePath: Option<string>,
                            response: Option<HTTPURLResponse>, responseContent: Option<seq<Byte>>)
    requires MachineInvariant(history, retryState, retryCount, hasHadRetryableFailure, Some(attempt), None, None, false,
                              request, acceptableContentTypes, responseFilePath, response, responseContent)
    ensures MachineInvariant(Then(history, WaitingToRetry), WaitingToRetry, retryCount, true, None, Some(delay),
                             Some(WaitForUnreachable(request.url.host)), true,
                             request, acceptableContentTypes, responseFilePath, response, responseContent)
    ensures Count(Then(history, WaitingToRetry), WaitingToRetry) == retryCount + 1
  {
    HistoryCounts(history);
  }

  /** Finishing stops every child. */
  lemma EnterFinished(history: History, retryState: RetryState, retryCount: nat, hasHadRetryableFailure: bool,
                      networkOperation: Option<Attempt>, retryTimer: Option<real>,
                      reachabilityOperation: Option<ReachabilityWait>, notificationInstalled: bool,
                      request: URLRequest, acceptableContentTypes: Option<set<string>>, responseFilePath: Option<string>,
                      response: Option<HTTPURLResponse>, responseContent: Option<seq<Byte>>)
    requires MachineInvariant(history, retryState, retryCount, hasHadRetryableFailure, networkOperation, retryTimer,
                              reachabilityOperation, notificationInstalled,
                              request, acceptableContentTypes, responseFilePath, response, responseContent)
    requires retryState != Finished
    ensures MachineInvariant(Then(history, Finished), Finished, retryCount, hasHadRetryableFailure, None, None, None, false,
                             request, acceptableContentTypes, responseFilePath, response, responseContent)
  {
  }

  /** A retry cancels the three waiters and starts the next attempt. */
  lemma EnterRetrying(history: History, retryCount: nat, hasHadRetryableFailure: bool,
                      retryTimer: Option<real>, reachabilityOperation: Option<ReachabilityWait>,
                      request: URLRequest, acceptableContentTypes: Option<set<string>>, responseFilePath: Option<string>,
                      response: Option<HTTPURLResponse>, responseContent: Option<seq<Byte>>)
    requires MachineInvariant(history, WaitingToRetry, retryCount, hasHadRetryableFailure, None, retryTimer,
                              reachabilityOperation, true,
                              request, acceptableContentTypes, responseFilePath, response, responseContent)
    ensures MachineInvariant(Then(history, Retrying), Retrying, retryCount + 1, hasHadRetryableFailure,
                             Some(Attempt(request, acceptableContentTypes, responseFilePath.Some?)), None, None, false,
                             request, acceptableContentTypes, responseFilePath, response, responseContent)
  {
  }

  class RetryingHTTPOperation {
    const op: RunLoopOperation.Operation
    const request: URLRequest
    var acceptableContentTypes: Option<set<string>>
    var responseFilePath: Option<string>
    var response: Option<HTTPURLResponse>
    var responseContent: Option<seq<Byte>>
    var retryState: RetryState
    var retryStateClient: RetryState
    var networkOperation: Option<Attempt>
    var hasHadRetryableFailure: bool
    var retryCount: nat
    /** The armed back-off timer, by its delay in seconds. */
    var retryTimer: Option<real>
    var reachabilityOperation: Option<ReachabilityWait>
    var notificationInstalled: bool
    /** Every retry state so far. */
    ghost var history: History

    ghost predicate Valid()
      reads this, op
    {
      && op.Valid()
      && (retryState == NotStarted <==> op.state == RunLoopOperation.Inited)
      && (retryState == Finished <==> op.state == RunLoopOperation.Finished)
      && MachineInvariant(history, retryState, retryCount, hasHadRetryableFailure, networkOperation, retryTimer,
                          reachabilityOperation, notificationInstalled, request, acceptableContentTypes,
                          responseFilePath, response, responseContent)
    }

    /** Neither the configuration nor the client mirror changes. */
    twostate predicate KeepsSettings()
      reads this
    {
      && acceptableContentTypes == old(acceptableContentTypes)
      && responseFilePath == old(responseFilePath)
      && retryStateClient == old(retryStateClient)
    }

    /** `initWithRequest:`. */
    constructor (request: URLRequest)
      ensures Valid() && fresh(op)
      ensures this.request == request && op.state == RunLoopOperation.Inited && !op.cancelled
      ensures retryState == NotStarted && retryStateClient == NotStarted && retryCount == 0
      ensures !hasHadRetryableFailure && acceptableContentTypes.None? && responseFilePath.None?
      ensures history == Created
    {
      op := new RunLoopOperation.Operation();
      this.request := request;
      acceptableContentTypes := None;
      responseFilePath := None;
      response := None;
      responseContent := None;
      retryState := NotStarted;
      retryStateClient := NotStarted;
      networkOperation := None;
      hasHadRetryableFailure := false;
      retryCount := 0;
      retryTimer := None;
      reachabilityOperation := None;
      notificationInstalled := false;
      history := Created;
    }

    /** Configured before queuing only. */
    method SetAcceptableContentTypes(types: Option<set<string>>)
      requires Valid() && op.state == RunLoopOperation.Inited
      modifies this`acceptableContentTypes
      ensures Valid() && acceptableContentTypes == types
    {
      acceptableContentTypes := types;
    }

    /** Configured before queuing only. */
    method SetResponseFilePath(path: Option<string>)
      requires Valid() && op.state == RunLoopOperation.Inited
      modifies this`responseFilePath
      ensures Valid() && responseFilePath == path
    {
      responseFilePath := path;
    }

    /** `start`; `operationDidStart` starts the first attempt. An operation
        cancelled before it started goes straight to Finished. */
    method Start()
      requires Valid() && op.state == RunLoopOperation.Inited
      modifies this, op
      ensures Valid() && op.cancelled == old(op.cancelled)
      ensures !op.cancelled ==> retryState == Getting && networkOperation == Some(Attempt(request, acceptableContentTypes, responseFilePath.Some?))
      ensures op.cancelled ==> retryState == Finished && op.error == Some(RunLoopOperation.UserCancelledError())
      ensures history == Then(old(history), retryState) && KeepsSettings()
      ensures retryCount == old(retryCount) && hasHadRetryableFailure == old(hasHadRetryableFailure)
      ensures response.None? && responseContent.None?
    {
      var runDidStart := op.Start();
      if runDidStart {
        retryState := Getting;
        networkOperation := Some(Attempt(request, acceptableContentTypes, responseFilePath.Some?));
      } else {
        retryState := Finished;
      }
      history := Then(history, retryState);
    }

    /** `networkOperationDone:`: a success keeps the response (and the body,
        unless it went to the response file), finishes, and tells waiting
        operations on the same host; a retryable failure arms the back-off
        timer with a delay below the current ceiling, starts watching the
        host's reachability and listens for other requests' successes; any
        other failure finishes with the attempt's error. */
    method NetworkOperationDone(outcome: AttemptOutcome, draw: real) returns (succeededHost: Option<string>)
      requires Valid() && networkOperation.Some?
      requires outcome.error.None? ==> outcome.response.Some?
      requires 0.0 <= draw < 1.0
      modifies this, op
      ensures Valid() && history == Then(old(history), retryState) && op.cancelled == old(op.cancelled)
      ensures KeepsSettings() && retryCount == old(retryCount)
      ensures succeededHost.Some? <==> outcome.error.None?
      ensures outcome.error.None? ==>
        retryState == Finished && op.error.None? && succeededHost == Some(request.url.host)
        && response == outcome.response
        && responseContent == (if responseFilePath.Some? then None else outcome.body)
      ensures outcome.error.Some? && ShouldRetryAfterError(outcome.error.value) ==>
        retryState == WaitingToRetry && hasHadRetryableFailure
        && retryTimer == Some(RetryDelay(retryCount, draw))
        && reachabilityOperation == Some(WaitForUnreachable(request.url.host))
        && notificationInstalled
        && Count(history, WaitingToRetry) == retryCount + 1
      ensures outcome.error.Some? && !ShouldRetryAfterError(outcome.error.value) ==>
        retryState == Finished && op.error == outcome.error && hasHadRetryableFailure == old(hasHadRetryableFailure)
      ensures outcome.error.Some? ==> response.None? && responseContent.None?
    {
      succeededHost := None;
      if outcome.error.None? {
        FinishWithError(None);
        response := outcome.response;
        responseContent := if responseFilePath.Some? then None else outcome.body;
        succeededHost := Some(request.url.host);
      } else if ShouldRetryAfterError(outcome.error.value) {
        StartWaiting(RetryDelay(retryCount, draw));
      } else {
        FinishWithError(outcome.error);
      }
    }

    /** After a retryable failure: arm the timer with `delay`, watch the
        host until it is unreachable, and listen for other requests'
        successes. */
    method StartWaiting(delay: real)
      requires Valid() && networkOperation.Some?
      modifies this
      ensures Valid() && history == Then(old(history), WaitingToRetry)
      ensures retryState == WaitingToRetry && hasHadRetryableFailure && networkOperation.None?
      ensures retryTimer == Some(delay) && notificationInstalled
      ensures reachabilityOperation == Some(WaitForUnreachable(request.url.host))
      ensures Count(history, WaitingToRetry) == retryCount + 1
      ensures KeepsSettings() && retryCount == old(retryCount)
      ensures response == old(response) && responseContent == old(responseContent)
    {
      EnterWaitingToRetry(history, retryState, retryCount, hasHadRetryableFailure, networkOperation.value, delay, request,
                          acceptableContentTypes, responseFilePath, response, responseContent);
      networkOperation := None;
      hasHadRetryableFailure := true;
      retryState := WaitingToRetry;
      history := Then(history, WaitingToRetry);
      retryTimer := Some(delay);
      reachabilityOperation := Some(WaitForUnreachable(request.url.host));
      notificationInstalled := true;
    }

    /** `retryTimerDone:`: the back-off delay has passed; retry now. */
    method RetryTimerDone()
      requires Valid() && retryState == WaitingToRetry
      modifies this
      ensures Valid() && history == Then(old(history), Retrying)
      ensures retryState == Retrying && retryCount == old(retryCount) + 1
      ensures networkOperation == Some(Attempt(request, acceptableContentTypes, responseFilePath.Some?))
      ensures KeepsSettings() && hasHadRetryableFailure == old(hasHadRetryableFailure)
      ensures response == old(response) && responseContent == old(responseContent)
    {
      RetryNow();
    }

    /** The reachability watch's completion, fed the host's new flags. The
        first phase ends when the host becomes unreachable and starts the
        second; the second ends when it is reachable again, and then the
        operation retries at once. Flags that reach neither target change
        nothing. */
    method ReachabilitySetFlags(flags: ReachabilityOperation.Flags)
      requires Valid() && retryState == WaitingToRetry
      modifies this
      ensures Valid() && KeepsSettings() && hasHadRetryableFailure == old(hasHadRetryableFailure)
      ensures response == old(response) && responseContent == old(responseContent)
      ensures retryState == WaitingToRetry ==> retryTimer == old(retryTimer)
      ensures var wait := old(reachabilityOperation.value);
        && (!ReachabilityOperation.TargetReached(flags, wait.flagsTargetMask, wait.flagsTargetValue) ==>
              retryState == WaitingToRetry && reachabilityOperation == old(reachabilityOperation)
              && history == old(history) && retryCount == old(retryCount))
        && (ReachabilityOperation.TargetReached(flags, wait.flagsTargetMask, wait.flagsTargetValue)
            && wait == WaitForUnreachable(request.url.host) ==>
              retryState == WaitingToRetry && reachabilityOperation == Some(WaitForReachable(request.url.host))
              && history == old(history) && retryCount == old(retryCount))
        && (ReachabilityOperation.TargetReached(flags, wait.flagsTargetMask, wait.flagsTargetValue)
            && wait == WaitForReachable(request.url.host) ==>
              retryState == Retrying && retryCount == old(retryCount) + 1
              && history == Then(old(history), Retrying))
    {
      var wait := reachabilityOperation.value;
      if ReachabilityOperation.TargetReached(flags, wait.flagsTargetMask, wait.flagsTargetValue) {
        if wait == WaitForUnreachable(request.url.host) {
          reachabilityOperation := Some(WaitForReachable(request.url.host));
        } else {
          RetryNow();
        }
      }
    }

    /** The notification that some request succeeded: a retry is started
        at once when this operation is waiting and the host is its own. */
    method TransferDidSucceed(host: string)
      requires Valid()
      modifies this
      ensures Valid() && KeepsSettings() && hasHadRetryableFailure == old(hasHadRetryableFailure)
      ensures response == old(response) && responseContent == old(responseContent)
      ensures old(retryState) == WaitingToRetry && host == request.url.host ==>
        retryState == Retrying && retryCount == old(retryCount) + 1 && history == Then(old(history), Retrying)
      ensures !(old(retryState) == WaitingToRetry && host == request.url.host) ==>
        retryState == old(retryState) && retryCount == old(retryCount) && history == old(history)
        && networkOperation == old(networkOperation) && retryTimer == old(retryTimer)
        && reachabilityOperation == old(reachabilityOperation)
    {
      if notificationInstalled && host == request.url.host {
        RetryNow();
      }
    }

    /** Cancels the timer, the reachability watch and the notification, and
        starts the next attempt. */
    method RetryNow()
      requires Valid() && retryState == WaitingToRetry
      modifies this
      ensures Valid() && history == Then(old(history), Retrying)
      ensures retryState == Retrying && retryCount == old(retryCount) + 1
      ensures networkOperation == Some(Attempt(request, acceptableContentTypes, responseFilePath.Some?))
      ensures KeepsSettings() && hasHadRetryableFailure == old(hasHadRetryableFailure)
      ensures response == old(response) && responseContent == old(responseContent)
    {
      EnterRetrying(history, retryCount, hasHadRetryableFailure, retryTimer, reachabilityOperation, request,
                    acceptableContentTypes, responseFilePath, response, responseContent);
      retryTimer := None;
      reachabilityOperation := None;
      notificationInstalled := false;
      retryCount := retryCount + 1;
      retryState := Retrying;
      history := Then(history, Retrying);
      networkOperation := Some(Attempt(request, acceptableContentTypes, responseFilePath.Some?));
    }

    /** `cancel`. */
    method Cancel() returns (runCancelOnRunLoopThread: bool)
      requires Valid()
      modifies op`cancelled
      ensures Valid() && op.cancelled
      ensures runCancelOnRunLoopThread == (!old(op.cancelled) && op.state == RunLoopOperation.Executing)
    {
      runCancelOnRunLoopThread := op.Cancel();
    }

    /** The run loop half of `cancel`: every live child is cancelled and the
        operation finishes with the cancellation error. */
    method CancelOnRunLoopThread()
      requires Valid() && op.state != RunLoopOperation.Inited
      modifies this, op
      ensures Valid() && retryState == Finished && KeepsSettings()
      ensures retryCount == old(retryCount) && hasHadRetryableFailure == old(hasHadRetryableFailure)
      ensures response == old(response) && responseContent == old(responseContent)
      ensures networkOperation.None? && retryTimer.None? && reachabilityOperation.None? && !notificationInstalled
      ensures old(op.state) == RunLoopOperation.Executing ==> op.error == Some(RunLoopOperation.UserCancelledError())
      ensures old(op.state) == RunLoopOperation.Finished ==> op.error == old(op.error) && history == old(history)
    {
      if op.state == RunLoopOperation.Executing {
        FinishWithError(Some(RunLoopOperation.UserCancelledError()));
      }
    }

    /** `finishWithError:` with this class's `operationWillFinish`: every live
        child is cancelled and the retry state becomes Finished. */
    method FinishWithError(e: Option<NSError>)
      requires Valid() && op.state == RunLoopOperation.Executing
      modifies this, op
      ensures Valid() && retryState == Finished && op.state == RunLoopOperation.Finished
      ensures op.error == e && op.cancelled == old(op.cancelled)
      ensures networkOperation.None? && retryTimer.None? && reachabilityOperation.None? && !notificationInstalled
      ensures history == Then(old(history), Finished) && KeepsSettings()
      ensures retryCount == old(retryCount) && hasHadRetryableFailure == old(hasHadRetryableFailure)
      ensures response == old(response) && responseContent == old(responseContent)
    {
      EnterFinished(history, retryState, retryCount, hasHadRetryableFailure, networkOperation, retryTimer,
                    reachabilityOperation, notificationInstalled, request, acceptableContentTypes, responseFilePath,
                    response, responseContent);
      networkOperation := None;
      retryTimer := None;
      reachabilityOperation := None;
      notificationInstalled := false;
      retryState := Finished;
      history := Then(history, Finished);
      op.FinishWithError(e);
    }

    /** The client-thread mirror of the retry state catches up. */
    method PublishClientState()
      requires Valid()
      modifies this`retryStateClient
      ensures Valid() && retryStateClient == retryState
    {
      retryStateClient := retryState;
    }
  }
}
