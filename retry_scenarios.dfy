/** Whole runs of a RetryingHTTPOperation, driven by the completions of its
    children. Each run builds a fresh operation, so the results depend on
    the inputs alone. */
module RetryScenarios {
  import opened Foundation
  import RunLoopOperation
  import ReachabilityOperation
  import opened RetryingHTTPOperation

  /** A status code the server reported as an error of the module's domain. */
  function StatusError(code: int): NSError {
    NSError(QHTTPOperationErrorDomain, code)
  }

  /** A 404 is not worth retrying: the operation finishes at once with that
      error, without ever waiting. */
  method NotFoundIsNotRetried(request: URLRequest)
    returns (state: RetryState, retries: nat, hadRetryableFailure: bool, error: Option<NSError>)
    ensures state == Finished && retries == 0 && !hadRetryableFailure
    ensures error == Some(StatusError(404))
  {
    var r := new RetryingHTTPOperation(request);
    r.Start();
    var _ := r.NetworkOperationDone(AttemptOutcome(Some(StatusError(404)), None, None), 0.5);
    state, retries, hadRetryableFailure, error := r.retryState, r.retryCount, r.hasHadRetryableFailure, r.op.error;
  }

  /** A 503 makes the operation wait less than the first ceiling, one
      second; when the timer fires it retries, and the retry's success ends
      it with the response and body. */
  method ServerErrorThenSuccess(request: URLRequest, draw: real, response: HTTPURLResponse, body: seq<Byte>)
    returns (delay: real, retries: nat, result: Option<HTTPURLResponse>, content: Option<seq<Byte>>,
             error: Option<NSError>)
    requires 0.0 <= draw < 1.0
    ensures 0.0 <= delay < 1.0
    ensures retries == 1 && result == Some(response) && content == Some(body) && error.None?
  {
    var r := new RetryingHTTPOperation(request);
    r.Start();
    var _ := r.NetworkOperationDone(AttemptOutcome(Some(StatusError(503)), None, None), draw);
    delay := r.retryTimer.value;
    r.RetryTimerDone();
    var _ := r.NetworkOperationDone(AttemptOutcome(None, Some(response), Some(body)), 0.0);
    retries, result, content, error := r.retryCount, r.response, r.responseContent, r.op.error;
  }

  /** `failures` transport errors in a row, each followed by the timer:
      the i-th wait is below the i-th ceiling of the back-off, the retries
      are counted, and the final success ends the operation. */
  method RetriesUntilSuccess(request: URLRequest, draws: seq<real>, response: HTTPURLResponse)
    returns (delays: seq<real>, retries: nat, error: Option<NSError>)
    requires forall i :: 0 <= i < |draws| ==> 0.0 <= draws[i] < 1.0
    ensures |delays| == |draws| && retries == |draws| && error.None?
    ensures forall i :: 0 <= i < |delays| ==> 0.0 <= delays[i] < MaxRetryDelay(i) as real
  {
    var r := new RetryingHTTPOperation(request);
    r.Start();
    delays := [];
    while |delays| < |draws|
      invariant fresh(r) && fresh(r.op) && r.Valid() && !r.op.cancelled
      invariant r.retryState == Getting || r.retryState == Retrying
      invariant r.retryCount == |delays| <= |draws|
      invariant forall i :: 0 <= i < |delays| ==> 0.0 <= delays[i] < MaxRetryDelay(i) as real
    {
      var failure := NSError(URLErrorDomain, -1001);
      var _ := r.NetworkOperationDone(AttemptOutcome(Some(failure), None, None), draws[|delays|]);
      delays := delays + [r.retryTimer.value];
      r.RetryTimerDone();
    }
    var _ := r.NetworkOperationDone(AttemptOutcome(None, Some(response), None), 0.0);
    retries, error := r.retryCount, r.op.error;
  }

  /** Two operations on the same host: while the second waits after a 503,
      the first succeeds, and the notification of that success makes the
      second retry before its timer fires. */
  method SiblingSuccessRetriesEarly(request: URLRequest, other: URLRequest, response: HTTPURLResponse, draw: real)
    returns (state: RetryState, retries: nat, timerArmed: bool)
    requires other.url.host == request.url.host
    requires 0.0 <= draw < 1.0
    ensures state == Retrying && retries == 1 && !timerArmed
  {
    var waiting := new RetryingHTTPOperation(request);
    var sibling := new RetryingHTTPOperation(other);
    waiting.Start();
    sibling.Start();
    var _ := waiting.NetworkOperationDone(AttemptOutcome(Some(StatusError(503)), None, None), draw);
    var host := sibling.NetworkOperationDone(AttemptOutcome(None, Some(response), None), 0.0);
    waiting.TransferDidSucceed(host.value);
    state, retries, timerArmed := waiting.retryState, waiting.retryCount, waiting.retryTimer.Some?;
  }

  /** A reachability round trip: while the host stays reachable nothing
      happens; once it has gone unreachable and come back, the operation
      retries without waiting for its timer. */
  method ReachabilityRoundTripRetries(request: URLRequest, draw: real)
    returns (stillWaiting: bool, secondPhase: bool, state: RetryState, retries: nat)
    requires 0.0 <= draw < 1.0
    ensures stillWaiting && secondPhase && state == Retrying && retries == 1
  {
    var r := new RetryingHTTPOperation(request);
    r.Start();
    var _ := r.NetworkOperationDone(AttemptOutcome(Some(NSError(POSIXErrorDomain, 61)), None, None), draw);
    r.ReachabilitySetFlags(ReachabilityOperation.Reachable);
    stillWaiting := r.retryState == WaitingToRetry && r.reachabilityOperation == Some(WaitForUnreachable(request.url.host));
    r.ReachabilitySetFlags(0);
    secondPhase := r.retryState == WaitingToRetry && r.reachabilityOperation == Some(WaitForReachable(request.url.host));
    r.ReachabilitySetFlags(ReachabilityOperation.Reachable);
    state, retries := r.retryState, r.retryCount;
  }

  /** Cancelling a waiting operation stops its timer, its reachability
      watch and its notification, and finishes it with the cancellation
      error. */
  method CancelWhileWaiting(request: URLRequest, draw: real)
    returns (runOnRunLoop: bool, state: RetryState, childrenLive: bool, error: Option<NSError>)
    requires 0.0 <= draw < 1.0
    ensures runOnRunLoop && state == Finished && !childrenLive
    ensures error == Some(RunLoopOperation.UserCancelledError())
  {
    var r := new RetryingHTTPOperation(request);
    r.Start();
    var _ := r.NetworkOperationDone(AttemptOutcome(Some(StatusError(500)), None, None), draw);
    runOnRunLoop := r.Cancel();
    r.CancelOnRunLoopThread();
    state, error := r.retryState, r.op.error;
    childrenLive := r.networkOperation.Some? || r.retryTimer.Some? || r.reachabilityOperation.Some? || r.notificationInstalled;
  }
}
