# SGBaseFramework networking core, modelled in Dafny

This project models the networking and logging core of SGBaseFramework, an
Objective-C framework for iOS. It covers:

- **QRunLoopOperation** (`run_loop_operation.dfy`): the abstract run-loop
  based operation. It has an Inited → Executing → Finished lifecycle and
  two override points, `operationDidStart` and `operationWillFinish`.
  `finishWithError:` records the error, and cancellation finishes with
  NSCocoaErrorDomain/NSUserCancelledError.
- **QHTTPOperation** (`http_operation.dfy`): one HTTP request. The model
  covers:
  - the acceptable status codes and content types, and the error
    `connectionDidFinishLoading:` finishes with;
  - latching the last request and response across redirects;
  - routing authentication to the delegate;
  - the choice, made on the first data chunk, between an in-memory body
    bounded by `maximumResponseSize` and an output stream written
    synchronously;
  - the module's error codes (-1, -2, -3, or a refused HTTP status).
- **QReachabilityOperation** (`reachability_operation.dfy`): runs until
  `(flags & flagsTargetMask) == flagsTargetValue`.
- **RetryingHTTPOperation** (`retrying_http_operation.dfy`,
  `retry_scenarios.dfy`): the retry state machine NotStarted → Getting →
  WaitingToRetry ⇄ Retrying → Finished. The model covers:
  - which errors are retried;
  - the random back-off with ceilings of 1 s, 1 min, 1 h and 6 h;
  - fast retry when the host goes from unreachable to reachable, or when
    another request to the same host succeeds;
  - `retryCount` and `hasHadRetryableFailure`;
  - tearing down every child (the attempt, the timer, the reachability
    watch and the notification) when it finishes.

  A ghost history of retry states ties the counters to the runs that
  produced them.
- **SGNetworkManager** (`network_manager.dfy`): the bookkeeping for queued
  operations. It keeps three tables keyed by operation (target, action and
  queuing thread) and the count of network transfers behind `networkInUse`.
  Network operations default to the networking thread. When a client
  cancels on the thread that queued the operation, `cancelOperation:`
  guarantees that the completion is never called once it returns
  (`SGNetworkManager.h:81-84`); it does nothing for nil or for an operation
  that is not queued.
- **QLog** (`qlog.dfy`): the in-memory log. It covers the pending entries,
  `flush` into a bounded `logEntries` that drops its oldest entries, `clear`,
  and option filtering by `optionsMask & (1 << option)`. The application's
  option numbers come from `Logging.h`.
- **SGMathShortcuts** (`math_shortcuts.dfy`): `sgRandomBounded` and
  `sgRandomBoolean` in 32-bit NSUInteger arithmetic.

`foundation.dfy` holds the Foundation types the core uses: NSError and its
domains, threads, URLs, requests, responses and bytes.

Each operation class holds a `RunLoopOperation.Operation` instead of
subclassing it. The subclass's `operationDidStart` / `operationWillFinish`
work happens around the calls to `Start` and `FinishWithError`.

Run loop callbacks are method calls whose inputs are the events they
receive: the connection's data, the reachability flags, a timer firing, a
finished operation. The random word `arc4random()` returns and the random
fraction of the back-off are parameters.

Where the headers allow more than one reading, the model makes these
choices:

- `retryCount` counts the retries started. The back-off ceiling after a
  failure is indexed by `min(retryCount, 3)`, so the first failure waits
  less than one second, as `RetryingHTTPOperation.h:24-28` lists the
  sequence. Incrementing the count before indexing would skip the
  one-second ceiling.
- The fast retry on reachability waits for the host to become unreachable
  and then reachable again, as `RetryingHTTPOperation.h:32-35` describes.
  It does not fire on the first "reachable" report.
- A QReachabilityOperation's default target is mask = value =
  `kSCNetworkReachabilityFlagsReachable`.
- A 2xx response whose content type is refused finishes with
  `kQHTTPOperationErrorBadContentType`.
- `cancelOperation:` on an operation that is not queued changes nothing
  (`SGNetworkManager.h:86-87`).
- A failed write to the response output stream finishes with
  `kQHTTPOperationErrorOnOutputStream` (`QHTTPOperation.h:197-201`), not with
  the stream's own error. The operation therefore reports it in its own
  domain, and RetryingHTTPOperation never retries it. A disk-full file
  stream, for example, ends the operation instead of being retried.

## Model

| member | source | states |
|---|---|---|
| RunLoopOperation.ForwardIsMonotonic | SGBaseFramework/SGBaseFramework/Classes/QRunLoopOperation.h:9-13 | along any sequence of observed states the lifecycle rank never decreases |
| RunLoopOperation.FinishedIsFinal | SGBaseFramework/SGBaseFramework/Classes/QRunLoopOperation.h:9-13 | once an operation is Finished every later observed state is Finished |
| RunLoopOperation.UserCancelledError | SGBaseFramework/SGBaseFramework/Classes/QRunLoopOperation.h:55-56 | the cancellation error is NSCocoaErrorDomain / NSUserCancelledError |
| RunLoopOperation.ActualRunLoopThread | SGBaseFramework/SGBaseFramework/Classes/QRunLoopOperation.h:39 | the main thread when runLoopThread is nil, runLoopThread otherwise |
| RunLoopOperation.ActualRunLoopModes | SGBaseFramework/SGBaseFramework/Classes/QRunLoopOperation.h:41 | {NSDefaultRunLoopMode} when runLoopModes is nil or empty, runLoopModes otherwise; never empty |
| RunLoopOperation.Operation.ActualThread | SGBaseFramework/SGBaseFramework/Classes/QRunLoopOperation.h:39 | the main thread when runLoopThread is nil, runLoopThread otherwise |
| RunLoopOperation.Operation.IsActualRunLoopThread | SGBaseFramework/SGBaseFramework/Classes/QRunLoopOperation.h:40 | YES exactly when the current thread is the actual run loop thread: the main thread when runLoopThread is nil, runLoopThread otherwise |
| RunLoopOperation.Operation.constructor | SGBaseFramework/SGBaseFramework/Classes/QRunLoopOperation.h:29-34 | a new operation is Inited, not cancelled, has no error and has nil runLoopThread and runLoopModes |
| RunLoopOperation.Operation.SetRunLoopThread | SGBaseFramework/SGBaseFramework/Classes/QRunLoopOperation.h:24-29 | settable only while Inited; sets runLoopThread |
| RunLoopOperation.Operation.SetRunLoopModes | SGBaseFramework/SGBaseFramework/Classes/QRunLoopOperation.h:24-30 | settable only while Inited; sets runLoopModes |
| RunLoopOperation.Operation.Start | SGBaseFramework/SGBaseFramework/Classes/QRunLoopOperation.h:49-61 | an uncancelled start reaches Executing after operationDidStart; a cancelled one finishes with the cancellation error after operationWillFinish alone |
| RunLoopOperation.Operation.Cancel | SGBaseFramework/SGBaseFramework/Classes/QRunLoopOperation.h:53-56 | marks the operation cancelled without moving its state; the run loop must act exactly on the first cancel of an executing operation |
| RunLoopOperation.Operation.CancelOnRunLoopThread | SGBaseFramework/SGBaseFramework/Classes/QRunLoopOperation.h:53-56 | an executing operation finishes with the cancellation error and runs operationWillFinish; a finished one is unchanged; the state only moves forward |
| RunLoopOperation.Operation.FinishWithError | SGBaseFramework/SGBaseFramework/Classes/QRunLoopOperation.h:65-70 | stores the error, calls operationWillFinish once, and leaves the operation Finished (a forward step); a second call changes nothing |
| RunLoopOperation.CancelBeforeStart | SGBaseFramework/SGBaseFramework/Classes/QRunLoopOperation.h:53-56 | cancelled before start: cancellation error, operationWillFinish only |
| RunLoopOperation.FinishFromDidStart | SGBaseFramework/SGBaseFramework/Classes/QRunLoopOperation.h:58 | operationDidStart may finish the operation with any error |
| RunLoopOperation.CancelWhileExecuting | SGBaseFramework/SGBaseFramework/Classes/QRunLoopOperation.h:53-70 | a cancelled executing operation ends with the cancellation error; later cancels and finishes change nothing |
| HTTPOperation.DefaultSizes | SGBaseFramework/SGBaseFramework/Classes/QHTTPOperation.h:120-122 | defaults are 1 MB / 4 MB, a quarter of each on embedded devices; default never above maximum |
| HTTPOperation.StatusCodeAcceptable | SGBaseFramework/SGBaseFramework/Classes/QHTTPOperation.h:100 | a configured set accepts exactly its members; nil acceptableStatusCodes means exactly 200..299 |
| HTTPOperation.ContentTypeAcceptable | SGBaseFramework/SGBaseFramework/Classes/QHTTPOperation.h:101 | nil acceptableContentTypes accepts anything; a configured set accepts exactly the listed MIME types and refuses a response without one |
| HTTPOperation.LoadOutcome | SGBaseFramework/SGBaseFramework/Classes/QHTTPOperation.h:166-168 | no error iff status and content type are acceptable; a refused status is the error code; otherwise BadContentType; codes are never 0 |
| HTTPOperation.AccumulateIsBoundedBody | SGBaseFramework/SGBaseFramework/Classes/QHTTPOperation.h:46-48 | chunk-by-chunk buffering yields the whole body iff it fits maximumResponseSize, and overflows otherwise |
| HTTPOperation.WriteAll | SGBaseFramework/SGBaseFramework/Classes/QHTTPOperation.h:115-117 | synchronous stream writes succeed iff the chunk fits, append exactly the chunk, and otherwise fail with kQHTTPOperationErrorOnOutputStream |
| HTTPOperation.HTTPOperation.constructor | SGBaseFramework/SGBaseFramework/Classes/QHTTPOperation.h:86-90 | keeps the request; nil configuration; default response sizes; no connection |
| HTTPOperation.HTTPOperation.SetAcceptableStatusCodes | SGBaseFramework/SGBaseFramework/Classes/QHTTPOperation.h:97-100 | configurable only before queuing |
| HTTPOperation.HTTPOperation.SetAcceptableContentTypes | SGBaseFramework/SGBaseFramework/Classes/QHTTPOperation.h:97-101 | configurable only before queuing |
| HTTPOperation.HTTPOperation.SetAuthenticationDelegate | SGBaseFramework/SGBaseFramework/Classes/QHTTPOperation.h:97-102 | configurable only before queuing |
| HTTPOperation.HTTPOperation.SetResponseOutputStream | SGBaseFramework/SGBaseFramework/Classes/QHTTPOperation.h:109-119 | configurable until the first data chunk |
| HTTPOperation.HTTPOperation.SetResponseSizes | SGBaseFramework/SGBaseFramework/Classes/QHTTPOperation.h:109-122 | configurable until the first data chunk |
| HTTPOperation.HTTPOperation.Start | SGBaseFramework/SGBaseFramework/Classes/QRunLoopOperation.h:49-51 | the connection runs exactly when the operation was not cancelled before start |
| HTTPOperation.HTTPOperation.CanAuthenticateAgainstProtectionSpace | SGBaseFramework/SGBaseFramework/Classes/QHTTPOperation.h:146-148 | NO without a delegate; YES only for a space the delegate handles |
| HTTPOperation.HTTPOperation.DidReceiveAuthenticationChallenge | SGBaseFramework/SGBaseFramework/Classes/QHTTPOperation.h:150-152 | the challenge is cancelled exactly when there is no delegate |
| HTTPOperation.HTTPOperation.WillSendRequest | SGBaseFramework/SGBaseFramework/Classes/QHTTPOperation.h:154-155 | latches the request and redirect response; sends the request unchanged |
| HTTPOperation.HTTPOperation.DidReceiveResponse | SGBaseFramework/SGBaseFramework/Classes/QHTTPOperation.h:157-158 | latches the response |
| HTTPOperation.HTTPOperation.DidReceiveData | SGBaseFramework/SGBaseFramework/Classes/QHTTPOperation.h:160-164 | memory holds all chunks so far or the operation fails with ResponseTooLarge; a stream gets the chunk or the operation fails with OnOutputStream |
| HTTPOperation.HTTPOperation.ReceiveIntoMemory | SGBaseFramework/SGBaseFramework/Classes/QHTTPOperation.h:46-48 | the buffer is the whole body so far while it fits the maximum; otherwise ResponseTooLarge |
| HTTPOperation.HTTPOperation.ReceiveIntoStream | SGBaseFramework/SGBaseFramework/Classes/QHTTPOperation.h:115-117 | the chunk is written whole, or the operation fails with OnOutputStream |
| HTTPOperation.HTTPOperation.ConnectionDidFinishLoading | SGBaseFramework/SGBaseFramework/Classes/QHTTPOperation.h:166-168 | finishes with LoadOutcome of the last response; the memory body is all chunks received |
| HTTPOperation.HTTPOperation.ConnectionDidFailWithError | SGBaseFramework/SGBaseFramework/Classes/QHTTPOperation.h:170-171 | finishes with the transport error |
| HTTPOperation.HTTPOperation.Cancel | SGBaseFramework/SGBaseFramework/Classes/QRunLoopOperation.h:53-56 | marks cancelled; run loop work is due on the first cancel of a running operation |
| HTTPOperation.HTTPOperation.CancelOnRunLoopThread | SGBaseFramework/SGBaseFramework/Classes/QRunLoopOperation.h:53-56 | a running request finishes with the cancellation error and its connection stops |
| HTTPOperation.HTTPOperation.FinishWithError | SGBaseFramework/SGBaseFramework/Classes/QRunLoopOperation.h:49-53 | operationWillFinish stops the connection and closes the stream, then the operation finishes with the error |
| HTTPOperation.LoadTwoChunks | SGBaseFramework/SGBaseFramework/Classes/QHTTPOperation.h:160-168 | two chunks that fit give their concatenation as the body and a status-only verdict; too many bytes give ResponseTooLarge and no body |
| ReachabilityOperation.TargetReached | SGBaseFramework/SGBaseFramework/Classes/QReachabilityOperation.h:21-23 | reached iff the flags agree with the value on every mask bit and the value has no bit outside the mask; with an empty mask, iff the value is 0 |
| ReachabilityOperation.FirstMatch | SGBaseFramework/SGBaseFramework/Classes/QReachabilityOperation.h:21-23 | the index of the first flags reaching the target, none before it; None iff none does |
| ReachabilityOperation.ReachabilityOperation.constructor | SGBaseFramework/SGBaseFramework/Classes/QReachabilityOperation.h:21-27 | keeps the host name; the target defaults to "reachable" |
| ReachabilityOperation.ReachabilityOperation.SetFlagsTarget | SGBaseFramework/SGBaseFramework/Classes/QReachabilityOperation.h:29-33 | mask and value are configurable before queuing |
| ReachabilityOperation.ReachabilityOperation.Start | SGBaseFramework/SGBaseFramework/Classes/QRunLoopOperation.h:49-51 | the watch is scheduled exactly when the operation was not cancelled before start |
| ReachabilityOperation.ReachabilityOperation.ReachabilitySetFlags | SGBaseFramework/SGBaseFramework/Classes/QReachabilityOperation.h:21-23 | records the flags and finishes without error iff (flags & mask) == value |
| ReachabilityOperation.ReachabilityOperation.Cancel | SGBaseFramework/SGBaseFramework/Classes/QRunLoopOperation.h:53-56 | marks cancelled; run loop work is due on the first cancel of a running watch |
| ReachabilityOperation.ReachabilityOperation.CancelOnRunLoopThread | SGBaseFramework/SGBaseFramework/Classes/QRunLoopOperation.h:53-56 | a running watch is torn down and finishes with the cancellation error |
| ReachabilityOperation.ReachabilityOperation.FinishWithError | SGBaseFramework/SGBaseFramework/Classes/QRunLoopOperation.h:49-53 | unschedules the watch and finishes with the error; no error only when the target is reached |
| ReachabilityOperation.WatchEvents | SGBaseFramework/SGBaseFramework/Classes/QReachabilityOperation.h:21-23 | a watch fed events finishes at the first matching event with its flags, or keeps running after all of them |
| RetryingHTTPOperation.Transition | SGBaseFramework/SGBaseFramework/Classes/RetryingHTTPOperation.h:52-58 | no move returns to NotStarted or stays put; an attempt follows only the start; a retry follows only a wait; a wait follows only an attempt; every state but Finished may finish |
| RetryingHTTPOperation.HistoryCounts | SGBaseFramework/SGBaseFramework/Classes/RetryingHTTPOperation.h:52-58 | in every history a wait is followed by one retry, except the current or final wait; created once; at most one first attempt (Getting); Finished at most once and last |
| RetryingHTTPOperation.MaxRetryDelay | SGBaseFramework/SGBaseFramework/Classes/RetryingHTTPOperation.h:24-28 | the ceilings are 1 s, 60 s, 3600 s, then 21600 s for every later failure |
| RetryingHTTPOperation.MaxRetryDelayIsMonotonic | SGBaseFramework/SGBaseFramework/Classes/RetryingHTTPOperation.h:24-28 | each failure raises the ceiling or keeps it |
| RetryingHTTPOperation.RetryDelay | SGBaseFramework/SGBaseFramework/Classes/RetryingHTTPOperation.h:24-25 | the delay lies in [0, ceiling) |
| RetryingHTTPOperation.ShouldRetryAfterError | SGBaseFramework/SGBaseFramework/Classes/RetryingHTTPOperation.h:20-22 | 4xx, module errors and cancellation are not retried; 5xx, transport (URL, POSIX) and other Cocoa errors are |
| RetryingHTTPOperation.ModuleFailuresAreTerminal | SGBaseFramework/SGBaseFramework/Classes/QHTTPOperation.h:197-201 | a body too large, a failed output-stream write and a refused content type are never retried |
| RetryingHTTPOperation.EnterWaitingToRetry | SGBaseFramework/SGBaseFramework/Classes/RetryingHTTPOperation.h:24-38 | a retryable failure ends the attempt and starts the timer, the reachability watch and the notification; the failure count is one above the retries |
| RetryingHTTPOperation.EnterFinished | SGBaseFramework/SGBaseFramework/Classes/RetryingHTTPOperation.h:61-77 | finishing stops every child and keeps the counters |
| RetryingHTTPOperation.EnterRetrying | SGBaseFramework/SGBaseFramework/Classes/RetryingHTTPOperation.h:30-38 | a retry stops the waiters, starts the next attempt and counts one more retry |
| RetryingHTTPOperation.RetryingHTTPOperation.constructor | SGBaseFramework/SGBaseFramework/Classes/RetryingHTTPOperation.h:79-90 | keeps the request; NotStarted; no retries and no retryable failure yet |
| RetryingHTTPOperation.RetryingHTTPOperation.SetAcceptableContentTypes | SGBaseFramework/SGBaseFramework/Classes/RetryingHTTPOperation.h:86-89 | configurable only before queuing |
| RetryingHTTPOperation.RetryingHTTPOperation.SetResponseFilePath | SGBaseFramework/SGBaseFramework/Classes/RetryingHTTPOperation.h:86-90 | configurable only before queuing |
| RetryingHTTPOperation.RetryingHTTPOperation.Start | SGBaseFramework/SGBaseFramework/Classes/RetryingHTTPOperation.h:52-58 | starting goes to Getting with an attempt configured from the request, or to Finished when cancelled first |
| RetryingHTTPOperation.RetryingHTTPOperation.NetworkOperationDone | SGBaseFramework/SGBaseFramework/Classes/RetryingHTTPOperation.h:20-28 | success finishes with the response (body unless it went to a file) and announces the host; a retryable failure waits with a random delay below the ceiling; any other error finishes with it |
| RetryingHTTPOperation.RetryingHTTPOperation.StartWaiting | SGBaseFramework/SGBaseFramework/Classes/RetryingHTTPOperation.h:24-38 | arms the timer, watches the host for unreachability, listens for successes, sets hasHadRetryableFailure |
| RetryingHTTPOperation.RetryingHTTPOperation.RetryTimerDone | SGBaseFramework/SGBaseFramework/Classes/RetryingHTTPOperation.h:24-28 | the timer firing starts a retry and counts it |
| RetryingHTTPOperation.RetryingHTTPOperation.ReachabilitySetFlags | SGBaseFramework/SGBaseFramework/Classes/RetryingHTTPOperation.h:32-35 | unreachable moves the watch to "reachable again"; reachable again retries at once; other flags change nothing |
| RetryingHTTPOperation.RetryingHTTPOperation.TransferDidSucceed | SGBaseFramework/SGBaseFramework/Classes/RetryingHTTPOperation.h:37-38 | a success on the same host retries a waiting operation at once; otherwise nothing changes |
| RetryingHTTPOperation.RetryingHTTPOperation.RetryNow | SGBaseFramework/SGBaseFramework/Classes/RetryingHTTPOperation.h:30-38 | stops the waiters, counts the retry and starts a new attempt |
| RetryingHTTPOperation.RetryingHTTPOperation.Cancel | SGBaseFramework/SGBaseFramework/Classes/QRunLoopOperation.h:53-56 | marks cancelled; run loop work is due on the first cancel of a running operation |
| RetryingHTTPOperation.RetryingHTTPOperation.CancelOnRunLoopThread | SGBaseFramework/SGBaseFramework/Classes/QRunLoopOperation.h:53-56 | every child is stopped and a running operation finishes with the cancellation error |
| RetryingHTTPOperation.RetryingHTTPOperation.FinishWithError | SGBaseFramework/SGBaseFramework/Classes/RetryingHTTPOperation.h:52-58 | every child is stopped; the retry state becomes Finished with the error |
| RetryingHTTPOperation.RetryingHTTPOperation.PublishClientState | SGBaseFramework/SGBaseFramework/Classes/RetryingHTTPOperation.h:94-95 | the client mirror catches up with retryState |
| RetryScenarios.NotFoundIsNotRetried | SGBaseFramework/SGBaseFramework/Classes/RetryingHTTPOperation.h:20-22 | a 404 finishes at once with that error, no retries, no retryable failure |
| RetryScenarios.ServerErrorThenSuccess | SGBaseFramework/SGBaseFramework/Classes/RetryingHTTPOperation.h:24-28 | a 503 waits under one second, then one retry succeeds with the response and body |
| RetryScenarios.RetriesUntilSuccess | SGBaseFramework/SGBaseFramework/Classes/RetryingHTTPOperation.h:24-28 | the i-th wait lies below the i-th ceiling; the retries are counted; the final success leaves no error |
| RetryScenarios.SiblingSuccessRetriesEarly | SGBaseFramework/SGBaseFramework/Classes/RetryingHTTPOperation.h:37-38 | another request's success on the host retries a waiting operation before its timer |
| RetryScenarios.ReachabilityRoundTripRetries | SGBaseFramework/SGBaseFramework/Classes/RetryingHTTPOperation.h:32-35 | reachable does nothing; unreachable then reachable retries at once |
| RetryScenarios.CancelWhileWaiting | SGBaseFramework/SGBaseFramework/Classes/RetryingHTTPOperation.h:61-77 | cancelling a waiting operation stops all children and finishes with the cancellation error |
| NetworkManager.NetworkManager.constructor | SGBaseFramework/SGBaseFramework/Classes/SGNetworkManager.h:12-19 | empty tables, nothing observed, no transfers |
| NetworkManager.NetworkManager.NetworkInUse | SGBaseFramework/SGBaseFramework/Classes/SGNetworkManager.h:34-37 | YES iff some network transfer operation has not finished |
| NetworkManager.NetworkManager.AddOperation | SGBaseFramework/SGBaseFramework/Classes/SGNetworkManager.h:59-69 | records target, action and queuing thread; network operations without a thread get the networking thread; transfers are counted |
| NetworkManager.NetworkManager.AddNetworkManagementOperation | SGBaseFramework/SGBaseFramework/Classes/SGNetworkManager.h:65-69 | the run loop thread defaults to the networking thread; not a transfer |
| NetworkManager.NetworkManager.AddNetworkTransferOperation | SGBaseFramework/SGBaseFramework/Classes/SGNetworkManager.h:34-37 | the network is in use once a transfer is queued; the thread defaults to the networking thread |
| NetworkManager.NetworkManager.AddCPUOperation | SGBaseFramework/SGBaseFramework/Classes/SGNetworkManager.h:54-57 | the run loop thread is left alone; not a transfer |
| NetworkManager.NetworkManager.CancelOperation | SGBaseFramework/SGBaseFramework/Classes/SGNetworkManager.h:81-87 | nil or unqueued: nothing changes; queued: cancelled and removed from the tables, with its state, error, thread, modes and hooks unchanged |
| NetworkManager.NetworkManager.OperationDidFinish | SGBaseFramework/SGBaseFramework/Classes/SGNetworkManager.h:34-37 | a finished transfer stops counting toward networkInUse |
| NetworkManager.NetworkManager.OperationDone | SGBaseFramework/SGBaseFramework/Classes/SGNetworkManager.h:59-63 | the completion is due iff the operation was still recorded and not cancelled, with its recorded target, action and thread |
| NetworkManager.TransferCompletes | SGBaseFramework/SGBaseFramework/Classes/SGNetworkManager.h:59-73 | in use while running, not after; callbacks on the networking thread; completion on the queuing thread |
| NetworkManager.CancelAfterFinishSuppressesCompletion | SGBaseFramework/SGBaseFramework/Classes/SGNetworkManager.h:81-84 | after cancelOperation: returns, the completion is never called |
| NetworkManager.CancelledOperationNeverCompletes | SGBaseFramework/SGBaseFramework/Classes/SGNetworkManager.h:59-60 | a cancelled operation gets no completion and ends with the cancellation error |
| NetworkManager.StrayCancelsChangeNothing | SGBaseFramework/SGBaseFramework/Classes/SGNetworkManager.h:86-87 | cancelling nil or an unqueued operation leaves the tables and the queued operation alone |
| QLog.ApplicationOptionsAreDistinctBits | SGBaseFramework/SGBaseFramework/Classes/Logging.h:9-14 | the four application options are the mask bits 1, 2, 4 and 8 |
| QLog.ShouldLogOption | SGBaseFramework/SGBaseFramework/Classes/QLog.h:53-54 | an empty mask logs no option and a full mask logs every option |
| QLog.ShouldLogOptionIsMonotonic | SGBaseFramework/SGBaseFramework/Classes/QLog.h:53-54 | setting more bits in the mask never stops an option from being logged |
| QLog.KeepLast | SGBaseFramework/SGBaseFramework/Classes/QLog.h:65-67 | keeps at most the limit, and those kept are the newest entries in order |
| QLog.KeepLastOfSuffix | SGBaseFramework/SGBaseFramework/Classes/QLog.h:65-67 | trimming a long enough suffix equals trimming the whole list |
| QLog.KeepLastAppend | SGBaseFramework/SGBaseFramework/Classes/QLog.h:65-67 | trimming after each append equals trimming once at the end |
| QLog.QLog.constructor | SGBaseFramework/SGBaseFramework/Classes/QLog.h:33-47 | preferences as given; nothing logged or pending |
| QLog.QLog.LogWithFormat | SGBaseFramework/SGBaseFramework/Classes/QLog.h:58-59 | an enabled log queues the entry; a disabled one ignores it |
| QLog.QLog.LogOption | SGBaseFramework/SGBaseFramework/Classes/QLog.h:53-54 | the entry is queued only when the option's bit is set in optionsMask |
| QLog.QLog.Flush | SGBaseFramework/SGBaseFramework/Classes/QLog.h:25-27 | pending entries move in order to the end of logEntries, trimmed to the newest limit; nothing stays pending |
| QLog.QLog.Clear | SGBaseFramework/SGBaseFramework/Classes/QLog.h:29-31 | logEntries becomes empty |
| QLog.LogAndFlush | SGBaseFramework/SGBaseFramework/Classes/QLog.h:53-54 | entries under a set option end up as the newest limit of them; under an unset option, none |
| QLog.ClearThenLog | SGBaseFramework/SGBaseFramework/Classes/QLog.h:29-31 | after a clear the log is empty and a new entry is then its only one |
| MathShortcuts.Span | SGBaseFramework/SGBaseFramework/Classes/SGMathShortcuts.h:46-48 | rightBound - leftBound in NSUInteger arithmetic, wrapping when the bounds are reversed |
| MathShortcuts.RandomBounded | SGBaseFramework/SGBaseFramework/Classes/SGMathShortcuts.h:46-48 | a word; in [leftBound, rightBound) for ordered bounds; outside [rightBound, leftBound) for reversed ones |
| MathShortcuts.RandomBoundedUnitRange | SGBaseFramework/SGBaseFramework/Classes/SGMathShortcuts.h:46-48 | a range of one value always yields it |
| MathShortcuts.RandomBoundedDependsOnResidue | SGBaseFramework/SGBaseFramework/Classes/SGMathShortcuts.h:46-48 | words with the same residue modulo the span give the same value |
| MathShortcuts.RandomBoundedReachesEveryValue | SGBaseFramework/SGBaseFramework/Classes/SGMathShortcuts.h:46-48 | every value of [leftBound, rightBound) comes from some random word |
| MathShortcuts.RandomBoolean | SGBaseFramework/SGBaseFramework/Classes/SGMathShortcuts.h:50-52 | 0 or 1, equal to sgRandomBounded(0, 2), and 1 exactly for odd words |
| MathShortcuts.RandomBooleanAlternates | SGBaseFramework/SGBaseFramework/Classes/SGMathShortcuts.h:50-52 | an even word gives NO and its successor YES |

## Left out

- Threads, run loops and NSOperationQueue scheduling: callbacks are method calls in the order they are given. Queue widths (unbounded management queue, fixed transfer width, default CPU width) are not modelled, so "at most N transfers at once" is not stated. The model is sequential, so a cancel from another thread racing the completion is not represented.
- Which thread observes what: `hasHadRetryableFailure` and `retryStateClient` change on the main thread in the source. Here the flag is set on the run loop step, and the client mirror catches up only through `PublishClientState`.
- Every operation the network manager queues is modelled as a QRunLoopOperation. A plain NSOperation without `runLoopThread` is not represented.
- The debugging options of QHTTPOperation (`debugError`, `debugDelay`) are left out: they are compiled only in debug builds.
- Real authentication: the delegate is represented by the protection spaces it handles. The challenge itself is not modelled.
- NSOutputStream is a stand-in class (`HTTPOperation.OutputStream`) that takes bytes while space lasts. `defaultResponseSize` only sizes a buffer, so it has no visible effect here.
- `+sharedManager`, `+[QLog log]` and `-requestToGetURL:` (singleton access and the user-agent header) are left out; the model builds instances directly.
- QLog's file and stderr output, `streamForLogValidToLength:`, `showViewer`, the user-defaults preferences and the string formatting of entries are left out. An entry is the formatted string.
- The QLog in-memory entry limit is not given in the headers. It is a constructor parameter.
- NSUInteger is modelled as 32 bits: the reachability flags, the QLog options mask and the SGMathShortcuts arithmetic. For ordered bounds `sgRandomBounded` gives the same value on 32-bit and 64-bit devices. For reversed bounds it does not: on 64 bits the wrapped span exceeds every random word, so the word is not reduced (`sgRandomBounded(10, 5)` with word 2^32-1 gives 2^32+9 there and 14 here).
- MathShortcuts.RandomBounded: requires the two bounds to differ. With equal bounds the source takes the remainder modulo zero, whose result C leaves undefined.
- `sgCompareFloat`, `sgCompareDouble`, `sgRandomNormalized` and `sgRandomBoundedf` are floating-point helpers and are left out.
- RetryingHTTPOperation.RetryingHTTPOperation.Valid: does not bound the armed timer's delay by the current ceiling. `NetworkOperationDone` states that bound for the delay it arms.
- `responseMIMEType` and `sequenceNumber` of RetryingHTTPOperation are left out. Writing the body to `responseFilePath` is modelled only as "no in-memory content".
- The context files (SGSharedGK, SharedCLController, SGURLCache and the others) are not part of this model.
