/** QRunLoopOperation: the abstract run-loop based operation every other
    operation of the core builds on. Its lifecycle is Inited -> Executing ->
    Finished; `start`, `cancel` and `finishWithError:` drive it and call the
    `operationDidStart` / `operationWillFinish` override points. */
module RunLoopOperation {
  import opened Foundation

  datatype State = Inited | Executing | Finished

  /** Position of a state in the lifecycle. */
  function Rank(s: State): nat {
    match s
    case Inited => 0
    case Executing => 1
    case Finished => 2
  }

  /** What one step may do to the state: stay, or move forward. */
  predicate Step(from: State, to: State) {
    Rank(from) <= Rank(to)
  }

  /** A sequence of observed states, each step taken by `Step`. */
  ghost predicate Forward(trace: seq<State>) {
    forall i :: 0 <= i < |trace| - 1 ==> Step(trace[i], trace[i + 1])
  }

  /** Along any observed sequence of states the lifecycle never goes back. */
  lemma {:induction false} ForwardIsMonotonic(trace: seq<State>, i: nat, j: nat)
    requires Forward(trace)
    requires i <= j < |trace|
    ensures Rank(trace[i]) <= Rank(trace[j])
  {
    if i < j {
      ForwardIsMonotonic(trace, i, j - 1);
      assert Step(trace[j - 1], trace[j]);
    }
  }

  /** Once Finished, always Finished: Executing -> Finished happens at most once. */
  lemma FinishedIsFinal(trace: seq<State>, i: nat, j: nat)
    requires Forward(trace)
    requires i <= j < |trace| && trace[i] == Finished
    ensures trace[j] == Finished
  {
    ForwardIsMonotonic(trace, i, j);
  }

  /** The error an operation finishes with when it is cancelled. */
  function UserCancelledError(): (e: NSError)
    ensures e.domain == CocoaErrorDomain && e.code == NSUserCancelledError
  {
    NSError(CocoaErrorDomain, NSUserCancelledError)
  }

  /** `actualRunLoopThread`: the main thread when `runLoopThread` is nil. */
  function ActualRunLoopThread(runLoopThread: Option<Thread>): (thread: Thread)
    ensures runLoopThread.Some? ==> thread == runLoopThread.value
    ensures runLoopThread.None? ==> thread == MainThread
  {
    runLoopThread.GetOr(MainThread)
  }

  /** `actualRunLoopModes`: {NSDefaultRunLoopMode} when `runLoopModes` is nil
      or empty, `runLoopModes` otherwise; so never empty. */
  function ActualRunLoopModes(runLoopModes: Option<set<string>>): (modes: set<string>)
    ensures modes != {}
    ensures runLoopModes.Some? && runLoopModes.value != {} ==> modes == runLoopModes.value
    ensures runLoopModes.None? || runLoopModes.value == {} ==> modes == {NSDefaultRunLoopMode}
  {
    var configured := runLoopModes.GetOr({});
    if configured == {} then {NSDefaultRunLoopMode} else configured
  }

  /** The override points a subclass gets called at. */
  datatype Hook = OperationDidStart | OperationWillFinish

  class Operation {
    var state: State
    var runLoopThread: Option<Thread>
    var runLoopModes: Option<set<string>>
    var error: Option<NSError>
    /** NSOperation's isCancelled. */
    var cancelled: bool
    /** The override points called so far, in order. */
    var hooks: seq<Hook>

    /** The error is only set by finishing; `operationDidStart` runs once, on
        start, and `operationWillFinish` runs once, on finishing, even when the
        operation is cancelled before it ever started. */
    ghost predicate Valid()
      reads this
    {
      && (state != Finished ==> error.None?)
      && (state == Inited ==> hooks == [])
      && (state == Executing ==> hooks == [OperationDidStart])
      && (state == Finished ==> hooks == [OperationDidStart, OperationWillFinish] || hooks == [OperationWillFinish])
    }

    /** `actualRunLoopThread` of this operation. */
    function ActualThread(): (thread: Thread)
      reads this
      ensures runLoopThread.None? ==> thread == MainThread
      ensures runLoopThread.Some? ==> thread == runLoopThread.value
    {
      ActualRunLoopThread(runLoopThread)
    }

    /** `isActualRunLoopThread`: whether `current` is the actual run loop thread. */
    function IsActualRunLoopThread(current: Thread): (yes: bool)
      reads this
      ensures runLoopThread.None? ==> (yes <==> current == MainThread)
      ensures runLoopThread.Some? ==> (yes <==> current == runLoopThread.value)
      ensures yes <==> current == ActualRunLoopThread(runLoopThread)
    {
      current == ActualThread()
    }

    constructor ()
      ensures Valid()
      ensures state == Inited && error.None? && !cancelled && hooks == []
      ensures runLoopThread.None? && runLoopModes.None?
    {
      state := Inited;
      runLoopThread := None;
      runLoopModes := None;
      error := None;
      cancelled := false;
      hooks := [];
    }

    /** Configured before queuing only. */
    method SetRunLoopThread(thread: Option<Thread>)
      requires Valid() && state == Inited
      modifies this`runLoopThread
      ensures Valid() && runLoopThread == thread
    {
      runLoopThread := thread;
    }

    /** Configured before queuing only. */
    method SetRunLoopModes(modes: Option<set<string>>)
      requires Valid() && state == Inited
      modifies this`runLoopModes
      ensures Valid() && runLoopModes == modes
    {
      runLoopModes := modes;
    }

    /** `start`: moves to Executing and, on the run loop thread, either
        finishes at once with the cancellation error (when already cancelled)
        or calls `operationDidStart`. The result says whether the subclass's
        start-up work is to run. */
    method Start() returns (runDidStart: bool)
      requires Valid() && state == Inited
      modifies this`state, this`error, this`hooks
      ensures Valid() && Step(old(state), state)
      ensures runDidStart == !cancelled
      ensures runDidStart ==> state == Executing && error.None? && hooks == [OperationDidStart]
      ensures !runDidStart ==> state == Finished && error == Some(UserCancelledError()) && hooks == [OperationWillFinish]
    {
      runDidStart := !cancelled;
      if runDidStart {
        hooks := hooks + [OperationDidStart];
        state := Executing;
      } else {
        state := Executing;
        error := Some(UserCancelledError());
        hooks := hooks + [OperationWillFinish];
        state := Finished;
      }
    }

    /** `cancel`: marks the operation cancelled; the result says whether a
        cancellation must now be run on the run loop thread (first cancel of
        an executing operation). */
    method Cancel() returns (runCancelOnRunLoopThread: bool)
      requires Valid()
      modifies this`cancelled
      ensures Valid() && cancelled && Step(old(state), state)
      ensures runCancelOnRunLoopThread == (!old(cancelled) && state == Executing)
    {
      runCancelOnRunLoopThread := !cancelled && state == Executing;
      cancelled := true;
    }

    /** The run loop half of `cancel`: an operation still executing finishes
        with NSCocoaErrorDomain/NSUserCancelledError. */
    method CancelOnRunLoopThread()
      requires Valid() && state != Inited
      modifies this`state, this`error, this`hooks
      ensures Valid() && state == Finished && Step(old(state), state)
      ensures old(state) == Executing ==> error == Some(UserCancelledError()) && hooks == old(hooks) + [OperationWillFinish]
      ensures old(state) == Finished ==> error == old(error) && hooks == old(hooks)
    {
      if state == Executing {
        FinishWithError(Some(UserCancelledError()));
      }
    }

    /** `finishWithError:`: stores the error (nil for success), calls
        `operationWillFinish` and leaves the operation Finished. A second
        call changes nothing. */
    method FinishWithError(e: Option<NSError>)
      requires Valid() && state != Inited
      modifies this`state, this`error, this`hooks
      ensures Valid() && state == Finished && Step(old(state), state)
      ensures old(state) == Executing ==> error == e && hooks == old(hooks) + [OperationWillFinish]
      ensures old(state) == Finished ==> error == old(error) && hooks == old(hooks)
    {
      if state == Executing {
        error := e;
        hooks := hooks + [OperationWillFinish];
        state := Finished;
      }
    }
  }

  /** An operation cancelled before it starts still gets `operationWillFinish`
      and finishes with the cancellation error, without `operationDidStart`. */
  method CancelBeforeStart() returns (error: Option<NSError>, hooks: seq<Hook>)
    ensures error == Some(UserCancelledError())
    ensures hooks == [OperationWillFinish]
  {
    var op := new Operation();
    var run := op.Cancel();
    assert !run;
    var started := op.Start();
    error, hooks := op.error, op.hooks;
  }

  /** `operationDidStart` may call `finishWithError:`, so starting can take
      the operation straight to Finished with the given error. */
  method FinishFromDidStart(e: Option<NSError>) returns (state: State, error: Option<NSError>, hooks: seq<Hook>)
    ensures state == Finished && error == e
    ensures hooks == [OperationDidStart, OperationWillFinish]
  {
    var op := new Operation();
    var runDidStart := op.Start();
    if runDidStart {
      op.FinishWithError(e);
    }
    state, error, hooks := op.state, op.error, op.hooks;
  }

  /** Cancelling an executing operation finishes it with the cancellation
      error and calls `operationWillFinish`; cancelling it again, or finishing
      it afterwards, changes neither its state nor its error. */
  method CancelWhileExecuting(later: Option<NSError>) returns (state: State, error: Option<NSError>, hooks: seq<Hook>)
    ensures state == Finished && error == Some(UserCancelledError())
    ensures hooks == [OperationDidStart, OperationWillFinish]
  {
    var op := new Operation();
    var runDidStart := op.Start();
    var run := op.Cancel();
    if run {
      op.CancelOnRunLoopThread();
    }
    var again := op.Cancel();
    assert !again;
    op.FinishWithError(later);
    state, error, hooks := op.state, op.error, op.hooks;
  }
}
