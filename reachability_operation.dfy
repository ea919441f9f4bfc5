/** QReachabilityOperation: watches the reachability of one host and runs
    until the reachability flags attain a target, i.e. until
    (flags & flagsTargetMask) == flagsTargetValue. Each reachability callback
    is an input event carrying the new flags. */
module ReachabilityOperation {
  import opened Foundation
  import RunLoopOperation

  /** SCNetworkReachabilityFlags, held in an NSUInteger. */
  type Flags = bv32

  /** kSCNetworkReachabilityFlagsReachable. */
  const Reachable: Flags := 2

  /** The completion test. Only the bits in the mask matter, so a target
      value with a bit outside the mask is never reached, and an empty mask
      is reached at once when the value is zero. */
  function TargetReached(flags: Flags, flagsTargetMask: Flags, flagsTargetValue: Flags): (reached: bool)
    ensures flagsTargetValue & !flagsTargetMask != 0 ==> !reached
    ensures flagsTargetMask == 0 ==> (reached <==> flagsTargetValue == 0)
    ensures reached <==>
      (flags ^ flagsTargetValue) & flagsTargetMask == 0 && flagsTargetValue & !flagsTargetMask == 0
  {
    flags & flagsTargetMask == flagsTargetValue
  }

  /** The index of the first event whose flags reach the target, if any. */
  function FirstMatch(events: seq<Flags>, flagsTargetMask: Flags, flagsTargetValue: Flags): (index: Option<nat>)
    ensures index.Some? ==>
      (index.value < |events|
       && TargetReached(events[index.value], flagsTargetMask, flagsTargetValue)
       && forall j :: 0 <= j < index.value ==> !TargetReached(events[j], flagsTargetMask, flagsTargetValue))
    ensures index.None? ==> forall j :: 0 <= j < |events| ==> !TargetReached(events[j], flagsTargetMask, flagsTargetValue)
  {
    if events == [] then None
    else if TargetReached(events[0], flagsTargetMask, flagsTargetValue) then Some(0)
    else
      match FirstMatch(events[1..], flagsTargetMask, flagsTargetValue)
      case None => None
      case Some(i) => Some(i + 1)
  }

  class ReachabilityOperation {
    const op: RunLoopOperation.Operation
    const hostName: string
    var flagsTargetMask: Flags
    var flagsTargetValue: Flags
    var flags: Flags
    /** Whether the reachability watch is scheduled on the run loop. */
    var registered: bool

    /** The watch lives exactly while the operation executes; the only way to
        finish without error is to reach the target, and the only error is
        cancellation. */
    ghost predicate Valid()
      reads this, op
    {
      && op.Valid()
      && (registered <==> op.state == RunLoopOperation.Executing)
      && (op.state == RunLoopOperation.Finished && op.error.None? ==>
            TargetReached(flags, flagsTargetMask, flagsTargetValue))
      && (op.error.Some? ==> op.error == Some(RunLoopOperation.UserCancelledError()))
    }

    /** `initWithHostName:`; the target defaults to "reachable". */
    constructor (hostName: string)
      ensures Valid() && fresh(op)
      ensures this.hostName == hostName && op.state == RunLoopOperation.Inited && !op.cancelled
      ensures flagsTargetMask == Reachable && flagsTargetValue == Reachable
      ensures flags == 0 && !registered
    {
      op := new RunLoopOperation.Operation();
      this.hostName := hostName;
      flagsTargetMask := Reachable;
      flagsTargetValue := Reachable;
      flags := 0;
      registered := false;
    }

    /** Configured before queuing only. */
    method SetFlagsTarget(mask: Flags, value: Flags)
      requires Valid() && op.state == RunLoopOperation.Inited
      modifies this`flagsTargetMask, this`flagsTargetValue
      ensures Valid() && flagsTargetMask == mask && flagsTargetValue == value
    {
      flagsTargetMask := mask;
      flagsTargetValue := value;
    }

    /** `start`; `operationDidStart` schedules the watch unless the operation
        was cancelled before it started. */
    method Start()
      requires Valid() && op.state == RunLoopOperation.Inited
      modifies this`registered, op
      ensures Valid()
      ensures registered == !op.cancelled && op.cancelled == old(op.cancelled)
      ensures op.state == (if op.cancelled then RunLoopOperation.Finished else RunLoopOperation.Executing)
    {
      var runDidStart := op.Start();
      if runDidStart {
        registered := true;
      }
    }

    /** The reachability callback: records the new flags and finishes with
        no error exactly when they reach the target; otherwise it keeps
        running. */
    method ReachabilitySetFlags(newFlags: Flags)
      requires Valid() && registered
      modifies this`flags, this`registered, op
      ensures Valid() && flags == newFlags && op.error.None? && op.cancelled == old(op.cancelled)
      ensures op.state == (if TargetReached(newFlags, flagsTargetMask, flagsTargetValue)
                           then RunLoopOperation.Finished else RunLoopOperation.Executing)
    {
      flags := newFlags;
      if TargetReached(flags, flagsTargetMask, flagsTargetValue) {
        FinishWithError(None);
      }
    }

    /** `cancel`. */
    method Cancel() returns (runCancelOnRunLoopThread: bool)
      requires Valid()
      modifies op`cancelled
      ensures Valid() && op.cancelled
      ensures runCancelOnRunLoopThread == (!old(op.cancelled) && op.state == RunLoopOperation.Executing)
    {
      runCancelOnRunLoopThread := op.Cancel();
    }

    /** The run loop half of `cancel`: a running watch is torn down and the
        operation finishes with the cancellation error. */
    method CancelOnRunLoopThread()
      requires Valid() && op.state != RunLoopOperation.Inited
      modifies this`registered, op
      ensures Valid() && op.state == RunLoopOperation.Finished && !registered
      ensures old(op.state) == RunLoopOperation.Executing ==> op.error == Some(RunLoopOperation.UserCancelledError())
      ensures old(op.state) == RunLoopOperation.Finished ==> op.error == old(op.error)
    {
      if op.state == RunLoopOperation.Executing {
        FinishWithError(Some(RunLoopOperation.UserCancelledError()));
      }
    }

    /** `finishWithError:` with this class's `operationWillFinish`, which
        unschedules the watch. */
    method FinishWithError(e: Option<NSError>)
      requires op.Valid() && registered && op.state == RunLoopOperation.Executing
      requires e.None? ==> TargetReached(flags, flagsTargetMask, flagsTargetValue)
      requires e.Some? ==> e == Some(RunLoopOperation.UserCancelledError())
      modifies this`registered, op
      ensures Valid() && op.state == RunLoopOperation.Finished && !registered
      ensures op.error == e && op.cancelled == old(op.cancelled)
    {
      registered := false;
      op.FinishWithError(e);
    }
  }

  /** A started watch fed a sequence of reachability events: it finishes at
      the first event that reaches the target, with no error and with that
      event's flags; when none does, it is still running after all of them
      with the last event's flags. */
  method WatchEvents(hostName: string, mask: Flags, value: Flags, events: seq<Flags>)
    returns (state: RunLoopOperation.State, flags: Flags, consumed: nat)
    ensures FirstMatch(events, mask, value).Some? ==>
      state == RunLoopOperation.Finished
      && consumed == FirstMatch(events, mask, value).value + 1
      && flags == events[consumed - 1]
    ensures FirstMatch(events, mask, value).None? ==>
      state == RunLoopOperation.Executing && consumed == |events|
      && (events != [] ==> flags == events[|events| - 1])
  {
    var watch := new ReachabilityOperation(hostName);
    watch.SetFlagsTarget(mask, value);
    watch.Start();
    consumed := 0;
    while consumed < |events| && watch.registered
      invariant watch.Valid() && watch.flagsTargetMask == mask && watch.flagsTargetValue == value
      invariant 0 <= consumed <= |events|
      invariant forall j :: 0 <= j < consumed - 1 ==> !TargetReached(events[j], mask, value)
      invariant consumed > 0 ==> watch.flags == events[consumed - 1]
      invariant watch.registered <==> (consumed == 0 || !TargetReached(events[consumed - 1], mask, value))
      invariant watch.op.state != RunLoopOperation.Inited
    {
      watch.ReachabilitySetFlags(events[consumed]);
      consumed := consumed + 1;
    }
    state, flags := watch.op.state, watch.flags;
  }
}
