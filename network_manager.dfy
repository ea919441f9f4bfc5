/** SGNetworkManager's bookkeeping of queued operations: three tables keyed
    by operation (the completion target, its action and the thread that
    queued the operation) and the count of running network transfers behind
    `networkInUse`. The queues themselves, which start the operations, are
    outside the model; an operation's finishing is an input event. */
module NetworkManager {
  import opened Foundation
  import RunLoopOperation

  /** The three operation queues. */
  datatype Queue = NetworkManagementQueue | NetworkTransferQueue | CPUQueue

  /** The target/action pair to call when an operation completes, and the
      thread to call it on. A target is an object identity. */
  datatype Completion = Completion(target: nat, action: string, thread: Thread)

  class NetworkManager {
    /** The internal networking thread. */
    const networkRunLoopThread: Thread
    var runningOperationToTargetMap: map<RunLoopOperation.Operation, nat>
    var runningOperationToActionMap: map<RunLoopOperation.Operation, string>
    var runningOperationToThreadMap: map<RunLoopOperation.Operation, Thread>
    var runningNetworkTransferCount: nat
    /** The operations whose `isFinished` the manager observes. */
    var observed: set<RunLoopOperation.Operation>
    /** Those of them queued for network transfer. */
    var observedTransfers: set<RunLoopOperation.Operation>

    /** The three tables have the same keys, and the transfer count is the
        number of transfer operations that have not finished yet. */
    ghost predicate Valid()
      reads this
    {
      && runningOperationToActionMap.Keys == runningOperationToTargetMap.Keys
      && runningOperationToThreadMap.Keys == runningOperationToTargetMap.Keys
      && observedTransfers <= observed
      && runningNetworkTransferCount == |observedTransfers|
    }

    constructor (networkRunLoopThread: Thread)
      ensures Valid() && this.networkRunLoopThread == networkRunLoopThread
      ensures runningOperationToTargetMap == map[] && observed == {} && runningNetworkTransferCount == 0
    {
      this.networkRunLoopThread := networkRunLoopThread;
      runningOperationToTargetMap := map[];
      runningOperationToActionMap := map[];
      runningOperationToThreadMap := map[];
      runningNetworkTransferCount := 0;
      observed := {};
      observedTransfers := {};
    }

    /** `networkInUse`: some network transfer is in progress. */
    function NetworkInUse(): (inUse: bool)
      requires Valid()
      reads this
      ensures inUse <==> observedTransfers != {}
    {
      runningNetworkTransferCount > 0
    }

    /** Queues `operation` on `queue`: a network operation with no run loop
        thread gets the networking thread; the target, action and calling
        thread are recorded; a transfer is counted; and the manager starts
        observing the operation's `isFinished`. An operation can be queued
        once only. */
    method AddOperation(operation: RunLoopOperation.Operation, queue: Queue, target: nat, action: string,
                        callingThread: Thread)
      requires Valid() && operation.Valid() && operation.state == RunLoopOperation.Inited
      requires operation !in observed && operation !in runningOperationToTargetMap
      modifies this`runningOperationToTargetMap, this`runningOperationToActionMap, this`runningOperationToThreadMap
      modifies this`observed, this`observedTransfers, this`runningNetworkTransferCount, operation`runLoopThread
      ensures Valid() && operation.Valid()
      ensures operation.runLoopThread ==
        (if queue != CPUQueue && old(operation.runLoopThread).None? then Some(networkRunLoopThread)
         else old(operation.runLoopThread))
      ensures runningOperationToTargetMap == old(runningOperationToTargetMap)[operation := target]
      ensures runningOperationToActionMap == old(runningOperationToActionMap)[operation := action]
      ensures runningOperationToThreadMap == old(runningOperationToThreadMap)[operation := callingThread]
      ensures observed == old(observed) + {operation}
      ensures observedTransfers == old(observedTransfers) + (if queue == NetworkTransferQueue then {operation} else {})
      ensures runningNetworkTransferCount == old(runningNetworkTransferCount) + (if queue == NetworkTransferQueue then 1 else 0)
    {
      if queue != CPUQueue && operation.runLoopThread.None? {
        operation.SetRunLoopThread(Some(networkRunLoopThread));
      }
      Record(operation, target, action, callingThread);
      Observe(operation, queue == NetworkTransferQueue);
    }

    /** Enters the completion of `operation` in the three tables. */
    method Record(operation: RunLoopOperation.Operation, target: nat, action: string, callingThread: Thread)
      requires Valid()
      modifies this`runningOperationToTargetMap, this`runningOperationToActionMap, this`runningOperationToThreadMap
      ensures Valid()
      ensures runningOperationToTargetMap == old(runningOperationToTargetMap)[operation := target]
      ensures runningOperationToActionMap == old(runningOperationToActionMap)[operation := action]
      ensures runningOperationToThreadMap == old(runningOperationToThreadMap)[operation := callingThread]
    {
      runningOperationToTargetMap := runningOperationToTargetMap[operation := target];
      runningOperationToActionMap := runningOperationToActionMap[operation := action];
      runningOperationToThreadMap := runningOperationToThreadMap[operation := callingThread];
    }

    /** Starts observing `operation`, counting it when it is a transfer. */
    method Observe(operation: RunLoopOperation.Operation, transfer: bool)
      requires Valid() && operation !in observed
      modifies this`observed, this`observedTransfers, this`runningNetworkTransferCount
      ensures Valid()
      ensures observed == old(observed) + {operation}
      ensures observedTransfers == old(observedTransfers) + (if transfer then {operation} else {})
      ensures runningNetworkTransferCount == old(runningNetworkTransferCount) + (if transfer then 1 else 0)
    {
      if transfer {
        observedTransfers := observedTransfers + {operation};
        runningNetworkTransferCount := runningNetworkTransferCount + 1;
      }
      observed := observed + {operation};
    }

    /** `addNetworkManagementOperation:finishedTarget:action:`: the
        operation runs its callbacks on the networking thread unless it
        already has a run loop thread. */
    method AddNetworkManagementOperation(operation: RunLoopOperation.Operation, target: nat, action: string,
                                         callingThread: Thread)
      requires Valid() && operation.Valid() && operation.state == RunLoopOperation.Inited
      requires operation !in observed && operation !in runningOperationToTargetMap
      modifies this, operation`runLoopThread
      ensures Valid() && operation.Valid()
      ensures operation.runLoopThread == Some(old(operation.runLoopThread).GetOr(networkRunLoopThread))
      ensures runningOperationToTargetMap == old(runningOperationToTargetMap)[operation := target]
      ensures runningOperationToActionMap == old(runningOperationToActionMap)[operation := action]
      ensures runningOperationToThreadMap == old(runningOperationToThreadMap)[operation := callingThread]
      ensures observed == old(observed) + {operation} && observedTransfers == old(observedTransfers)
      ensures runningNetworkTransferCount == old(runningNetworkTransferCount)
    {
      AddOperation(operation, NetworkManagementQueue, target, action, callingThread);
    }

    /** `addNetworkTransferOperation:finishedTarget:action:`: as above, and
        the network is in use until the operation finishes. */
    method AddNetworkTransferOperation(operation: RunLoopOperation.Operation, target: nat, action: string,
                                       callingThread: Thread)
      requires Valid() && operation.Valid() && operation.state == RunLoopOperation.Inited
      requires operation !in observed && operation !in runningOperationToTargetMap
      modifies this, operation`runLoopThread
      ensures Valid() && operation.Valid() && NetworkInUse()
      ensures operation.runLoopThread == Some(old(operation.runLoopThread).GetOr(networkRunLoopThread))
      ensures runningOperationToTargetMap == old(runningOperationToTargetMap)[operation := target]
      ensures runningOperationToActionMap == old(runningOperationToActionMap)[operation := action]
      ensures runningOperationToThreadMap == old(runningOperationToThreadMap)[operation := callingThread]
      ensures observed == old(observed) + {operation} && observedTransfers == old(observedTransfers) + {operation}
      ensures runningNetworkTransferCount == old(runningNetworkTransferCount) + 1
    {
      AddOperation(operation, NetworkTransferQueue, target, action, callingThread);
    }

    /** `addCPUOperation:finishedTarget:action:`: the run loop thread is
        left alone. */
    method AddCPUOperation(operation: RunLoopOperation.Operation, target: nat, action: string, callingThread: Thread)
      requires Valid() && operation.Valid() && operation.state == RunLoopOperation.Inited
      requires operation !in observed && operation !in runningOperationToTargetMap
      modifies this, operation`runLoopThread
      ensures Valid() && operation.Valid()
      ensures operation.runLoopThread == old(operation.runLoopThread)
      ensures runningOperationToTargetMap == old(runningOperationToTargetMap)[operation := target]
      ensures runningOperationToActionMap == old(runningOperationToActionMap)[operation := action]
      ensures runningOperationToThreadMap == old(runningOperationToThreadMap)[operation := callingThread]
      ensures observed == old(observed) + {operation} && observedTransfers == old(observedTransfers)
      ensures runningNetworkTransferCount == old(runningNetworkTransferCount)
    {
      AddOperation(operation, CPUQueue, target, action, callingThread);
    }

    /** `cancelOperation:`: nothing happens for nil or for an operation
        that is not queued; otherwise the operation is cancelled and its
        entries leave the three tables, so its completion can no longer be
        called. Its `isFinished` is still observed. */
    method CancelOperation(operation: RunLoopOperation.Operation?)
      requires Valid() && (operation != null ==> operation.Valid())
      modifies this, operation
      ensures Valid()
      ensures operation == null || operation !in old(runningOperationToTargetMap) ==>
        unchanged(this) && (operation != null ==> unchanged(operation))
      ensures operation != null && operation in old(runningOperationToTargetMap) ==>
        && operation.Valid() && operation.cancelled
        && operation.state == old(operation.state) && operation.error == old(operation.error)
        && operation.runLoopThread == old(operation.runLoopThread)
        && operation.runLoopModes == old(operation.runLoopModes) && operation.hooks == old(operation.hooks)
        && runningOperationToTargetMap == old(runningOperationToTargetMap) - {operation}
        && runningOperationToActionMap == old(runningOperationToActionMap) - {operation}
        && runningOperationToThreadMap == old(runningOperationToThreadMap) - {operation}
        && observed == old(observed) && observedTransfers == old(observedTransfers)
        && runningNetworkTransferCount == old(runningNetworkTransferCount)
    {
      if operation != null && operation in runningOperationToTargetMap {
        var _ := operation.Cancel();
        runningOperationToTargetMap := runningOperationToTargetMap - {operation};
        runningOperationToActionMap := runningOperationToActionMap - {operation};
        runningOperationToThreadMap := runningOperationToThreadMap - {operation};
      }
    }

    /** The `isFinished` observation: the manager stops observing the
        operation and, for a transfer, counts it as no longer running. The
        completion is then performed on the queuing thread, which is
        `OperationDone`. */
    method OperationDidFinish(operation: RunLoopOperation.Operation)
      requires Valid() && operation in observed && operation.state == RunLoopOperation.Finished
      modifies this
      ensures Valid()
      ensures observed == old(observed) - {operation} && observedTransfers == old(observedTransfers) - {operation}
      ensures runningNetworkTransferCount ==
        old(runningNetworkTransferCount) - (if operation in old(observedTransfers) then 1 else 0)
      ensures runningOperationToTargetMap == old(runningOperationToTargetMap)
      ensures runningOperationToActionMap == old(runningOperationToActionMap)
      ensures runningOperationToThreadMap == old(runningOperationToThreadMap)
    {
      if operation in observedTransfers {
        observedTransfers := observedTransfers - {operation};
        runningNetworkTransferCount := runningNetworkTransferCount - 1;
      }
      observed := observed - {operation};
    }

    /** `operationDone:`, on the thread that queued the operation: the
        operation's entries leave the tables, and its target/action is due
        exactly when it still had entries (it was not cancelled through the
        manager) and it was not cancelled. */
    method OperationDone(operation: RunLoopOperation.Operation) returns (completion: Option<Completion>)
      requires Valid() && operation.state == RunLoopOperation.Finished
      modifies this
      ensures Valid()
      ensures completion.Some? <==> operation in old(runningOperationToTargetMap) && !operation.cancelled
      ensures completion.Some? ==> completion.value == Completion(old(runningOperationToTargetMap)[operation],
                                                                 old(runningOperationToActionMap)[operation],
                                                                 old(runningOperationToThreadMap)[operation])
      ensures runningOperationToTargetMap == old(runningOperationToTargetMap) - {operation}
      ensures runningOperationToActionMap == old(runningOperationToActionMap) - {operation}
      ensures runningOperationToThreadMap == old(runningOperationToThreadMap) - {operation}
      ensures observed == old(observed) && observedTransfers == old(observedTransfers)
      ensures runningNetworkTransferCount == old(runningNetworkTransferCount)
    {
      completion := None;
      if operation in runningOperationToTargetMap {
        var target := runningOperationToTargetMap[operation];
        var action := runningOperationToActionMap[operation];
        var thread := runningOperationToThreadMap[operation];
        runningOperationToTargetMap := runningOperationToTargetMap - {operation};
        runningOperationToActionMap := runningOperationToActionMap - {operation};
        runningOperationToThreadMap := runningOperationToThreadMap - {operation};
        if !operation.cancelled {
          completion := Some(Completion(target, action, thread));
        }
      }
    }
  }

  /** A transfer queued from `caller`: the network is in use from the moment
      it is queued until it finishes, its callbacks run on the networking
      thread, and its completion is called with the recorded target and
      action on the queuing thread. */
  method TransferCompletes(networkThread: Thread, caller: Thread, target: nat, action: string)
    returns (inUseWhileRunning: bool, inUseAfter: bool, callbackThread: Option<Thread>, completion: Option<Completion>)
    ensures inUseWhileRunning && !inUseAfter
    ensures callbackThread == Some(networkThread)
    ensures completion == Some(Completion(target, action, caller))
  {
    var manager := new NetworkManager(networkThread);
    var operation := new RunLoopOperation.Operation();
    manager.AddNetworkTransferOperation(operation, target, action, caller);
    callbackThread := operation.runLoopThread;
    var runDidStart := operation.Start();
    inUseWhileRunning := manager.NetworkInUse();
    operation.FinishWithError(None);
    manager.OperationDidFinish(operation);
    inUseAfter := manager.NetworkInUse();
    completion := manager.OperationDone(operation);
  }

  /** Cancelling through the manager after the operation finished but
      before its completion was delivered still suppresses the completion:
      once `cancelOperation:` returns on the queuing thread, the target is
      never called. */
  method CancelAfterFinishSuppressesCompletion(networkThread: Thread, caller: Thread, target: nat, action: string)
    returns (completion: Option<Completion>, queued: bool)
    ensures completion.None? && !queued
  {
    var manager := new NetworkManager(networkThread);
    var operation := new RunLoopOperation.Operation();
    manager.AddNetworkManagementOperation(operation, target, action, caller);
    var runDidStart := operation.Start();
    operation.FinishWithError(None);
    manager.OperationDidFinish(operation);
    manager.CancelOperation(operation);
    completion := manager.OperationDone(operation);
    queued := operation in manager.runningOperationToTargetMap;
  }

  /** A CPU operation cancelled before the queue starts it finishes with the
      cancellation error and never gets its completion; its run loop thread
      is not touched. */
  method CancelledOperationNeverCompletes(networkThread: Thread, caller: Thread, target: nat, action: string)
    returns (completion: Option<Completion>, error: Option<NSError>, callbackThread: Option<Thread>)
    ensures completion.None? && error == Some(RunLoopOperation.UserCancelledError())
    ensures callbackThread.None?
  {
    var manager := new NetworkManager(networkThread);
    var operation := new RunLoopOperation.Operation();
    manager.AddCPUOperation(operation, target, action, caller);
    callbackThread := operation.runLoopThread;
    manager.CancelOperation(operation);
    var runDidStart := operation.Start();
    manager.OperationDidFinish(operation);
    completion := manager.OperationDone(operation);
    error := operation.error;
  }

  /** Cancelling nil or an operation that was never queued leaves the
      tables and the queued operation alone. */
  method StrayCancelsChangeNothing(networkThread: Thread, caller: Thread, target: nat, action: string)
    returns (targets: map<RunLoopOperation.Operation, nat>, cancelled: bool, recorded: Option<nat>)
    ensures |targets| == 1 && !cancelled && recorded == Some(target)
  {
    var manager := new NetworkManager(networkThread);
    var operation := new RunLoopOperation.Operation();
    var stray := new RunLoopOperation.Operation();
    manager.AddNetworkManagementOperation(operation, target, action, caller);
    manager.CancelOperation(null);
    manager.CancelOperation(stray);
    targets, cancelled := manager.runningOperationToTargetMap, operation.cancelled;
    recorded := if operation in targets then Some(targets[operation]) else None;
  }
}
