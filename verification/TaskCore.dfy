/** The critical sections of vtask.h.

    Every function below is what one holder of `resumeMutex`, `resultMutex` or an operation's mutex
    does before it lets go of the lock.  The classes StateBase and Operation perform the same sections
    on their fields, as the source does; their contracts tie each method to its function.  TaskMachine
    interleaves the functions in every possible order. */
module TaskCore {

  datatype Option<+T> = None | Some(value: T)

  datatype Failure = TaskCancelled | SchedulerRejected | Thrown(code: int)

  datatype Outcome = Value(value: int) | Error(failure: Failure)

  // ---------------------------------------------------------------- state_base: the resume side

  datatype Execution = Execution(running: bool, resumePending: bool, executionFinished: bool, started: bool)

  datatype Entry = Ignored | Deferred | Acquired

  datatype Departure = Teardown | Again | Released

  /** First section of resume(): become the runner, leave a note for the runner, or do nothing. */
  function EnterResume(e: Execution): (Execution, Entry) {
    if e.executionFinished then (e, Ignored)
    else if e.running then (e.(resumePending := true), Deferred)
    else (e.(running := true), Acquired)
  }

  /** Head of the resume loop: only the very first pass may skip the body. */
  function Start(e: Execution, stopping: bool): (Execution, bool) {
    (e.(started := true), !e.started && stopping)
  }

  /** Section after the frame came back: tear it down, go round again, or release the runner's role. */
  function LeaveFrame(e: Execution, finished: bool): (Execution, Departure) {
    if finished then (e, Teardown)
    else if e.resumePending then (e.(resumePending := false), Again)
    else (e.(running := false), Released)
  }

  function FinishExecution(e: Execution): Execution {
    e.(running := false, executionFinished := true)
  }

  // ---------------------------------------------------------------- state_base: the result side

  /** A callback handed to onReady: `execution` selects completion instead of settlement. */
  datatype Callback = Callback(id: nat, execution: bool)

  datatype ResultCell = ResultCell(settled: Option<Outcome>, completed: bool, cancellationRequested: bool,
                                   resultCallbacks: seq<Callback>, completionCallbacks: seq<Callback>)

  /** setValue and setError. */
  function Settle(r: ResultCell, outcome: Outcome): (ResultCell, seq<Callback>) {
    if r.settled.Some? then (r, [])
    else (r.(settled := Some(outcome), resultCallbacks := []), r.resultCallbacks)
  }

  /** requestStop up to the release of resultMutex. */
  function StopResult(r: ResultCell): (ResultCell, seq<Callback>) {
    var (r', callbacks) := Settle(r, Error(TaskCancelled));
    (r'.(cancellationRequested := true), callbacks)
  }

  /** completeExecution. */
  function Complete(r: ResultCell): (ResultCell, seq<Callback>) {
    (r.(completed := true, completionCallbacks := []), r.completionCallbacks)
  }

  predicate Happened(r: ResultCell, c: Callback) {
    if c.execution then r.completed else r.settled.Some?
  }

  /** onReady: the callbacks the caller has to run itself. */
  function Register(r: ResultCell, c: Callback): (ResultCell, seq<Callback>) {
    if Happened(r, c) then (r, [c])
    else if c.execution then (r.(completionCallbacks := r.completionCallbacks + [c]), [])
    else (r.(resultCallbacks := r.resultCallbacks + [c]), [])
  }

  // ---------------------------------------------------------------- operation

  datatype OpCore = OpCore(claimed: bool, executing: bool, failure: Option<Failure>)

  /** complete(): whether this call took the claim. */
  function CompleteOp(o: OpCore, error: Option<Failure>): (OpCore, bool) {
    if o.claimed then (o, false) else (o.(claimed := true, failure := error), true)
  }

  /** cancel(): refused while a worker or a probe is executing. */
  function CancelOp(o: OpCore): (OpCore, bool) {
    if o.executing || o.claimed then (o, false)
    else (o.(claimed := true, failure := Some(TaskCancelled)), true)
  }

  function BeginWorkOp(o: OpCore, stopping: bool): (OpCore, bool) {
    if o.claimed || stopping then (o, false) else (o.(executing := true), true)
  }

  function EndProbeOp(o: OpCore): OpCore {
    o.(executing := false)
  }

  function RejectOp(o: OpCore): OpCore {
    o.(failure := Some(SchedulerRejected))
  }

  /** check(): what await_resume throws, if anything. */
  function Check(o: OpCore, stopping: bool): Option<Failure> {
    if o.failure.Some? then o.failure
    else if stopping then Some(TaskCancelled)
    else None
  }

  // ---------------------------------------------------------------- the objects themselves

  class StateBase {
    var running: bool
    var resumePending: bool
    var executionFinished: bool
    var started: bool
    var settled: bool
    var value: Option<int>
    var resultError: Option<Failure>
    var completed: bool
    var cancellationRequested: bool
    var resultCallbacks: seq<Callback>
    var completionCallbacks: seq<Callback>

    /** A settled state holds a value or an error, never both; an unsettled one holds neither. */
    ghost predicate Valid()
      reads this
    {
      if settled then value.Some? != resultError.Some? else value.None? && resultError.None?
    }

    ghost function Exec(): Execution
      reads this
    {
      Execution(running, resumePending, executionFinished, started)
    }

    ghost function Result(): ResultCell
      requires Valid()
      reads this
    {
      ResultCell(if !settled then None
                 else if value.Some? then Some(Value(value.value)) else Some(Error(resultError.value)),
                 completed, cancellationRequested, resultCallbacks, completionCallbacks)
    }

    constructor ()
      ensures Valid()
      ensures Exec() == Execution(false, false, false, false)
      ensures Result() == ResultCell(None, false, false, [], [])
    {
      running, resumePending, executionFinished, started := false, false, false, false;
      settled, value, resultError, completed, cancellationRequested := false, None, None, false, false;
      resultCallbacks, completionCallbacks := [], [];
    }

    method Enter() returns (entry: Entry)
      modifies `running, `resumePending
      ensures (Exec(), entry) == EnterResume(old(Exec()))
      ensures entry.Ignored? <==> old(executionFinished)
      ensures entry.Deferred? <==> !old(executionFinished) && old(running)
      ensures running == (old(running) || entry.Acquired?)
      ensures resumePending == (old(resumePending) || entry.Deferred?)
    {
      if executionFinished {
        return Ignored;
      }
      if running {
        resumePending := true;
        return Deferred;
      }
      running := true;
      return Acquired;
    }

    method Begin() returns (skipBody: bool)
      modifies `started
      ensures (Exec(), skipBody) == Start(old(Exec()), cancellationRequested)
      ensures started && (skipBody <==> !old(started) && cancellationRequested)
    {
      skipBody := !started && cancellationRequested;
      started := true;
    }

    method Leave(finished: bool) returns (departure: Departure)
      modifies `running, `resumePending
      ensures (Exec(), departure) == LeaveFrame(old(Exec()), finished)
      ensures departure.Teardown? <==> finished
      ensures departure.Again? <==> !finished && old(resumePending)
      ensures running == (old(running) && !departure.Released?)
      ensures resumePending == (old(resumePending) && !departure.Again?)
    {
      if finished {
        return Teardown;
      }
      if !resumePending {
        running := false;
        return Released;
      }
      resumePending := false;
      return Again;
    }

    method Finish()
      modifies `running, `executionFinished
      ensures Exec() == FinishExecution(old(Exec()))
      ensures !running && executionFinished
    {
      running := false;
      executionFinished := true;
    }

    method SetValue(v: int) returns (callbacks: seq<Callback>)
      requires Valid()
      modifies `settled, `value, `resultCallbacks
      ensures Valid() && (Result(), callbacks) == Settle(old(Result()), Value(v))
      ensures settled && value == (if old(settled) then old(value) else Some(v)) && resultError == old(resultError)
      ensures callbacks == (if old(settled) then [] else old(resultCallbacks))
      ensures resultCallbacks == (if old(settled) then old(resultCallbacks) else [])
    {
      callbacks := [];
      if settled {
        return;
      }
      value := Some(v);
      settled := true;
      callbacks, resultCallbacks := resultCallbacks, callbacks;
    }

    method SetError(error: Failure) returns (callbacks: seq<Callback>)
      requires Valid()
      modifies `settled, `resultError, `resultCallbacks
      ensures Valid() && (Result(), callbacks) == Settle(old(Result()), Error(error))
      ensures settled && resultError == (if old(settled) then old(resultError) else Some(error)) && value == old(value)
      ensures callbacks == (if old(settled) then [] else old(resultCallbacks))
      ensures resultCallbacks == (if old(settled) then old(resultCallbacks) else [])
    {
      callbacks := [];
      if settled {
        return;
      }
      resultError := Some(error);
      settled := true;
      callbacks, resultCallbacks := resultCallbacks, callbacks;
    }

    method RequestStop() returns (callbacks: seq<Callback>)
      requires Valid()
      modifies `settled, `resultError, `resultCallbacks, `cancellationRequested
      ensures Valid() && (Result(), callbacks) == StopResult(old(Result()))
      ensures settled && cancellationRequested
      ensures resultError == if old(settled) then old(resultError) else Some(TaskCancelled)
      ensures callbacks == (if old(settled) then [] else old(resultCallbacks))
      ensures resultCallbacks == (if old(settled) then old(resultCallbacks) else [])
    {
      callbacks := [];
      if !settled {
        resultError := Some(TaskCancelled);
        settled := true;
        callbacks, resultCallbacks := resultCallbacks, callbacks;
      }
      cancellationRequested := true;
    }

    method CompleteExecution() returns (callbacks: seq<Callback>)
      requires Valid()
      modifies `completed, `completionCallbacks
      ensures Valid() && (Result(), callbacks) == Complete(old(Result()))
      ensures completed && callbacks == old(completionCallbacks) && completionCallbacks == []
    {
      callbacks := [];
      completed := true;
      callbacks, completionCallbacks := completionCallbacks, callbacks;
    }

    method OnReady(callback: Callback) returns (runNow: seq<Callback>)
      requires Valid()
      modifies `resultCallbacks, `completionCallbacks
      ensures Valid() && (Result(), runNow) == Register(old(Result()), callback)
      ensures if (if callback.execution then completed else settled) then
                runNow == [callback] && resultCallbacks == old(resultCallbacks)
                && completionCallbacks == old(completionCallbacks)
              else if callback.execution then
                runNow == [] && resultCallbacks == old(resultCallbacks)
                && completionCallbacks == old(completionCallbacks) + [callback]
              else
                runNow == [] && resultCallbacks == old(resultCallbacks) + [callback]
                && completionCallbacks == old(completionCallbacks)
    {
      if !(if callback.execution then completed else settled) {
        if callback.execution {
          completionCallbacks := completionCallbacks + [callback];
        } else {
          resultCallbacks := resultCallbacks + [callback];
        }
        return [];
      }
      return [callback];
    }
  }

  class Operation {
    var claimed: bool
    var executing: bool
    var failure: Option<Failure>

    ghost function Core(): OpCore
      reads this
    {
      OpCore(claimed, executing, failure)
    }

    constructor ()
      ensures Core() == OpCore(false, false, None)
    {
      claimed, executing, failure := false, false, None;
    }

    method Complete(error: Option<Failure>) returns (tookClaim: bool)
      modifies this
      ensures (Core(), tookClaim) == CompleteOp(old(Core()), error)
      ensures tookClaim == !old(claimed) && claimed && executing == old(executing)
      ensures failure == if tookClaim then error else old(failure)
    {
      if claimed {
        return false;
      }
      claimed := true;
      failure := error;
      return true;
    }

    method Cancel() returns (tookClaim: bool)
      modifies this
      ensures (Core(), tookClaim) == CancelOp(old(Core()))
      ensures tookClaim == (!old(claimed) && !old(executing)) && executing == old(executing)
      ensures claimed == (old(claimed) || tookClaim)
      ensures failure == if tookClaim then Some(TaskCancelled) else old(failure)
    {
      if executing || claimed {
        return false;
      }
      claimed := true;
      failure := Some(TaskCancelled);
      return true;
    }

    method BeginWork(stopping: bool) returns (ok: bool)
      modifies this
      ensures (Core(), ok) == BeginWorkOp(old(Core()), stopping)
      ensures ok == (!old(claimed) && !stopping) && executing == (old(executing) || ok)
      ensures claimed == old(claimed) && failure == old(failure)
    {
      if claimed || stopping {
        return false;
      }
      executing := true;
      return true;
    }

    /** The result tells the caller to complete the operation as cancelled. */
    method EndProbe(stopping: bool) returns (cancelled: bool)
      modifies this
      ensures Core() == EndProbeOp(old(Core())) && cancelled == stopping
      ensures !executing && claimed == old(claimed) && failure == old(failure)
    {
      executing := false;
      cancelled := stopping;
    }

    /** check(): throws what was recorded, and otherwise task_cancelled on a stop. */
    method CheckAll(stopping: bool) returns (thrown: Option<Failure>)
      ensures thrown == Check(Core(), stopping)
      ensures failure.Some? ==> thrown == failure
      ensures failure.None? ==> thrown == if stopping then Some(TaskCancelled) else None
    {
      if failure.Some? {
        return failure;
      }
      return if stopping then Some(TaskCancelled) else None;
    }

    method Reject()
      modifies this
      ensures Core() == RejectOp(old(Core()))
      ensures failure == Some(SchedulerRejected) && claimed == old(claimed) && executing == old(executing)
    {
      failure := Some(SchedulerRejected);
    }
  }
}
