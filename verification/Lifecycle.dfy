/**
 The two state machines: one per application, one per task.
 */
module Lifecycle {
  import opened Options

  datatype AppState =
    | New | Submitted | Accepted | Reserving | Resuming | Running
    | Rejected | Completed | Killing | Killed | Failing | Failed

  datatype AppEvent =
    | SubmitApplication | AcceptApplication | TryReserve | UpdateReservation | ResumingApplication
    | AppTaskCompleted | RunApplication | ReleaseAppAllocation | CompleteApplication
    | RejectApplication | FailApplication | KillApplication | KilledApplication

  /** The state an event leads to; no state when the event is refused. */
  function AppNext(s: AppState, e: AppEvent): Option<AppState> {
    match e
    case SubmitApplication => if s == New then Some(Submitted) else None
    case AcceptApplication => if s == Submitted then Some(Accepted) else None
    case TryReserve => if s == Accepted then Some(Reserving) else None
    case UpdateReservation => if s == Reserving then Some(Reserving) else None
    case ResumingApplication => if s == Reserving then Some(Resuming) else None
    case AppTaskCompleted => if s == Resuming then Some(Resuming) else None
    case RunApplication => if s in {Accepted, Reserving, Resuming, Running} then Some(Running) else None
    case ReleaseAppAllocation =>
      if s in {Running, Accepted, Reserving} then Some(Running)
      else if s in {Failing, Resuming} then Some(s) else None
    case CompleteApplication => if s == Running then Some(Completed) else None
    case RejectApplication => if s == Submitted then Some(Rejected) else None
    case FailApplication =>
      if s in {Submitted, Accepted, Running, Reserving} then Some(Failing)
      else if s in {Failing, Rejected} then Some(Failed) else None
    case KillApplication => if s in {Accepted, Running, Reserving} then Some(Killing) else None
    case KilledApplication => if s == Killing then Some(Killed) else None
  }

  function AppAfter(s: AppState, e: AppEvent): AppState {
    if AppNext(s, e).Some? then AppNext(s, e).value else s
  }

  function Rank(s: AppState): nat {
    match s
    case New => 0
    case Submitted => 1
    case Accepted => 2
    case Reserving => 3
    case Resuming => 4
    case Running => 5
    case Rejected | Completed | Killing | Failing => 6
    case Killed | Failed => 7
  }

  /** In which states the application accepts an event, and where it leads, by rank: all before Running lead on to it, and it ends
      in one of four ways. */
  lemma AppTable(s: AppState)
    ensures AppNext(s, SubmitApplication) == if Rank(s) == 0 then Some(Submitted) else None
    ensures AppNext(s, AcceptApplication) == if Rank(s) == 1 then Some(Accepted) else None
    ensures AppNext(s, RejectApplication) == if Rank(s) == 1 then Some(Rejected) else None
    ensures AppNext(s, TryReserve) == if Rank(s) == 2 then Some(Reserving) else None
    ensures AppNext(s, UpdateReservation) == if Rank(s) == 3 then Some(s) else None
    ensures AppNext(s, ResumingApplication) == if Rank(s) == 3 then Some(Resuming) else None
    ensures AppNext(s, AppTaskCompleted) == if Rank(s) == 4 then Some(s) else None
    ensures AppNext(s, RunApplication) == if 2 <= Rank(s) <= 5 then Some(Running) else None
    ensures AppNext(s, CompleteApplication) == if Rank(s) == 5 then Some(Completed) else None
    ensures AppNext(s, ReleaseAppAllocation)
         == if 2 <= Rank(s) <= 5 && s != Resuming then Some(Running) else if s == Resuming || s == Failing then Some(s) else None
    ensures AppNext(s, FailApplication)
         == if 1 <= Rank(s) <= 5 && s != Resuming then Some(Failing) else if s == Failing || s == Rejected then Some(Failed) else None
    ensures AppNext(s, KillApplication) == if 2 <= Rank(s) <= 5 && s != Resuming then Some(Killing) else None
    ensures AppNext(s, KilledApplication) == if s == Killing then Some(Killed) else None
  {
  }

  function AppRun(s: AppState, events: seq<AppEvent>): AppState {
    if events == [] then s else AppAfter(AppRun(s, events[..|events| - 1]), events[|events| - 1])
  }

  /** How often a run enters a state from another one. */
  function Entries(s: AppState, events: seq<AppEvent>, target: AppState): nat {
    if events == [] then 0
    else
      var before, after := AppRun(s, events[..|events| - 1]), AppRun(s, events);
      Entries(s, events[..|events| - 1], target) + if before != after && after == target then 1 else 0
  }

  function Changes(s: AppState, events: seq<AppEvent>): nat {
    if events == [] then 0
    else Changes(s, events[..|events| - 1]) + if AppRun(s, events[..|events| - 1]) != AppRun(s, events) then 1 else 0
  }

  /** An application changes state at most seven times, each time to a higher rank. */
  lemma {:induction false} FewChanges(s: AppState, events: seq<AppEvent>)
    ensures Rank(s) + Changes(s, events) <= Rank(AppRun(s, events)) <= 7
  {
    if events != [] {
      FewChanges(s, events[..|events| - 1]);
    }
  }

  /** No state is entered twice, and none that ranks above the present one was entered before. */
  lemma {:induction false} EnteredOnce(s: AppState, events: seq<AppEvent>, target: AppState)
    ensures Entries(s, events, target) <= 1
    ensures Entries(s, events, target) == 1 ==> Rank(s) < Rank(target) <= Rank(AppRun(s, events))
  {
    if events != [] {
      EnteredOnce(s, events[..|events| - 1], target);
      FewChanges(s, events[..|events| - 1]);
    }
  }

  datatype TaskState =
    | TNew | TPending | TScheduling | TAllocated | TRejected | TBound | TKilling | TKilled | TFailed | TCompleted

  datatype TaskEvent =
    | InitTask | SubmitTask | TaskAllocated | TaskBound | CompleteTask | KillTask | TaskKilled | TaskRejected | TaskFail

  function TaskNext(s: TaskState, e: TaskEvent): Option<TaskState> {
    match e
    case InitTask => if s == TNew then Some(TPending) else None
    case SubmitTask => if s == TPending then Some(TScheduling) else None
    case TaskAllocated =>
      if s == TScheduling then Some(TAllocated) else if s == TCompleted then Some(TCompleted) else None
    case TaskBound => if s == TAllocated then Some(TBound) else None
    case CompleteTask => Some(TCompleted)
    case KillTask => if s in {TPending, TScheduling, TAllocated, TBound} then Some(TKilling) else None
    case TaskKilled => if s == TKilling then Some(TKilled) else None
    case TaskRejected => if s in {TNew, TPending, TScheduling} then Some(TRejected) else None
    case TaskFail => if s in {TNew, TPending, TScheduling, TRejected, TAllocated} then Some(TFailed) else None
  }

  predicate Terminated(s: TaskState) {
    s in {TRejected, TKilled, TFailed, TCompleted}
  }

  /** How far a task has come on its way to its node; none if it left the way. */
  function Progress(s: TaskState): Option<nat> {
    match s
    case TNew => Some(0)
    case TPending => Some(1)
    case TScheduling => Some(2)
    case TAllocated => Some(3)
    case TBound => Some(4)
    case _ => None
  }

  /** The way of a task: each of its four steps is taken from the state before it only, rejection takes it off before it is
      allocated, failure before it is bound, and killing once it has begun. */
  lemma TaskTable(s: TaskState)
    ensures TaskNext(s, InitTask) == if Progress(s) == Some(0) then Some(TPending) else None
    ensures TaskNext(s, SubmitTask) == if Progress(s) == Some(1) then Some(TScheduling) else None
    ensures TaskNext(s, TaskAllocated)
         == if Progress(s) == Some(2) then Some(TAllocated) else if s == TCompleted then Some(s) else None
    ensures TaskNext(s, TaskBound) == if Progress(s) == Some(3) then Some(TBound) else None
    ensures TaskNext(s, TaskRejected) == if Progress(s).Some? && Progress(s).value <= 2 then Some(TRejected) else None
    ensures TaskNext(s, TaskFail)
         == if s == TRejected || (Progress(s).Some? && Progress(s).value <= 3) then Some(TFailed) else None
    ensures TaskNext(s, KillTask) == if Progress(s).Some? && Progress(s).value >= 1 then Some(TKilling) else None
    ensures TaskNext(s, TaskKilled) == if s == TKilling then Some(TKilled) else None
    ensures TaskNext(s, CompleteTask) == Some(TCompleted)
  {
  }
}
