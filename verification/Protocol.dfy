/**
 One application and its tasks as a step system. A step is one section of code that holds a lock; where
 the code gives up its lock in between, other steps may come in between. Events reach the
 application and its tasks in any order, so no assumption is made about the dispatcher.
 */
module Protocol {
  import opened Options
  import opened Lifecycle
  import M = CacheModel
  import C = CacheRuns

  type Id = string

  datatype Task = Task(placeholder: bool, state: TaskState, key: string, node: string)

  function NewTask(placeholder: bool): Task {
    Task(placeholder, TNew, "", "")
  }

  function Cleared(t: Task): Task {
    t.(key := "", node := "")
  }

  /** What stands of the one allocation that the core has outstanding for a task. */
  datatype Work =
    | Assuming(key: string, node: string)      // the callback has stored the key
    | AssumeFailed(key: string, node: string)
    | Assumed(key: string, node: string)
    | Marking(key: string, node: string)       // the state says Bound, the fields are not set yet
    | Queued(key: string, node: string)        // TaskAllocated is on its way
    | Binding(key: string, node: string)       // in the background
    | RollingBack(key: string)                 // the fields are cleared
    | Reporting(key: string)                   // the cached pod is forgotten

  /** A release that a task has begun; dst is the state the event leads to, if it leads to another one. */
  datatype Releasing = Asking(dst: Option<TaskState>) | Sending(dst: Option<TaskState>) | Recorded(dst: Option<TaskState>)

  /** What the core is told; at is the application's state at that moment. */
  datatype Request =
    | Release(task: Id, forced: bool, at: AppState)
    | Rollback(key: string)
    | RemoveApplication

  /** The last seven fields are history: which scheduling passes were begun (for placeholders: true), which states
      the application was in, and what became of the releases that tasks asked for. */
  datatype World = World(
    app: AppState,
    releaseable: seq<Id>,
    listed: set<Id>,
    tasks: map<Id, Task>,
    work: map<Id, Work>,
    releasing: map<Id, Releasing>,
    log: seq<Request>,
    passes: set<bool>,
    reached: set<AppState>,
    early: set<Id>,
    late: multiset<Id>,
    dropped: set<Id>,
    covered: set<Id>)

  datatype TaskAction = Add(placeholder: bool) | Remove | Init | Handle(event: TaskEvent)

  datatype ReleaseAction = Begin(event: TaskEvent) | Ask | Finish

  datatype WorkAction =
    | CallStart(key: string, node: string)
    | CallAssume(ok: bool, allBound: bool)
    | CallFails
    | CallQueues
    | MarkState
    | MarkFields
    | Deliver
    | LoseEvent
    | BindSucceeds
    | BindFails
    | ForgetPod
    | Report

  datatype Step =
    | AppStep(event: AppEvent)
    | StartPass
    | TaskStep(t: Id, action: TaskAction)
    | ReleaseStep(t: Id, release: ReleaseAction)
    | WorkStep(t: Id, act: WorkAction)
    | CacheStep(e: C.Event)

  // ---------------------------------------------------------------------------------------------
  // The application's steps

  predicate Unaccepted(s: AppState) {
    s == New || s == Submitted
  }

  predicate AllTerminated(tasks: map<Id, Task>, listed: set<Id>) {
    forall t :: t in listed && t in tasks ==> Terminated(tasks[t].state)
  }

  function ForcedReleases(ids: seq<Id>, at: AppState): seq<Request> {
    seq(|ids|, i requires 0 <= i < |ids| => Release(ids[i], true, at))
  }

  /** On acceptance the recorded releases are sent, or the whole application is removed from the core. */
  function Flush(w: World): World {
    if w.releaseable == [] then w
    else if AllTerminated(w.tasks, w.listed) then
      w.(releaseable := [], log := w.log + [RemoveApplication], covered := w.covered + set t | t in w.releaseable)
    else
      w.(releaseable := [], log := w.log + ForcedReleases(w.releaseable, w.app))
  }

  function Clear(w: World): World {
    w.(releaseable := [], dropped := w.dropped + set t | t in w.releaseable)
  }

  function HandleApp(w: World, e: AppEvent): World {
    if AppNext(w.app, e).None? then w
    else
      var w' := w.(app := AppNext(w.app, e).value, reached := w.reached + {AppNext(w.app, e).value});
      match e
      case AcceptApplication => Flush(w')
      case RejectApplication => Clear(w')
      case FailApplication => Clear(w')
      case _ => w'
  }

  /** A release asked for before acceptance is recorded, once per task; later ones are sent. */
  function TryAdd(w: World, t: Id): World {
    if Unaccepted(w.app) && t !in w.releaseable then w.(releaseable := w.releaseable + [t]) else w
  }

  function AskRelease(w: World, t: Id): World {
    if t in w.releasing && w.releasing[t].Asking? then
      var r := if Unaccepted(w.app) then Recorded(w.releasing[t].dst) else Sending(w.releasing[t].dst);
      TryAdd(w, t).(releasing := w.releasing[t := r],
                    early := if Unaccepted(w.app) then w.early + {t} else w.early,
                    late := if Unaccepted(w.app) then w.late else w.late + multiset{t})
    else w
  }

  // ---------------------------------------------------------------------------------------------
  // The tasks' steps

  function WorkOf(w: World, t: Id): Option<Work> {
    if t in w.work then Some(w.work[t]) else None
  }

  /** A state machine handles one event at a time. */
  predicate Idle(w: World, t: Id) {
    t in w.tasks && t !in w.releasing
  }

  function HandleTask(w: World, t: Id, e: TaskEvent): World {
    if Idle(w, t) && TaskNext(w.tasks[t].state, e).Some?
    then w.(tasks := w.tasks[t := w.tasks[t].(state := TaskNext(w.tasks[t].state, e).value)])
    else w
  }

  function TaskNextWorld(w: World, t: Id, action: TaskAction): World {
    match action
    case Add(placeholder) =>
      if t in w.listed || t in w.work || t in w.releasing then w
      else w.(tasks := w.tasks[t := NewTask(placeholder)], listed := w.listed + {t})
    case Remove =>
      if t in w.tasks && Terminated(w.tasks[t].state) then w.(listed := w.listed - {t}) else w
    case Init =>
      if t in w.tasks && w.tasks[t].placeholder in w.passes then HandleTask(w, t, InitTask) else w
    case Handle(e) =>
      if e in {SubmitTask, TaskBound, KillTask, TaskKilled, TaskRejected} then HandleTask(w, t, e) else w
  }

  function FinishRelease(w: World, t: Id): World
    requires t in w.releasing && t in w.tasks
  {
    var r := w.releasing[t];
    var task := if r.dst.Some? then w.tasks[t].(state := r.dst.value) else w.tasks[t];
    var done := w.(tasks := w.tasks[t := task], releasing := w.releasing - {t});
    if r.Sending? then done.(log := w.log + [Release(t, false, w.app)]) else done
  }

  /** A task that fails or completes gives its allocation back; the application is asked in between. */
  function ReleaseNextWorld(w: World, t: Id, release: ReleaseAction): World {
    match release
    case Begin(e) =>
      if Idle(w, t) && e in {TaskFail, CompleteTask} && TaskNext(w.tasks[t].state, e).Some?
      then w.(releasing := w.releasing[t := Asking(TaskNext(w.tasks[t].state, e))]) else w
    case Ask => AskRelease(w, t)
    case Finish =>
      if t in w.tasks && t in w.releasing && !w.releasing[t].Asking? then FinishRelease(w, t) else w
  }

  // ---------------------------------------------------------------------------------------------
  // The way of an allocation

  /** At most one allocation per task is outstanding, and what the core sends is not empty. */
  predicate MayAllocate(w: World, t: Id, key: string, node: string) {
    t in w.tasks && t !in w.work && w.tasks[t].state !in {TAllocated, TBound} && key != "" && node != ""
  }

  /** What a step leaves of a task and its allocation, whether it begins a release, and what the core is told. */
  datatype Outcome = Outcome(task: Task, work: Option<Work>, releases: bool, told: seq<Request>)

  /** A delivered allocation is bound in the background; one for a completed task is released again. */
  function DeliverAllocation(task: Task, key: string, node: string): Outcome {
    var filled := task.(key := key, node := node);
    if task.state == TScheduling then Outcome(filled.(state := TAllocated), Some(Binding(key, node)), false, [])
    else if task.state == TCompleted then Outcome(filled, None, true, [])
    else Outcome(task, None, false, [])
  }

  function Advance(task: Task, work: Work, idle: bool, act: WorkAction): Outcome {
    match (act, work)
    case (CallAssume(ok, _), Assuming(key, node)) =>
      Outcome(task, Some(if ok then Assumed(key, node) else AssumeFailed(key, node)), false, [])
    case (CallFails, AssumeFailed(key, _)) =>
      if task.placeholder then Outcome(task, None, false, []) else Outcome(Cleared(task), Some(RollingBack(key)), false, [])
    case (CallQueues, Assumed(key, node)) => Outcome(task, Some(Queued(key, node)), false, [])
    case (MarkState, Assumed(key, node)) => Outcome(task.(state := TBound), Some(Marking(key, node)), false, [])
    case (MarkFields, Marking(key, node)) => Outcome(task.(key := key, node := node), None, false, [])
    case (Deliver, Queued(key, node)) =>
      if idle then DeliverAllocation(task, key, node) else Outcome(task, Some(work), false, [])
    case (LoseEvent, Queued(_, _)) => Outcome(task, None, false, [])
    case (BindSucceeds, Binding(_, _)) => Outcome(task, None, false, [])
    case (BindFails, Binding(key, _)) => Outcome(Cleared(task).(state := TScheduling), Some(RollingBack(key)), false, [])
    case (ForgetPod, RollingBack(key)) => Outcome(task, Some(Reporting(key)), false, [])
    case (Report, Reporting(key)) => Outcome(task, None, false, [Rollback(key)])
    case _ => Outcome(task, Some(work), false, [])
  }

  function WithOutcome(w: World, t: Id, o: Outcome): World {
    w.(tasks := w.tasks[t := o.task],
       work := if o.work.Some? then w.work[t := o.work.value] else w.work - {t},
       releasing := if o.releases then w.releasing[t := Asking(None)] else w.releasing,
       log := w.log + o.told)
  }

  function WorkNextWorld(w: World, t: Id, act: WorkAction): World {
    if act.CallStart? then
      if MayAllocate(w, t, act.key, act.node)
      then WithOutcome(w, t, Outcome(w.tasks[t].(key := act.key), Some(Assuming(act.key, act.node)), false, [])) else w
    else if t in w.tasks && t in w.work then WithOutcome(w, t, Advance(w.tasks[t], w.work[t], Idle(w, t), act)) else w
  }

  function Next(w: World, s: Step): World {
    match s
    case AppStep(e) => HandleApp(w, e)
    case StartPass =>
      if w.app == Reserving then w.(passes := w.passes + {true})
      else if w.app == Running then w.(passes := w.passes + {false}) else w
    case TaskStep(t, action) => TaskNextWorld(w, t, action)
    case ReleaseStep(t, release) => ReleaseNextWorld(w, t, release)
    case WorkStep(t, act) => WorkNextWorld(w, t, act)
    case CacheStep(_) => w
  }

  function Run(w: World, steps: seq<Step>): World {
    if steps == [] then w else Next(Run(w, steps[..|steps| - 1]), steps[|steps| - 1])
  }

  const START := World(New, [], {}, map[], map[], map[], [], {}, {New}, {}, multiset{}, {}, {})

  // ---------------------------------------------------------------------------------------------
  // The scheduler cache beside it

  datatype System = System(world: World, cache: M.Model)

  /** Assuming an unknown pod, or a pod on an unknown node, succeeds without doing anything. */
  function CacheNext(y: System, s: Step): M.Model {
    match s
    case CacheStep(e) => C.Apply(y.cache, e)
    case WorkStep(t, CallAssume(true, allBound)) =>
      if t in y.world.tasks && t in y.world.work && y.world.work[t].Assuming?
      then C.Apply(y.cache, C.Assume(t, y.world.work[t].node, allBound)) else y.cache
    case WorkStep(t, ForgetPod) =>
      if t in y.world.tasks && t in y.world.work && y.world.work[t].RollingBack?
      then C.Apply(y.cache, C.Forget(t)) else y.cache
    case _ => y.cache
  }

  function SystemNext(y: System, s: Step): System {
    System(Next(y.world, s), CacheNext(y, s))
  }

  function SystemRun(y: System, steps: seq<Step>): System {
    if steps == [] then y else SystemNext(SystemRun(y, steps[..|steps| - 1]), steps[|steps| - 1])
  }
}
