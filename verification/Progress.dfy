/**
 What a run achieves: how tasks get to their nodes, and how ended tasks give up what they hold,
 whatever else goes on in between.
 */
module Progress {
  import opened Options
  import opened Lifecycle
  import opened Protocol
  import opened Safety

  /** Steps that are not about this task. */
  predicate Apart(s: Step, t: Id) {
    !((s.TaskStep? || s.ReleaseStep? || s.WorkStep?) && s.t == t)
  }

  ghost predicate AllApart(steps: seq<Step>, t: Id) {
    forall s :: s in steps ==> Apart(s, t)
  }

  /** Other steps, then this one. */
  function After(w: World, others: seq<Step>, s: Step): World {
    Next(Run(w, others), s)
  }

  /** The task rests in this state, with this allocation on its way. */
  predicate At(w: World, t: Id, task: Task, work: Option<Work>) {
    t in w.tasks && t !in w.releasing && w.tasks[t] == task && WorkOf(w, t) == work
  }

  lemma ApartStep(w: World, s: Step, t: Id, task: Task, work: Option<Work>)
    requires At(w, t, task, work) && Apart(s, t)
    ensures At(Next(w, s), t, task, work) && w.passes <= Next(w, s).passes
  {
  }

  lemma {:induction false} ApartRun(w: World, steps: seq<Step>, t: Id, task: Task, work: Option<Work>)
    requires At(w, t, task, work) && AllApart(steps, t)
    ensures At(Run(w, steps), t, task, work) && w.passes <= Run(w, steps).passes
  {
    if steps != [] {
      var init, last := steps[..|steps| - 1], steps[|steps| - 1];
      assert last in steps;
      ApartRun(w, init, t, task, work);
      ApartStep(Run(w, init), last, t, task, work);
    }
  }

  // ---------------------------------------------------------------------------------------------
  // The way of a task

  /** A pass over the new tasks begins, of the running application for regular tasks, of the reserving one for placeholders. */
  function PassBegun(w: World, placeholder: bool): World {
    Next(Next(w, AppStep(if placeholder then TryReserve else RunApplication)), StartPass)
  }

  lemma PassReaches(w: World, t: Id, placeholder: bool)
    requires if placeholder then w.app == Accepted else w.app in {Accepted, Reserving, Resuming, Running}
    requires At(w, t, NewTask(placeholder), None)
    ensures placeholder in PassBegun(w, placeholder).passes && At(PassBegun(w, placeholder), t, NewTask(placeholder), None)
  {
  }

  /** From every state before the application runs, being told to run it schedules each of its new regular tasks; from
      acceptance, reserving schedules each of its new placeholders. */
  lemma NewTasksGetScheduled(w: World, t: Id, placeholder: bool, others: seq<Step>)
    requires if placeholder then w.app == Accepted else w.app in {Accepted, Reserving, Resuming, Running}
    requires At(w, t, NewTask(placeholder), None) && AllApart(others, t)
    ensures At(After(PassBegun(w, placeholder), others, TaskStep(t, Init)), t, Task(placeholder, TPending, "", ""), None)
  {
    PassReaches(w, t, placeholder);
    ApartRun(PassBegun(w, placeholder), others, t, NewTask(placeholder), None);
  }

  /** The core has allocated a task that was submitted to it, and the pod is assumed on the node. */
  function Confirmed(w: World, t: Id, key: string, node: string, allBound: bool, others: seq<seq<Step>>): World
    requires |others| == 4
  {
    var submitted := After(w, others[0], TaskStep(t, Handle(SubmitTask)));
    var called := After(submitted, others[1], WorkStep(t, CallStart(key, node)));
    After(After(called, others[2], WorkStep(t, CallAssume(true, allBound))), others[3], WorkStep(t, CallQueues))
  }

  function Delivered(w: World, t: Id, others: seq<seq<Step>>): World
    requires |others| == 3
  {
    var delivered := After(w, others[0], WorkStep(t, Deliver));
    After(After(delivered, others[1], WorkStep(t, BindSucceeds)), others[2], TaskStep(t, Handle(TaskBound)))
  }

  lemma Submits(w: World, t: Id, task: Task)
    requires At(w, t, task, None) && task.state == TPending
    ensures At(Next(w, TaskStep(t, Handle(SubmitTask))), t, task.(state := TScheduling), None)
  {
  }

  lemma Delivers(w: World, t: Id, task: Task, key: string, node: string)
    requires At(w, t, task, Some(Queued(key, node))) && task.state == TScheduling
    ensures At(Next(w, WorkStep(t, Deliver)), t, Task(task.placeholder, TAllocated, key, node), Some(Binding(key, node)))
  {
    Moves(w, t, Deliver);
  }

  lemma Succeeds(w: World, t: Id, task: Task, key: string, node: string)
    requires At(w, t, task, Some(Binding(key, node)))
    ensures At(Next(w, WorkStep(t, BindSucceeds)), t, task, None)
  {
    Moves(w, t, BindSucceeds);
  }

  lemma Binds(w: World, t: Id, task: Task)
    requires At(w, t, task, None) && task.state == TAllocated
    ensures At(Next(w, TaskStep(t, Handle(TaskBound))), t, task.(state := TBound), None)
  {
  }

  lemma TaskIsConfirmed(w: World, t: Id, task: Task, key: string, node: string, allBound: bool, others: seq<seq<Step>>)
    requires At(w, t, task, None) && task.state == TPending && key != "" && node != ""
    requires |others| == 4 && forall steps :: steps in others ==> AllApart(steps, t)
    ensures At(Confirmed(w, t, key, node, allBound, others), t, task.(state := TScheduling, key := key), Some(Queued(key, node)))
  {
    var pending := Run(w, others[0]);
    ApartRun(w, others[0], t, task, None);
    Submits(pending, t, task);
    var submitted := Next(pending, TaskStep(t, Handle(SubmitTask)));
    ApartRun(submitted, others[1], t, task.(state := TScheduling), None);
    Starts(Run(submitted, others[1]), t, key, node);
    var called := After(submitted, others[1], WorkStep(t, CallStart(key, node)));
    var named := task.(state := TScheduling, key := key);
    ApartRun(called, others[2], t, named, Some(Assuming(key, node)));
    Moves(Run(called, others[2]), t, CallAssume(true, allBound));
    var placed := After(called, others[2], WorkStep(t, CallAssume(true, allBound)));
    ApartRun(placed, others[3], t, named, Some(Assumed(key, node)));
    Moves(Run(placed, others[3]), t, CallQueues);
  }

  lemma TaskIsBound(w: World, t: Id, task: Task, key: string, node: string, others: seq<seq<Step>>)
    requires At(w, t, task, Some(Queued(key, node))) && task.state == TScheduling
    requires |others| == 3 && forall steps :: steps in others ==> AllApart(steps, t)
    ensures At(Delivered(w, t, others), t, Task(task.placeholder, TBound, key, node), None)
  {
    ApartRun(w, others[0], t, task, Some(Queued(key, node)));
    Delivers(Run(w, others[0]), t, task, key, node);
    var delivered := After(w, others[0], WorkStep(t, Deliver));
    var filled := Task(task.placeholder, TAllocated, key, node);
    ApartRun(delivered, others[1], t, filled, Some(Binding(key, node)));
    Succeeds(Run(delivered, others[1]), t, filled, key, node);
    var bound := After(delivered, others[1], WorkStep(t, BindSucceeds));
    ApartRun(bound, others[2], t, filled, None);
    Binds(Run(bound, others[2]), t, filled);
  }

  /** A pending task that the core allocates ends up bound, with the key and the node of its allocation. */
  lemma PendingTasksGetBound(w: World, t: Id, task: Task, key: string, node: string, allBound: bool,
                             before: seq<seq<Step>>, after: seq<seq<Step>>)
    requires At(w, t, task, None) && task.state == TPending && key != "" && node != ""
    requires |before| == 4 && forall steps :: steps in before ==> AllApart(steps, t)
    requires |after| == 3 && forall steps :: steps in after ==> AllApart(steps, t)
    ensures At(Delivered(Confirmed(w, t, key, node, allBound, before), t, after), t, Task(task.placeholder, TBound, key, node), None)
  {
    TaskIsConfirmed(w, t, task, key, node, allBound, before);
    TaskIsBound(Confirmed(w, t, key, node, allBound, before), t, task.(state := TScheduling, key := key), key, node, after);
  }

  /** An allocation that reaches a task in any other state, or whose event is lost, leaves nothing behind. */
  lemma StrayAllocations(w: World, t: Id, task: Task, key: string, node: string, act: WorkAction)
    requires At(w, t, task, Some(Queued(key, node)))
    requires act == LoseEvent || (act == Deliver && task.state !in {TScheduling, TCompleted})
    ensures var w' := Next(w, WorkStep(t, act));
            At(w', t, task, None) && w'.log == w.log && w'.releaseable == w.releaseable
  {
    Moves(w, t, act);
  }

  // ---------------------------------------------------------------------------------------------
  // A pod that cannot be assumed

  function Refused(w: World, t: Id, others: seq<seq<Step>>): World
    requires |others| == 2
  {
    After(After(w, others[0], WorkStep(t, CallAssume(false, false))), others[1], WorkStep(t, CallFails))
  }

  /** A regular task gives the allocation up; a placeholder keeps its key and is left to fail. */
  lemma RefusedTask(w: World, t: Id, task: Task, key: string, node: string, others: seq<seq<Step>>)
    requires At(w, t, task, Some(Assuming(key, node)))
    requires |others| == 2 && forall steps :: steps in others ==> AllApart(steps, t)
    ensures if task.placeholder then At(Refused(w, t, others), t, task, None)
            else At(Refused(w, t, others), t, Task(false, task.state, "", ""), Some(RollingBack(key)))
  {
    ApartRun(w, others[0], t, task, Some(Assuming(key, node)));
    Moves(Run(w, others[0]), t, CallAssume(false, false));
    var failed := After(w, others[0], WorkStep(t, CallAssume(false, false)));
    ApartRun(failed, others[1], t, task, Some(AssumeFailed(key, node)));
    Moves(Run(failed, others[1]), t, CallFails);
  }

  // ---------------------------------------------------------------------------------------------
  // Ended tasks

  /** Steps other than those of the task's own release. */
  predicate Aside(s: Step, t: Id) {
    !(s.ReleaseStep? && s.t == t)
  }

  ghost predicate AllAside(steps: seq<Step>, t: Id) {
    forall s :: s in steps ==> Aside(s, t)
  }

  predicate InRelease(w: World, t: Id, r: Releasing) {
    t in w.tasks && t in w.releasing && w.releasing[t] == r
  }

  lemma AsideStep(w: World, s: Step, t: Id, r: Releasing)
    requires InRelease(w, t, r) && Aside(s, t)
    ensures InRelease(Next(w, s), t, r)
  {
    if s.WorkStep? && s.t == t && t in w.work && !s.act.CallStart? {
      AdvanceTells(w.tasks[t], w.work[t], Idle(w, t), s.act);
    }
  }

  lemma {:induction false} AsideRun(w: World, steps: seq<Step>, t: Id, r: Releasing)
    requires InRelease(w, t, r) && AllAside(steps, t)
    ensures InRelease(Run(w, steps), t, r)
  {
    if steps != [] {
      var init, last := steps[..|steps| - 1], steps[|steps| - 1];
      assert last in steps;
      AsideRun(w, init, t, r);
      AsideStep(Run(w, init), last, t, r);
    }
  }

  function Asked(w: World, t: Id, others: seq<Step>): World {
    After(w, others, ReleaseStep(t, Ask))
  }

  function Released(w: World, t: Id, others: seq<Step>): World {
    After(w, others, ReleaseStep(t, Finish))
  }

  /** What the core hears of a release: if the application was not accepted when it was asked, the task waits on the list
      and nothing is sent; else exactly one release is. */
  ghost predicate ReleaseTold(asks: World, asked: World, ends: World, end: World, t: Id) {
    if Unaccepted(asks.app) then t in asked.releaseable && asked.log == asks.log && end.log == ends.log
    else asked.releaseable == asks.releaseable && asked.log == asks.log && end.log == ends.log + [Release(t, false, ends.app)]
  }

  lemma ReleaseGoesThrough(w: World, t: Id, dst: Option<TaskState>, others1: seq<Step>, others2: seq<Step>)
    requires InRelease(w, t, Asking(dst)) && AllAside(others1, t) && AllAside(others2, t)
    ensures var asks, asked := Run(w, others1), Asked(w, t, others1);
            var ends, end := Run(asked, others2), Released(asked, t, others2);
            && ReleaseTold(asks, asked, ends, end, t)
            && t in ends.tasks && Idle(end, t)
            && end.tasks[t] == if dst.Some? then ends.tasks[t].(state := dst.value) else ends.tasks[t]
  {
    AsideRun(w, others1, t, Asking(dst));
    var asks, asked := Run(w, others1), Asked(w, t, others1);
    var r := if Unaccepted(asks.app) then Recorded(dst) else Sending(dst);
    assert InRelease(asked, t, r);
    AsideRun(asked, others2, t, r);
  }

  /** How a task ends and gives its allocation back. */
  function Ended(w: World, t: Id, e: TaskEvent): World {
    Next(w, ReleaseStep(t, Begin(e)))
  }

  /** A task completes in every state. It reaches its end, and its release is listed or sent exactly once. */
  lemma CompletedTasksAreReleased(w: World, t: Id, others1: seq<Step>, others2: seq<Step>)
    requires Idle(w, t) && AllAside(others1, t) && AllAside(others2, t)
    ensures var ended := Ended(w, t, CompleteTask);
            var asked := Asked(ended, t, others1);
            var end := Released(asked, t, others2);
            && ReleaseTold(Run(ended, others1), asked, Run(asked, others2), end, t)
            && Idle(end, t) && end.tasks[t].state == TCompleted
  {
    ReleaseGoesThrough(Ended(w, t, CompleteTask), t, Some(TCompleted), others1, others2);
  }

  /** So does a failed task, from every state before it is bound and after it was rejected. */
  lemma FailedTasksAreReleased(w: World, t: Id, others1: seq<Step>, others2: seq<Step>)
    requires Idle(w, t) && w.tasks[t].state in {TNew, TPending, TScheduling, TAllocated, TRejected}
    requires AllAside(others1, t) && AllAside(others2, t)
    ensures var ended := Ended(w, t, TaskFail);
            var asked := Asked(ended, t, others1);
            var end := Released(asked, t, others2);
            && ReleaseTold(Run(ended, others1), asked, Run(asked, others2), end, t)
            && Idle(end, t) && end.tasks[t].state == TFailed
  {
    ReleaseGoesThrough(Ended(w, t, TaskFail), t, Some(TFailed), others1, others2);
  }

  lemma Handled(w: World, t: Id, task: Task, work: Option<Work>, e: TaskEvent, state: TaskState)
    requires At(w, t, task, work) && TaskNext(task.state, e) == Some(state)
    requires e in {KillTask, TaskKilled, TaskRejected}
    ensures At(Next(w, TaskStep(t, Handle(e))), t, task.(state := state), work)
  {
  }

  /** A task that the core rejects ends failed, and is released like any other. */
  lemma RejectedTasksFail(w: World, t: Id, others: seq<Step>, others1: seq<Step>, others2: seq<Step>)
    requires Idle(w, t) && w.tasks[t].state in {TNew, TPending, TScheduling}
    requires AllApart(others, t) && AllAside(others1, t) && AllAside(others2, t)
    ensures var rejected := Run(Next(w, TaskStep(t, Handle(TaskRejected))), others);
            var ended := Ended(rejected, t, TaskFail);
            var asked := Asked(ended, t, others1);
            var end := Released(asked, t, others2);
            && Idle(rejected, t) && rejected.tasks[t] == w.tasks[t].(state := TRejected)
            && ReleaseTold(Run(ended, others1), asked, Run(asked, others2), end, t)
            && Idle(end, t) && end.tasks[t].state == TFailed
  {
    TaskTable(w.tasks[t].state);
    Handled(w, t, w.tasks[t], WorkOf(w, t), TaskRejected, TRejected);
    var handled := Next(w, TaskStep(t, Handle(TaskRejected)));
    ApartRun(handled, others, t, w.tasks[t].(state := TRejected), WorkOf(w, t));
    FailedTasksAreReleased(Run(handled, others), t, others1, others2);
  }

  /** A task that is killed once it has begun ends killed. */
  lemma KilledTasksEnd(w: World, t: Id, others: seq<Step>)
    requires Idle(w, t) && w.tasks[t].state in {TPending, TScheduling, TAllocated, TBound} && AllApart(others, t)
    ensures At(After(Next(w, TaskStep(t, Handle(KillTask))), others, TaskStep(t, Handle(TaskKilled))),
               t, w.tasks[t].(state := TKilled), WorkOf(w, t))
  {
    TaskTable(w.tasks[t].state);
    var killing := w.tasks[t].(state := TKilling);
    Handled(w, t, w.tasks[t], WorkOf(w, t), KillTask, TKilling);
    var handled := Next(w, TaskStep(t, Handle(KillTask)));
    ApartRun(handled, others, t, killing, WorkOf(w, t));
    Handled(Run(handled, others), t, killing, WorkOf(w, t), TaskKilled, TKilled);
  }

  /** An allocation that reaches a task after it completed is released again, under its own key and node. */
  lemma LateAllocationsAreReleased(w: World, t: Id, task: Task, key: string, node: string, others1: seq<Step>, others2: seq<Step>)
    requires At(w, t, task, Some(Queued(key, node))) && task.state == TCompleted && AllAside(others1, t) && AllAside(others2, t)
    ensures var delivered := Next(w, WorkStep(t, Deliver));
            var asked := Asked(delivered, t, others1);
            && t in delivered.tasks && delivered.tasks[t] == Task(task.placeholder, TCompleted, key, node)
            && ReleaseTold(Run(delivered, others1), asked, Run(asked, others2), Released(asked, t, others2), t)
  {
    Moves(w, t, Deliver);
    var delivered := Next(w, WorkStep(t, Deliver));
    assert InRelease(delivered, t, Asking(None));
    ReleaseGoesThrough(delivered, t, None, others1, others2);
  }

  /** A release was asked for. */
  predicate WasAsked(w: World, t: Id) {
    t in w.early || w.late[t] > 0
  }

  predicate AskedBefore(w: World, t: Id) {
    && (t in w.tasks && w.tasks[t].state in {TCompleted, TFailed} ==> WasAsked(w, t))
    && (t in w.releasing && !w.releasing[t].Asking? ==> WasAsked(w, t))
  }

  lemma AskedTask(w: World, u: Id, action: TaskAction, t: Id)
    requires AskedBefore(w, t)
    ensures AskedBefore(TaskNextWorld(w, u, action), t)
  {
  }

  lemma AskedRelease(w: World, u: Id, release: ReleaseAction, t: Id)
    requires AskedBefore(w, t)
    ensures AskedBefore(ReleaseNextWorld(w, u, release), t)
  {
  }

  lemma AskedWork(w: World, u: Id, act: WorkAction, t: Id)
    requires AskedBefore(w, t)
    ensures AskedBefore(WorkNextWorld(w, u, act), t)
  {
    OtherSteps(w, WorkStep(u, act));
  }

  lemma AskedStep(w: World, s: Step, t: Id)
    requires AskedBefore(w, t)
    ensures AskedBefore(Next(w, s), t)
  {
    match s
    case TaskStep(u, action) => AskedTask(w, u, action, t);
    case ReleaseStep(u, release) => AskedRelease(w, u, release, t);
    case WorkStep(u, act) => AskedWork(w, u, act, t);
    case _ =>
  }

  lemma {:induction false} AskedRun(steps: seq<Step>, t: Id)
    ensures AskedBefore(Run(START, steps), t)
  {
    if steps != [] {
      AskedRun(steps[..|steps| - 1], t);
      AskedStep(Run(START, steps[..|steps| - 1]), steps[|steps| - 1], t);
    }
  }

  /** In every run a task that completed or failed has given up what it held: its release waits for the application's
      acceptance, is being sent, was sent, or was overtaken by the end of the application. */
  lemma EndedTasksAreReleased(steps: seq<Step>, t: Id)
    ensures var w := Run(START, steps);
            t in w.tasks && w.tasks[t].state in {TCompleted, TFailed} ==>
              || (t in w.releaseable && Unaccepted(w.app))
              || IsSending(w, t)
              || ReleasesOf(w.log, t, false) > 0 || ReleasesOf(w.log, t, true) > 0
              || (t in w.dropped && w.app in {Rejected, Failing, Failed})
              || (t in w.covered && RemoveApplication in w.log)
  {
    AskedRun(steps, t);
    DeferredReleases(steps, t);
  }
}
