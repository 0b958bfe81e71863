/**
 What every run of the application and its tasks keeps.
 */
module Safety {
  import opened Options
  import opened Lifecycle
  import opened Protocol
  import M = CacheModel
  import C = CacheRuns
  import Runs

  // ---------------------------------------------------------------------------------------------
  // The application's states

  function AppEvents(steps: seq<Step>): seq<AppEvent> {
    if steps == [] then []
    else
      var init, last := AppEvents(steps[..|steps| - 1]), steps[|steps| - 1];
      if last.AppStep? then init + [last.event] else init
  }

  lemma AppKept(w: World, s: Step)
    requires !s.AppStep?
    ensures Next(w, s).app == w.app
  {
  }

  lemma AppHandled(w: World, e: AppEvent)
    ensures HandleApp(w, e).app == AppAfter(w.app, e)
  {
  }

  /** The application's state depends on its own events only, so what holds of every sequence of those
      (Lifecycle.FewChanges, Lifecycle.EnteredOnce) holds of every run. */
  lemma {:induction false} AppFollowsEvents(w: World, steps: seq<Step>)
    ensures Run(w, steps).app == AppRun(w.app, AppEvents(steps))
  {
    if steps != [] {
      var init, last := steps[..|steps| - 1], steps[|steps| - 1];
      AppFollowsEvents(w, init);
      if last.AppStep? {
        assert (AppEvents(init) + [last.event])[..|AppEvents(init)|] == AppEvents(init);
        AppHandled(Run(w, init), last.event);
      } else {
        AppKept(Run(w, init), last);
      }
    }
  }

  // ---------------------------------------------------------------------------------------------
  // Allocation keys and node names

  predicate HasNode(work: Work) {
    !work.RollingBack? && !work.Reporting?
  }

  /** The callback is at work on this allocation. */
  predicate InCallback(work: Work) {
    work.Assuming? || work.AssumeFailed? || work.Assumed? || work.Marking?
  }

  predicate Placed(task: Task) {
    task.state == TAllocated || task.state == TBound
  }

  predicate KeyedPair(task: Task, work: Option<Work>) {
    && (work.Some? ==>
          && work.value.key != ""
          && (HasNode(work.value) ==> work.value.node != "")
          && (InCallback(work.value) ==> task.key == work.value.key)
          && (Placed(task) ==> work.value.Marking? || work.value.Binding?))
    && (Placed(task) ==> task.key != "" && (task.node != "" || (work.Some? && work.value.Marking?)))
  }

  predicate Keyed(w: World, t: Id) {
    && (t in w.work || t in w.releasing ==> t in w.tasks)
    && (t in w.releasing ==> w.releasing[t].dst in {None, Some(TFailed), Some(TCompleted)})
    && (t in w.tasks ==> KeyedPair(w.tasks[t], WorkOf(w, t)))
  }

  lemma KeyedAdvance(task: Task, work: Work, idle: bool, act: WorkAction)
    requires KeyedPair(task, Some(work))
    ensures var o := Advance(task, work, idle, act); KeyedPair(o.task, o.work)
  {
  }

  lemma KeyedOutcome(w: World, t: Id, o: Outcome, u: Id)
    requires Keyed(w, u) && t in w.tasks && KeyedPair(o.task, o.work)
    ensures Keyed(WithOutcome(w, t, o), u)
  {
  }

  lemma KeyedWork(w: World, t: Id, act: WorkAction, u: Id)
    requires Keyed(w, t) && Keyed(w, u)
    ensures Keyed(WorkNextWorld(w, t, act), u)
  {
    if act.CallStart? && MayAllocate(w, t, act.key, act.node) {
      KeyedOutcome(w, t, Outcome(w.tasks[t].(key := act.key), Some(Assuming(act.key, act.node)), false, []), u);
    } else if !act.CallStart? && t in w.tasks && t in w.work {
      KeyedAdvance(w.tasks[t], w.work[t], Idle(w, t), act);
      KeyedOutcome(w, t, Advance(w.tasks[t], w.work[t], Idle(w, t), act), u);
    }
  }

  lemma KeyedTask(w: World, t: Id, action: TaskAction, u: Id)
    requires Keyed(w, u)
    ensures Keyed(TaskNextWorld(w, t, action), u)
  {
  }

  lemma KeyedRelease(w: World, t: Id, release: ReleaseAction, u: Id)
    requires Keyed(w, u)
    ensures Keyed(ReleaseNextWorld(w, t, release), u)
  {
  }

  lemma KeyedStep(w: World, s: Step, u: Id)
    requires Keyed(w, u) && (s.WorkStep? ==> Keyed(w, s.t))
    ensures Keyed(Next(w, s), u)
  {
    match s
    case TaskStep(t, action) => KeyedTask(w, t, action, u);
    case ReleaseStep(t, release) => KeyedRelease(w, t, release, u);
    case WorkStep(t, act) => KeyedWork(w, t, act, u);
    case _ =>
  }

  // ---------------------------------------------------------------------------------------------
  // Gang phases

  predicate Reached(reached: set<AppState>, placeholder: bool) {
    if placeholder then Reserving in reached else Running in reached
  }

  predicate PhasedPair(reached: set<AppState>, task: Task, work: Option<Work>) {
    task.state in {TPending, TScheduling, TAllocated} || (work.Some? && work.value.Binding?) ==>
      Reached(reached, task.placeholder)
  }

  predicate Phased(w: World, t: Id) {
    && w.app in w.reached
    && (true in w.passes ==> Reserving in w.reached)
    && (false in w.passes ==> Running in w.reached)
    && (t in w.work || t in w.releasing ==> t in w.tasks)
    && (t in w.releasing ==> w.releasing[t].dst in {None, Some(TFailed), Some(TCompleted)})
    && (t in w.tasks ==> PhasedPair(w.reached, w.tasks[t], WorkOf(w, t)))
  }

  lemma PhasedAdvance(reached: set<AppState>, task: Task, work: Work, idle: bool, act: WorkAction)
    requires PhasedPair(reached, task, Some(work))
    ensures var o := Advance(task, work, idle, act); PhasedPair(reached, o.task, o.work)
  {
  }

  lemma PhasedOutcome(w: World, t: Id, o: Outcome, u: Id)
    requires Phased(w, u) && t in w.tasks && PhasedPair(w.reached, o.task, o.work)
    ensures Phased(WithOutcome(w, t, o), u)
  {
  }

  lemma PhasedWork(w: World, t: Id, act: WorkAction, u: Id)
    requires Phased(w, t) && Phased(w, u)
    ensures Phased(WorkNextWorld(w, t, act), u)
  {
    if act.CallStart? && MayAllocate(w, t, act.key, act.node) {
      PhasedOutcome(w, t, Outcome(w.tasks[t].(key := act.key), Some(Assuming(act.key, act.node)), false, []), u);
    } else if !act.CallStart? && t in w.tasks && t in w.work {
      PhasedAdvance(w.reached, w.tasks[t], w.work[t], Idle(w, t), act);
      PhasedOutcome(w, t, Advance(w.tasks[t], w.work[t], Idle(w, t), act), u);
    }
  }

  lemma PhasedTask(w: World, t: Id, action: TaskAction, u: Id)
    requires Phased(w, u)
    ensures Phased(TaskNextWorld(w, t, action), u)
  {
  }

  lemma PhasedRelease(w: World, t: Id, release: ReleaseAction, u: Id)
    requires Phased(w, u)
    ensures Phased(ReleaseNextWorld(w, t, release), u)
  {
  }

  lemma PhasedStep(w: World, s: Step, u: Id)
    requires Phased(w, u) && (s.WorkStep? ==> Phased(w, s.t))
    ensures Phased(Next(w, s), u)
  {
    match s
    case TaskStep(t, action) => PhasedTask(w, t, action, u);
    case ReleaseStep(t, release) => PhasedRelease(w, t, release, u);
    case WorkStep(t, act) => PhasedWork(w, t, act, u);
    case _ =>
  }

  // ---------------------------------------------------------------------------------------------
  // Deferred releases

  predicate Distinct(ids: seq<Id>) {
    forall i, j :: 0 <= i < j < |ids| ==> ids[i] != ids[j]
  }

  /** No release that was not held back for acceptance was sent before it. */
  predicate Timely(log: seq<Request>) {
    forall i :: 0 <= i < |log| && log[i].Release? && !log[i].forced ==> !Unaccepted(log[i].at)
  }

  predicate Deferred(w: World) {
    && (w.releaseable != [] ==> Unaccepted(w.app))
    && Distinct(w.releaseable)
    && Timely(w.log)
    && (w.covered != {} ==> RemoveApplication in w.log)
    && (w.dropped != {} ==> w.app in {Rejected, Failing, Failed})
  }

  predicate IsSending(w: World, t: Id) {
    t in w.releasing && w.releasing[t].Sending?
  }

  /** How many releases of a task were sent, forced ones or others. */
  function ReleasesOf(log: seq<Request>, t: Id, forced: bool): nat {
    if log == [] then 0
    else
      var last := log[|log| - 1];
      ReleasesOf(log[..|log| - 1], t, forced) + if last.Release? && last.task == t && last.forced == forced then 1 else 0
  }

  function One(b: bool): nat {
    if b then 1 else 0
  }

  /** Every request to release is in exactly one place. One made before acceptance is listed, sent by force, dropped with the
      application or covered by its removal, however often it was made; one made later is being sent or was sent. */
  predicate Accounted(w: World, t: Id) {
    && (IsSending(w, t) ==> !Unaccepted(w.app))
    && (Unaccepted(w.app) ==> t !in w.dropped && t !in w.covered && ReleasesOf(w.log, t, true) == 0)
    && One(t in w.releaseable) + ReleasesOf(w.log, t, true) + One(t in w.dropped) + One(t in w.covered) == One(t in w.early)
    && w.late[t] == ReleasesOf(w.log, t, false) + One(IsSending(w, t))
  }

  lemma ReleasesMore(log: seq<Request>, r: Request, t: Id, forced: bool)
    ensures ReleasesOf(log + [r], t, forced)
         == ReleasesOf(log, t, forced) + One(r.Release? && r.task == t && r.forced == forced)
  {
    assert (log + [r])[..|log|] == log;
  }

  lemma {:induction false} ReleasesForced(log: seq<Request>, ids: seq<Id>, at: AppState, t: Id)
    requires Distinct(ids)
    ensures ReleasesOf(log + ForcedReleases(ids, at), t, true) == ReleasesOf(log, t, true) + One(t in ids)
    ensures ReleasesOf(log + ForcedReleases(ids, at), t, false) == ReleasesOf(log, t, false)
  {
    if ids == [] {
      assert log + ForcedReleases(ids, at) == log;
    } else {
      var init, last := ids[..|ids| - 1], ids[|ids| - 1];
      assert log + ForcedReleases(ids, at) == (log + ForcedReleases(init, at)) + [Release(last, true, at)];
      ReleasesForced(log, init, at, t);
      ReleasesMore(log + ForcedReleases(init, at), Release(last, true, at), t, true);
      ReleasesMore(log + ForcedReleases(init, at), Release(last, true, at), t, false);
      assert t in ids <==> t in init || t == last;
      assert forall i :: 0 <= i < |init| ==> init[i] != last;
    }
  }

  lemma DeferredApp(w: World, e: AppEvent)
    requires Deferred(w)
    ensures Deferred(HandleApp(w, e))
  {
    var w' := HandleApp(w, e);
    forall i | 0 <= i < |w'.log| && w'.log[i].Release? && !w'.log[i].forced ensures !Unaccepted(w'.log[i].at) {
      assert i < |w.log| ==> w'.log[i] == w.log[i];
    }
    assert RemoveApplication in w.log ==> RemoveApplication in w'.log;
  }

  lemma AccountedFlush(w: World, w1: World, t: Id)
    requires Accounted(w, t) && Deferred(w) && w.app == Submitted
    requires w1 == w.(app := Accepted, reached := w.reached + {Accepted})
    ensures Accounted(Flush(w1), t)
  {
    if w.releaseable != [] {
      if AllTerminated(w.tasks, w.listed) {
        ReleasesMore(w.log, RemoveApplication, t, true);
        ReleasesMore(w.log, RemoveApplication, t, false);
      } else {
        ReleasesForced(w.log, w.releaseable, Accepted, t);
      }
    }
  }

  lemma AccountedClear(w: World, w1: World, t: Id)
    requires Accounted(w, t)
    requires w1 == w.(app := w1.app, reached := w1.reached) && !Unaccepted(w1.app)
    ensures Accounted(Clear(w1), t)
  {
  }

  lemma AccountedApp(w: World, e: AppEvent, t: Id)
    requires Accounted(w, t) && Deferred(w)
    ensures Accounted(HandleApp(w, e), t)
  {
    if AppNext(w.app, e).Some? {
      var w1 := w.(app := AppNext(w.app, e).value, reached := w.reached + {AppNext(w.app, e).value});
      match e
      case AcceptApplication => AccountedFlush(w, w1, t);
      case RejectApplication => AccountedClear(w, w1, t);
      case FailApplication => AccountedClear(w, w1, t);
      case _ =>
    }
  }

  lemma DeferredRelease(w: World, t: Id, release: ReleaseAction)
    requires Deferred(w) && Accounted(w, t)
    ensures Deferred(ReleaseNextWorld(w, t, release))
  {
    assert RemoveApplication in w.log ==> RemoveApplication in ReleaseNextWorld(w, t, release).log;
  }

  lemma AccountedAsk(w: World, t: Id, u: Id)
    requires Accounted(w, u)
    ensures Accounted(AskRelease(w, t), u)
  {
    var w' := AskRelease(w, t);
    assert w'.log == w.log;
    assert u in w'.releaseable <==> u in w.releaseable || (u in w'.early && u !in w.early);
  }

  lemma AccountedFinish(w: World, t: Id, u: Id)
    requires Accounted(w, u) && t in w.tasks && t in w.releasing && !w.releasing[t].Asking?
    ensures Accounted(FinishRelease(w, t), u)
  {
    var w' := FinishRelease(w, t);
    assert IsSending(w', u) <==> IsSending(w, u) && u != t;
    if w.releasing[t].Sending? {
      ReleasesMore(w.log, Release(t, false, w.app), u, true);
      ReleasesMore(w.log, Release(t, false, w.app), u, false);
      assert ReleasesOf(w'.log, u, true) == ReleasesOf(w.log, u, true);
      assert ReleasesOf(w'.log, u, false) == ReleasesOf(w.log, u, false) + One(u == t);
    }
  }

  lemma AccountedRelease(w: World, t: Id, release: ReleaseAction, u: Id)
    requires Accounted(w, u)
    ensures Accounted(ReleaseNextWorld(w, t, release), u)
  {
    match release
    case Begin(_) =>
    case Ask => AccountedAsk(w, t, u);
    case Finish => if t in w.tasks && t in w.releasing && !w.releasing[t].Asking? { AccountedFinish(w, t, u); }
  }

  lemma AdvanceTells(task: Task, work: Work, idle: bool, act: WorkAction)
    ensures var told := Advance(task, work, idle, act).told; told == [] || exists key :: told == [Rollback(key)]
    ensures Advance(task, work, idle, act).releases ==> idle
  {
  }

  /** The other steps neither send releases nor touch what is recorded of them. */
  lemma OtherSteps(w: World, s: Step)
    requires !s.AppStep? && !s.ReleaseStep?
    ensures var w' := Next(w, s);
            && w'.app == w.app && w'.releaseable == w.releaseable && w'.early == w.early && w'.late == w.late
            && w'.dropped == w.dropped && w'.covered == w.covered
            && (w'.log == w.log || exists key :: w'.log == w.log + [Rollback(key)])
            && (forall t :: IsSending(w', t) <==> IsSending(w, t))
  {
    if s.WorkStep? && !s.act.CallStart? && s.t in w.tasks && s.t in w.work {
      AdvanceTells(w.tasks[s.t], w.work[s.t], Idle(w, s.t), s.act);
    }
  }

  lemma DeferredStep(w: World, s: Step)
    requires Deferred(w) && forall t :: Accounted(w, t)
    ensures Deferred(Next(w, s))
  {
    if s.AppStep? {
      DeferredApp(w, s.event);
    } else if s.ReleaseStep? {
      assert Accounted(w, s.t);
      DeferredRelease(w, s.t, s.release);
    } else {
      OtherSteps(w, s);
    }
  }

  lemma AccountedStep(w: World, s: Step, t: Id)
    requires Accounted(w, t) && Deferred(w)
    ensures Accounted(Next(w, s), t)
  {
    if s.AppStep? {
      AccountedApp(w, s.event, t);
    } else if s.ReleaseStep? {
      AccountedRelease(w, s.t, s.release, t);
    } else {
      OtherSteps(w, s);
      if Next(w, s).log != w.log {
        var key :| Next(w, s).log == w.log + [Rollback(key)];
        ReleasesMore(w.log, Rollback(key), t, true);
        ReleasesMore(w.log, Rollback(key), t, false);
      }
    }
  }

  // ---------------------------------------------------------------------------------------------
  // Whole runs

  ghost predicate Sound(w: World) {
    Deferred(w) && forall t :: Keyed(w, t) && Phased(w, t) && Accounted(w, t)
  }

  lemma SoundStep(w: World, s: Step)
    requires Sound(w)
    ensures Sound(Next(w, s))
  {
    DeferredStep(w, s);
    forall t ensures Keyed(Next(w, s), t) && Phased(Next(w, s), t) && Accounted(Next(w, s), t) {
      KeyedStep(w, s, t);
      PhasedStep(w, s, t);
      AccountedStep(w, s, t);
    }
  }

  lemma {:induction false} SoundRun(w: World, steps: seq<Step>)
    requires Sound(w)
    ensures Sound(Run(w, steps))
  {
    if steps != [] {
      SoundRun(w, steps[..|steps| - 1]);
      SoundStep(Run(w, steps[..|steps| - 1]), steps[|steps| - 1]);
    }
  }

  /** A task that is allocated or bound always has its allocation key, and without its node name it is only between
      the two halves of marking it as allocated before. */
  lemma AllocatedTasksHaveKeys(steps: seq<Step>, t: Id)
    ensures var w := Run(START, steps);
            t in w.tasks && Placed(w.tasks[t]) ==>
              w.tasks[t].key != "" && (w.tasks[t].node == "" ==> t in w.work && w.work[t].Marking?)
  {
    SoundRun(START, steps);
    assert Keyed(Run(START, steps), t);
  }

  // ---------------------------------------------------------------------------------------------
  // Exactly when a placed task lacks its node name

  predicate NamedTask(task: Task) {
    Placed(task) ==> task.node != ""
  }

  predicate Named(w: World, t: Id) {
    t in w.tasks ==> NamedTask(w.tasks[t])
  }

  /** The callback marks a task that has no node name. */
  predicate MarksUnnamed(w: World, s: Step, t: Id) {
    s == WorkStep(t, MarkState) && t in w.tasks && t in w.work && w.work[t].Assumed? && w.tasks[t].node == ""
  }

  lemma NamedAdvance(task: Task, work: Work, idle: bool, act: WorkAction)
    requires KeyedPair(task, Some(work)) && NamedTask(task)
    ensures NamedTask(Advance(task, work, idle, act).task) <==> !(act == MarkState && work.Assumed? && task.node == "")
  {
  }

  lemma NamedTaskStep(w: World, u: Id, action: TaskAction, t: Id)
    requires Keyed(w, t) && Named(w, t)
    ensures Named(TaskNextWorld(w, u, action), t)
  {
  }

  lemma NamedRelease(w: World, u: Id, release: ReleaseAction, t: Id)
    requires Keyed(w, t) && Named(w, t)
    ensures Named(ReleaseNextWorld(w, u, release), t)
  {
  }

  lemma NamedWork(w: World, u: Id, act: WorkAction, t: Id)
    requires Keyed(w, t) && Named(w, t)
    ensures Named(WorkNextWorld(w, u, act), t) <==> !MarksUnnamed(w, WorkStep(u, act), t)
  {
    if u == t && t in w.tasks && t in w.work && !act.CallStart? {
      NamedAdvance(w.tasks[t], w.work[t], Idle(w, t), act);
    }
  }

  /** A step leaves a placed task without its node name exactly when it marks the task while the task has none. */
  lemma NamedStep(w: World, s: Step, t: Id)
    requires Keyed(w, t) && Named(w, t)
    ensures Named(Next(w, s), t) <==> !MarksUnnamed(w, s, t)
  {
    match s
    case TaskStep(u, action) => NamedTaskStep(w, u, action, t);
    case ReleaseStep(u, release) => NamedRelease(w, u, release, t);
    case WorkStep(u, act) => NamedWork(w, u, act, t);
    case _ =>
  }

  ghost predicate NamedAfter(steps: seq<Step>, i: nat, t: Id)
    requires i <= |steps|
  {
    Named(Run(START, steps[..i]), t)
  }

  ghost predicate MarksUnnamedAt(steps: seq<Step>, i: nat, t: Id)
    requires i < |steps|
  {
    MarksUnnamed(Run(START, steps[..i]), steps[i], t)
  }

  lemma NamedOn(steps: seq<Step>, i: nat, t: Id)
    requires i < |steps| && NamedAfter(steps, i, t)
    ensures NamedAfter(steps, i + 1, t) <==> !MarksUnnamedAt(steps, i, t)
  {
    SoundRun(START, steps[..i]);
    assert Keyed(Run(START, steps[..i]), t);
    NamedStep(Run(START, steps[..i]), steps[i], t);
    assert steps[..i + 1][..i] == steps[..i];
  }

  /** In every run: an allocated or bound task has its node name throughout exactly when it is never marked
      while it has none. */
  lemma NamedThroughout(steps: seq<Step>, t: Id)
    ensures (forall i :: 0 <= i <= |steps| ==> NamedAfter(steps, i, t))
       <==> forall i :: 0 <= i < |steps| ==> !MarksUnnamedAt(steps, i, t)
  {
    var good := seq(|steps| + 1, i requires 0 <= i <= |steps| => NamedAfter(steps, i, t));
    var bad := seq(|steps|, i requires 0 <= i < |steps| => MarksUnnamedAt(steps, i, t));
    assert steps[..0] == [];
    forall i | 0 <= i < |bad| && good[i] ensures good[i + 1] <==> !bad[i] { NamedOn(steps, i, t); }
    Runs.Throughout(good, bad);
    forall i | 0 <= i <= |steps| ensures good[i] == NamedAfter(steps, i, t) {}
    forall i | 0 <= i < |steps| ensures bad[i] == MarksUnnamedAt(steps, i, t) {}
  }

  /** What a step of an allocation does, seen from its task. */
  lemma Moves(w: World, t: Id, act: WorkAction)
    requires t in w.tasks && t in w.work && !act.CallStart?
    ensures var w', o := Next(w, WorkStep(t, act)), Advance(w.tasks[t], w.work[t], Idle(w, t), act);
            && t in w'.tasks && w'.tasks[t] == o.task && WorkOf(w', t) == o.work
            && (t in w'.releasing <==> o.releases || t in w.releasing)
            && w'.log == w.log + o.told
  {
  }

  lemma Starts(w: World, t: Id, key: string, node: string)
    requires MayAllocate(w, t, key, node)
    ensures var w' := Next(w, WorkStep(t, CallStart(key, node)));
            && t in w'.tasks && w'.tasks[t] == w.tasks[t].(key := key) && WorkOf(w', t) == Some(Assuming(key, node))
            && w'.releasing == w.releasing
  {
  }

  lemma Appears(t: Id, placeholder: bool, key: string, node: string)
    requires key != "" && node != ""
    ensures var w := Next(START, TaskStep(t, Add(placeholder)));
            MayAllocate(w, t, key, node) && w.tasks[t] == NewTask(placeholder)
  {
  }

  lemma Marks(w: World, t: Id, key: string, node: string, allBound: bool)
    requires t in w.tasks && WorkOf(w, t) == Some(Assuming(key, node))
    ensures var w' := Next(Next(w, WorkStep(t, CallAssume(true, allBound))), WorkStep(t, MarkState));
            t in w'.tasks && w'.tasks[t] == w.tasks[t].(state := TBound) && WorkOf(w', t) == Some(Marking(key, node))
  {
    Moves(w, t, CallAssume(true, allBound));
    Moves(Next(w, WorkStep(t, CallAssume(true, allBound))), t, MarkState);
  }

  /** The way of a task of which the core had an allocation before. */
  function Recovered(t: Id, placeholder: bool, key: string, node: string, allBound: bool): World {
    var called := Next(Next(START, TaskStep(t, Add(placeholder))), WorkStep(t, CallStart(key, node)));
    Next(Next(called, WorkStep(t, CallAssume(true, allBound))), WorkStep(t, MarkState))
  }

  /** The exception is real, for every task and allocation, and lasts until the second half. */
  lemma BoundWithoutNode(t: Id, placeholder: bool, key: string, node: string, allBound: bool)
    requires key != "" && node != ""
    ensures var w := Recovered(t, placeholder, key, node, allBound);
            && t in w.tasks && w.tasks[t] == Task(placeholder, TBound, key, "")
            && t in Next(w, WorkStep(t, MarkFields)).tasks
            && Next(w, WorkStep(t, MarkFields)).tasks[t] == Task(placeholder, TBound, key, node)
  {
    Appears(t, placeholder, key, node);
    var w1 := Next(START, TaskStep(t, Add(placeholder)));
    Starts(w1, t, key, node);
    Marks(Next(w1, WorkStep(t, CallStart(key, node))), t, key, node, allBound);
    Moves(Recovered(t, placeholder, key, node, allBound), t, MarkFields);
  }

  /** Regular tasks are scheduled only once the application has been running, placeholders only once it
      has been reserving. */
  lemma GangPhases(steps: seq<Step>, t: Id)
    ensures var w := Run(START, steps);
            t in w.tasks && w.tasks[t].state in {TPending, TScheduling, TAllocated} ==>
              if w.tasks[t].placeholder then Reserving in w.reached else Running in w.reached
  {
    SoundRun(START, steps);
    assert Phased(Run(START, steps), t);
  }

  /** Releases wait on the list only until the application is accepted, once per task. Counted request by request, none is
      lost and none is sent twice: what was asked for before acceptance is in exactly one place, and what was asked for
      later was sent exactly as often, but for the one that is being sent. */
  lemma DeferredReleases(steps: seq<Step>, t: Id)
    ensures var w := Run(START, steps);
            && Deferred(w)
            && One(t in w.releaseable) + ReleasesOf(w.log, t, true) + One(t in w.dropped) + One(t in w.covered) == One(t in w.early)
            && w.late[t] == ReleasesOf(w.log, t, false) + One(IsSending(w, t))
  {
    SoundRun(START, steps);
    assert Accounted(Run(START, steps), t);
  }

  /** When the application is accepted, every recorded task is released in that step, or the whole
      application is removed because all its tasks have ended. */
  lemma AcceptanceReleases(w: World, t: Id)
    requires w.app == Submitted && t in w.releaseable
    ensures var w' := HandleApp(w, AcceptApplication);
            && w'.releaseable == []
            && (Release(t, true, Accepted) in w'.log || (AllTerminated(w.tasks, w.listed) && RemoveApplication in w'.log))
  {
    var w' := HandleApp(w, AcceptApplication);
    var k :| 0 <= k < |w.releaseable| && w.releaseable[k] == t;
    if !AllTerminated(w.tasks, w.listed) {
      assert w'.log[|w.log| + k] == Release(t, true, Accepted);
    }
  }
}
