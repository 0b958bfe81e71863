/**
 An assumed pod stays on its node until it is bound. A bind that fails in the background is undone
 completely before the core hears of it, whatever else goes on in between.
 */
module FailedBind {
  import opened Options
  import opened Lifecycle
  import opened Protocol
  import opened Safety
  import M = CacheModel
  import C = CacheRuns
  import K = Kubernetes

  /** Steps of other tasks, of the application and of the cache. What the informers send of the pod in the
      meantime was sent before it got its node; any node may go away. */
  predicate Elsewhere(s: Step, t: Id) {
    match s
    case AppStep(_) => true
    case StartPass => true
    case TaskStep(u, _) => u != t
    case ReleaseStep(u, _) => u != t
    case WorkStep(u, _) => u != t
    case CacheStep(e) => CacheElsewhere(e, t)
  }

  predicate CacheElsewhere(e: C.Event, t: Id) {
    C.NodeHasName(e) && (C.Unrelated(e, t, "") || e.NodeRemoved?)
  }

  predicate SameTask(w: World, w': World, t: Id)
    requires t in w.tasks
  {
    t in w'.tasks && w'.tasks[t] == w.tasks[t] && WorkOf(w', t) == WorkOf(w, t) && (t in w'.releasing <==> t in w.releasing)
  }

  lemma ElsewhereKeepsTask(w: World, s: Step, t: Id)
    requires t in w.tasks && Elsewhere(s, t)
    ensures SameTask(w, Next(w, s), t)
  {
  }

  lemma ElsewhereInCache(y: System, s: Step, t: Id) returns (e: Option<C.Event>)
    requires Elsewhere(s, t)
    ensures CacheNext(y, s) == if e.Some? then C.Apply(y.cache, e.value) else y.cache
    ensures e.Some? ==> CacheElsewhere(e.value, t) && (e.value.NodeRemoved? ==> s == CacheStep(e.value))
  {
    e := None;
    match s
    case CacheStep(given) => e := Some(given);
    case WorkStep(u, CallAssume(true, allBound)) =>
      if u in y.world.tasks && u in y.world.work && y.world.work[u].Assuming? {
        e := Some(C.Assume(u, y.world.work[u].node, allBound));
      }
    case WorkStep(u, ForgetPod) =>
      if u in y.world.tasks && u in y.world.work && y.world.work[u].RollingBack? {
        e := Some(C.Forget(u));
      }
    case _ =>
  }

  /** The pod is assumed on a node, or has lost that node already. */
  ghost predicate Undecided(m: M.Model, t: Id) {
    C.WellFormed(m) && (M.Unplaced(m, t) || (M.Assigned(m, t) && t in m.assumed))
  }

  ghost predicate Undone(m: M.Model, t: Id) {
    C.WellFormed(m) && M.Unplaced(m, t) && t !in m.assumed
  }

  lemma UndecidedStep(m: M.Model, e: C.Event, t: Id)
    requires Undecided(m, t) && CacheElsewhere(e, t)
    ensures Undecided(C.Apply(m, e), t)
  {
    C.WellFormedStep(m, e);
  }

  lemma UndoneStep(m: M.Model, e: C.Event, t: Id)
    requires Undone(m, t) && CacheElsewhere(e, t)
    ensures Undone(C.Apply(m, e), t)
  {
    C.WellFormedStep(m, e);
    C.UnrelatedKeepsPending(m, e, t, "");
  }

  lemma ForgetUndoes(m: M.Model, t: Id)
    requires Undecided(m, t)
    ensures Undone(C.Apply(m, C.Forget(t)), t)
  {
    C.WellFormedStep(m, C.Forget(t));
  }

  lemma {:induction false} ElsewhereRun(y: System, steps: seq<Step>, t: Id)
    requires t in y.world.tasks && forall s :: s in steps ==> Elsewhere(s, t)
    ensures SameTask(y.world, SystemRun(y, steps).world, t)
    ensures Undecided(y.cache, t) ==> Undecided(SystemRun(y, steps).cache, t)
    ensures Undone(y.cache, t) ==> Undone(SystemRun(y, steps).cache, t)
  {
    if steps != [] {
      var init, last := steps[..|steps| - 1], steps[|steps| - 1];
      var before := SystemRun(y, init);
      ElsewhereRun(y, init, t);
      assert last in steps;
      ElsewhereKeepsTask(before.world, last, t);
      var e := ElsewhereInCache(before, last, t);
      if e.Some? && Undecided(y.cache, t) { UndecidedStep(before.cache, e.value, t); }
      if e.Some? && Undone(y.cache, t) { UndoneStep(before.cache, e.value, t); }
    }
  }

  // ---------------------------------------------------------------------------------------------
  // Until the bind

  ghost predicate HeldWith(m: M.Model, t: Id, node: string, allBound: bool) {
    C.WellFormed(m) && C.HeldOn(m, t, node) && !K.IsRunning(m.pods[t]) && M.VolumesBound(m, t) == allBound
  }

  lemma AssumesInCache(y: System, t: Id, key: string, node: string, allBound: bool)
    requires t in y.world.tasks && WorkOf(y.world, t) == Some(Assuming(key, node))
    requires C.WellFormed(y.cache) && t in y.cache.pods && node in y.cache.nodes && !K.IsRunning(y.cache.pods[t])
    ensures HeldWith(SystemNext(y, WorkStep(t, CallAssume(true, allBound))).cache, t, node, allBound)
  {
    C.WellFormedStep(y.cache, C.Assume(t, node, allBound));
    C.VolumesAsAssumed(y.cache, [], t, node, allBound);
  }

  lemma HeldStep(y: System, s: Step, t: Id, node: string, allBound: bool)
    requires HeldWith(y.cache, t, node, allBound) && Elsewhere(s, t) && s != CacheStep(C.NodeRemoved(node))
    ensures HeldWith(CacheNext(y, s), t, node, allBound)
  {
    var e := ElsewhereInCache(y, s, t);
    if e.Some? {
      C.WellFormedStep(y.cache, e.value);
      C.UnrelatedKeepsNode(y.cache, e.value, t, node);
    }
  }

  lemma {:induction false} HeldRun(y: System, steps: seq<Step>, t: Id, node: string, allBound: bool)
    requires HeldWith(y.cache, t, node, allBound)
    requires forall s :: s in steps ==> Elsewhere(s, t) && s != CacheStep(C.NodeRemoved(node))
    ensures HeldWith(SystemRun(y, steps).cache, t, node, allBound)
  {
    if steps != [] {
      var init, last := steps[..|steps| - 1], steps[|steps| - 1];
      assert last in steps;
      HeldRun(y, init, t, node, allBound);
      HeldStep(SystemRun(y, init), last, t, node, allBound);
    }
  }

  /** From the core's allocation on, the cached pod is on that node, assumed, and known to have its volumes bound or not,
      whatever happens elsewhere, as long as the node stays. */
  lemma AssumedUntilBound(y: System, t: Id, key: string, node: string, allBound: bool, steps: seq<Step>)
    requires t in y.world.tasks && WorkOf(y.world, t) == Some(Assuming(key, node))
    requires C.WellFormed(y.cache) && t in y.cache.pods && node in y.cache.nodes && !K.IsRunning(y.cache.pods[t])
    requires forall s :: s in steps ==> Elsewhere(s, t) && s != CacheStep(C.NodeRemoved(node))
    ensures var end := SystemRun(SystemNext(y, WorkStep(t, CallAssume(true, allBound))), steps).cache;
            C.HeldOn(end, t, node) && M.VolumesBound(end, t) == allBound
  {
    AssumesInCache(y, t, key, node, allBound);
    HeldRun(SystemNext(y, WorkStep(t, CallAssume(true, allBound))), steps, t, node, allBound);
  }

  // ---------------------------------------------------------------------------------------------
  // When it fails

  function Unbound(y: System, t: Id, steps: seq<Step>): System {
    SystemRun(SystemNext(y, WorkStep(t, BindFails)), steps)
  }

  function Forgotten(y: System, t: Id, steps: seq<Step>): System {
    SystemRun(SystemNext(y, WorkStep(t, ForgetPod)), steps)
  }

  predicate WaitsWith(w: World, t: Id, placeholder: bool, work: Work) {
    && t in w.tasks && t !in w.releasing
    && w.tasks[t] == Task(placeholder, TScheduling, "", "") && WorkOf(w, t) == Some(work)
  }

  lemma UnboundTask(y: System, t: Id, steps: seq<Step>)
    requires t in y.world.tasks && WorkOf(y.world, t).Some? && y.world.work[t].Binding? && t !in y.world.releasing
    requires Undecided(y.cache, t) && forall s :: s in steps ==> Elsewhere(s, t)
    ensures var end := Unbound(y, t, steps);
            WaitsWith(end.world, t, y.world.tasks[t].placeholder, RollingBack(y.world.work[t].key)) && Undecided(end.cache, t)
  {
    Moves(y.world, t, BindFails);
    ElsewhereRun(SystemNext(y, WorkStep(t, BindFails)), steps, t);
  }

  lemma ForgottenTask(y: System, t: Id, placeholder: bool, key: string, steps: seq<Step>)
    requires WaitsWith(y.world, t, placeholder, RollingBack(key))
    requires Undecided(y.cache, t) && forall s :: s in steps ==> Elsewhere(s, t)
    ensures var end := Forgotten(y, t, steps);
            WaitsWith(end.world, t, placeholder, Reporting(key)) && Undone(end.cache, t)
  {
    Moves(y.world, t, ForgetPod);
    ForgetUndoes(y.cache, t);
    ElsewhereRun(SystemNext(y, WorkStep(t, ForgetPod)), steps, t);
  }

  /** When the core is told of a failed bind, all is ready for a new allocation, the cached pod is pending and no longer
      assumed, and what the core is told of is the allocation that failed. */
  lemma FailedBindIsUndone(y: System, t: Id, steps1: seq<Step>, steps2: seq<Step>)
    requires t in y.world.tasks && WorkOf(y.world, t).Some? && y.world.work[t].Binding? && t !in y.world.releasing
    requires C.WellFormed(y.cache) && M.Assigned(y.cache, t) && t in y.cache.assumed
    requires (forall s :: s in steps1 ==> Elsewhere(s, t)) && (forall s :: s in steps2 ==> Elsewhere(s, t))
    ensures var end := Forgotten(Unbound(y, t, steps1), t, steps2);
            && WaitsWith(end.world, t, y.world.tasks[t].placeholder, Reporting(y.world.work[t].key))
            && M.Unplaced(end.cache, t) && t !in end.cache.assumed
            && Next(end.world, WorkStep(t, Report)).log == end.world.log + [Rollback(y.world.work[t].key)]
  {
    UnboundTask(y, t, steps1);
    ForgottenTask(Unbound(y, t, steps1), t, y.world.tasks[t].placeholder, y.world.work[t].key, steps2);
    ReportTells(Forgotten(Unbound(y, t, steps1), t, steps2).world, t, y.world.tasks[t].placeholder, y.world.work[t].key);
  }

  lemma ReportTells(w: World, t: Id, placeholder: bool, key: string)
    requires WaitsWith(w, t, placeholder, Reporting(key))
    ensures Next(w, WorkStep(t, Report)).log == w.log + [Rollback(key)]
  {
    Moves(w, t, Report);
  }

  function Reallocated(w: World, t: Id, key: string, node: string, allBound: bool): World {
    var told := Next(w, WorkStep(t, Report));
    var called := Next(Next(told, WorkStep(t, CallStart(key, node))), WorkStep(t, CallAssume(true, allBound)));
    Next(Next(called, WorkStep(t, CallQueues)), WorkStep(t, Deliver))
  }

  /** From there a new allocation of the core is accepted. */
  lemma NewAllocationAccepted(w: World, t: Id, placeholder: bool, failed: string, key: string, node: string, allBound: bool)
    requires WaitsWith(w, t, placeholder, Reporting(failed)) && key != "" && node != ""
    ensures var bound := Reallocated(w, t, key, node, allBound);
            && t in bound.tasks && bound.tasks[t] == Task(placeholder, TAllocated, key, node)
            && WorkOf(bound, t) == Some(Binding(key, node))
  {
    var w1 := Next(w, WorkStep(t, Report));
    Moves(w, t, Report);
    var w2 := Next(w1, WorkStep(t, CallStart(key, node)));
    Starts(w1, t, key, node);
    Moves(w2, t, CallAssume(true, allBound));
    var w3 := Next(w2, WorkStep(t, CallAssume(true, allBound)));
    Moves(w3, t, CallQueues);
    Moves(Next(w3, WorkStep(t, CallQueues)), t, Deliver);
  }
}
