/**
 Pods of other schedulers. The shim reports each of them to the scheduler core as an occupied
 allocation, and must keep the core in step with its own cache and with the cluster.
 */
module ForeignPods {
  import opened Options
  import opened Kubernetes
  import M = CacheModel
  import C = CacheRuns
  import R = Resources
  import Runs

  datatype Allocation = Allocation(node: string, resource: R.Resource)

  /** The scheduler cache, and the foreign allocations the core holds. */
  datatype Shim = Shim(cache: M.Model, core: map<string, Allocation>)

  function AllocationOf(pod: Pod): Allocation {
    Allocation(pod.nodeName, R.PodResource(pod))
  }

  function UpdateForeignPod(s: Shim, prev: Option<Pod>, pod: Pod): Shim {
    if IsAssigned(pod) && !IsTerminated(pod) then
      var changed := prev.None? || R.PodResource(prev.value) != R.PodResource(pod);
      Shim(M.UpdatePod(s.cache, pod),
           if M.UpdateAccepted(s.cache, pod) && changed then s.core[pod.uid := AllocationOf(pod)] else s.core)
    else if prev.Some? && IsTerminated(pod) && !M.Orphaned(s.cache, pod.uid) then
      Shim(M.RemovePod(s.cache, pod.uid), s.core - {pod.uid})
    else s
  }

  /** An update of a pod that is not cached counts as its creation. */
  function UpdatePod(s: Shim, prev: Option<Pod>, pod: Pod): Shim {
    if pod.foreign then UpdateForeignPod(s, if pod.uid in s.cache.pods then prev else None, pod)
    else if IsTerminated(pod) then s.(cache := M.RemovePod(s.cache, pod.uid))
    else s.(cache := M.UpdatePod(s.cache, pod))
  }

  function DeletePod(s: Shim, pod: Pod): Shim {
    Shim(M.RemovePod(s.cache, pod.uid), if pod.foreign then s.core - {pod.uid} else s.core)
  }

  /** The pods a new node adopts. */
  function Adopted(m: M.Model, name: string): map<string, Pod> {
    map uid | uid in M.Waiting(m, name) :: m.pods[uid]
  }

  function RunningOf(pods: map<string, Pod>): set<string> {
    set uid | uid in pods && IsRunning(pods[uid])
  }

  function Reports(pods: map<string, Pod>, nodes: set<string>): map<string, Allocation> {
    map uid | uid in pods && pods[uid].foreign && pods[uid].nodeName in nodes :: AllocationOf(pods[uid])
  }

  /** The adopted pods are handed to the cache once more, and the foreign ones reported to the core. */
  function Readopt(s: Shim, adopted: map<string, Pod>): Shim {
    Shim(M.Model(s.cache.nodes, s.cache.pods + adopted, s.cache.assumed - RunningOf(adopted)),
         s.core + Reports(adopted, s.cache.nodes.Keys))
  }

  /** A decommissioned node takes its allocations with it. */
  function Decommission(core: map<string, Allocation>, name: string): map<string, Allocation> {
    map uid | uid in core && core[uid].node != name :: core[uid]
  }

  /** What follows the core's answer about a new node. A node that it refuses leaves the cache again, and what was
      placed on it in the meantime is refused with it. */
  function FinishNode(s: Shim, name: string, adopted: map<string, Pod>, accepted: bool): Shim {
    if accepted then Readopt(s, adopted) else Shim(M.RemoveNode(s.cache, name), Decommission(s.core, name))
  }

  function DeleteNode(s: Shim, name: string): Shim {
    if name in s.cache.nodes then Shim(M.RemoveNode(s.cache, name), Decommission(s.core, name)) else s
  }

  // ---------------------------------------------------------------------------------------------
  // Runs

  /** What the API server and the core sent, and the calls that placing the shim's own pods makes. */
  datatype Event =
    | PodAdded(pod: Pod)
    | PodUpdated(pod: Pod)
    | PodDeleted(uid: string)
    | NodeUpdated(node: Node)
    | NodeAnswered(accepted: bool)
    | NodeDeleted(name: string)
    | Assume(uid: string, name: string, allBound: bool)
    | Forget(uid: string)

  /** A new node whose registration is on its way. The lock is given up meanwhile, so other handlers run; the
      adopted pods are known as they were before. */
  datatype Registering = Registering(name: string, adopted: map<string, Pod>)

  /** seen holds the pod objects as the API server last sent them, gone the UIDs of those it deleted, and nodes the node
      objects it last sent, without those it deleted and those the core refused. */
  datatype World =
    World(shim: Shim, seen: map<string, Pod>, gone: set<string>, nodes: map<string, Node>, open: Option<Registering>)

  function Unreported(w: World): set<string> {
    if w.open.Some? then w.open.value.adopted.Keys else {}
  }

  function PodSent(w: World, prev: Option<Pod>, pod: Pod): World {
    w.(shim := UpdatePod(w.shim, prev, pod), seen := w.seen[pod.uid := pod])
  }

  function Step(w: World, e: Event): World {
    var s := w.shim;
    match e
    case PodAdded(pod) => PodSent(w, None, pod)
    case PodUpdated(pod) =>
      if pod.uid in w.seen then PodSent(w, Some(w.seen[pod.uid]), pod) else w
    case PodDeleted(uid) =>
      if uid in w.seen then w.(shim := DeletePod(s, w.seen[uid]), seen := w.seen - {uid}, gone := w.gone + {uid}) else w
    case NodeUpdated(node) =>
      w.(shim := s.(cache := M.UpdateNode(s.cache, node)),
         nodes := w.nodes[node.name := node],
         open := if node.name in s.cache.nodes then w.open else Some(Registering(node.name, Adopted(s.cache, node.name))))
    case NodeAnswered(accepted) =>
      if w.open.None? then w
      else w.(shim := FinishNode(s, w.open.value.name, w.open.value.adopted, accepted),
              nodes := if accepted then w.nodes else w.nodes - {w.open.value.name},
              open := None)
    case NodeDeleted(name) => w.(shim := DeleteNode(s, name), nodes := w.nodes - {name})
    case Assume(uid, name, allBound) =>
      w.(shim := s.(cache := C.Apply(s.cache, C.Assume(uid, name, allBound))))
    case Forget(uid) => w.(shim := s.(cache := C.Apply(s.cache, C.Forget(uid))))
  }

  function RunAll(w: World, events: seq<Event>): World {
    if events == [] then w else Step(RunAll(w, events[..|events| - 1]), events[|events| - 1])
  }

  /** A pod object that may follow what was sent of the pod before: its fixed fields stay, it does not
      change node, a phase that ends it is final, and the UID of a deleted pod is not used again. */
  predicate Follows(w: World, pod: Pod) {
    && pod.uid != ""
    && pod.uid !in w.gone
    && (pod.uid in w.seen ==>
          var before := w.seen[pod.uid];
          && SameFixedFields(before, pod)
          && (IsAssigned(before) ==> pod.nodeName == before.nodeName)
          && (IsTerminated(before) ==> IsTerminated(pod)))
  }

  /** Only the shim's own pods are assumed on a node, and changes of nodes are handled one after the other. */
  predicate Legal(w: World, e: Event) {
    match e
    case PodAdded(pod) => Follows(w, pod)
    case PodUpdated(pod) => Follows(w, pod)
    case NodeUpdated(node) => node.name != "" && w.open.None?
    case NodeDeleted(_) => w.open.None?
    case Assume(uid, _, _) => uid in w.shim.cache.pods ==> !w.shim.cache.pods[uid].foreign
    case _ => true
  }

  ghost predicate LegalRun(w: World, events: seq<Event>) {
    forall i :: 0 <= i < |events| ==> Legal(RunAll(w, events[..i]), events[i])
  }

  const START := World(Shim(M.Model(map[], map[], map[]), map[]), map[], {}, map[], None)

  // ---------------------------------------------------------------------------------------------
  // The core agrees with the cache

  function Allocations(m: M.Model): map<string, Allocation> {
    map uid | uid in m.pods && m.pods[uid].foreign && M.Assigned(m, uid) :: AllocationOf(m.pods[uid])
  }

  predicate Placed(m: M.Model, uid: string) {
    M.Assigned(m, uid) && m.pods[uid].foreign
  }

  /** A foreign pod that occupies its node. */
  predicate Occupies(pod: Pod) {
    pod.foreign && IsAssigned(pod) && !IsTerminated(pod)
  }

  /** How a cached pod relates to what was last sent of it. */
  predicate Tracked(w: World, uid: string)
    requires uid in w.shim.cache.pods
  {
    var pod := w.shim.cache.pods[uid];
    && pod.uid == uid
    && !IsTerminated(pod)
    && (uid in w.seen || uid in w.gone)
    && (uid in w.seen ==> pod.foreign == w.seen[uid].foreign)
    && (pod.foreign ==>
          IsAssigned(pod) && uid !in w.shim.cache.assumed && (uid in w.seen ==> pod.nodeName == w.seen[uid].nodeName))
  }

  /** What is known of an adopted pod until the core has answered, whatever is sent of it meanwhile. */
  predicate Kept(w: World, uid: string, pod: Pod) {
    && pod.uid == uid && IsAssigned(pod) && !IsTerminated(pod)
    && w.open.Some? && pod.nodeName == w.open.value.name
    && (uid in w.seen || uid in w.gone)
    && (uid in w.seen ==> w.seen[uid].foreign == pod.foreign && (pod.foreign ==> w.seen[uid].nodeName == pod.nodeName))
    && (uid in w.shim.cache.pods ==>
          var cached := w.shim.cache.pods[uid];
          cached.foreign == pod.foreign && (pod.foreign ==> cached.nodeName == pod.nodeName))
  }

  /** Cache and core hold the same foreign pods on the same nodes; nothing is said of their sizes. */
  predicate InStep(w: World, uid: string) {
    var s := w.shim;
    && (uid in w.seen ==> w.seen[uid].uid == uid != "" && uid !in w.gone)
    && (uid in s.cache.pods ==> Tracked(w, uid))
    && (uid in s.cache.assumed ==> uid in s.cache.pods)
    && (uid in w.seen && Occupies(w.seen[uid]) ==> uid in s.cache.pods)
    && (uid in s.core ==> Placed(s.cache, uid) && s.core[uid].node == s.cache.pods[uid].nodeName)
    && (Placed(s.cache, uid) && uid !in Unreported(w) ==> uid in s.core)
    && (uid in Unreported(w) ==> Kept(w, uid, w.open.value.adopted[uid]))
  }

  ghost predicate Invariant(w: World) {
    && "" !in w.shim.cache.nodes
    && w.shim.cache.nodes == w.nodes
    && (w.open.Some? ==> w.open.value.name in w.shim.cache.nodes)
    && forall uid :: InStep(w, uid)
  }

  predicate IsPrevious(w: World, prev: Option<Pod>, uid: string) {
    prev == None || (uid in w.seen && prev == Some(w.seen[uid]))
  }

  lemma OtherPodSentKeeps(w: World, prev: Option<Pod>, pod: Pod, uid: string)
    requires InStep(w, uid) && uid != pod.uid
    ensures InStep(PodSent(w, prev, pod), uid)
  {
  }

  lemma ForeignPodSentKeeps(w: World, prev: Option<Pod>, pod: Pod)
    requires Follows(w, pod) && InStep(w, pod.uid) && IsPrevious(w, prev, pod.uid) && pod.foreign
    ensures InStep(PodSent(w, prev, pod), pod.uid)
  {
    if IsTerminated(pod) {
    } else if IsAssigned(pod) {
    }
  }

  lemma OwnPodSentKeeps(w: World, prev: Option<Pod>, pod: Pod)
    requires Follows(w, pod) && InStep(w, pod.uid) && IsPrevious(w, prev, pod.uid) && !pod.foreign
    ensures InStep(PodSent(w, prev, pod), pod.uid)
  {
  }

  lemma PodSentKeeps(w: World, prev: Option<Pod>, pod: Pod, uid: string)
    requires Follows(w, pod) && InStep(w, uid) && IsPrevious(w, prev, pod.uid)
    ensures InStep(PodSent(w, prev, pod), uid)
  {
    if uid != pod.uid {
      OtherPodSentKeeps(w, prev, pod, uid);
    } else if pod.foreign {
      ForeignPodSentKeeps(w, prev, pod);
    } else {
      OwnPodSentKeeps(w, prev, pod);
    }
  }

  lemma PodDeletedKeeps(w: World, deleted: string, uid: string)
    requires InStep(w, deleted) && InStep(w, uid)
    ensures InStep(Step(w, PodDeleted(deleted)), uid)
  {
  }

  lemma NodeUpdatedKeeps(w: World, node: Node, uid: string)
    requires InStep(w, uid) && w.open.None?
    ensures InStep(Step(w, NodeUpdated(node)), uid)
  {
  }

  lemma AdoptedKept(w: World, uid: string)
    requires InStep(w, uid) && uid in Unreported(w) && w.open.value.name in w.shim.cache.nodes
    ensures InStep(Step(w, NodeAnswered(true)), uid)
  {
    var w', pod := Step(w, NodeAnswered(true)), w.open.value.adopted[uid];
    assert w'.shim.cache.pods[uid] == pod;
    assert pod.foreign ==> w'.shim.core[uid] == AllocationOf(pod);
  }

  lemma NodeAcceptedKeeps(w: World, uid: string)
    requires InStep(w, uid) && w.open.Some? && w.open.value.name in w.shim.cache.nodes
    ensures InStep(Step(w, NodeAnswered(true)), uid)
  {
    if uid in Unreported(w) { AdoptedKept(w, uid); }
  }

  lemma NodeRefusedKeeps(w: World, uid: string)
    requires InStep(w, uid) && w.open.Some?
    ensures InStep(Step(w, NodeAnswered(false)), uid)
  {
  }

  lemma NodeDeletedKeeps(w: World, name: string, uid: string)
    requires InStep(w, uid) && w.open.None?
    ensures InStep(Step(w, NodeDeleted(name)), uid)
  {
  }

  lemma AssumeKeeps(w: World, assumed: string, name: string, allBound: bool, uid: string)
    requires "" !in w.shim.cache.nodes && Legal(w, Assume(assumed, name, allBound))
    requires InStep(w, assumed) && InStep(w, uid)
    ensures InStep(Step(w, Assume(assumed, name, allBound)), uid)
  {
  }

  lemma ForgetKeeps(w: World, forgotten: string, uid: string)
    requires InStep(w, forgotten) && InStep(w, uid)
    ensures InStep(Step(w, Forget(forgotten)), uid)
  {
  }

  lemma InStepKept(w: World, e: Event, uid: string)
    requires Invariant(w) && Legal(w, e)
    ensures InStep(Step(w, e), uid)
  {
    assert InStep(w, uid);
    match e
    case PodAdded(pod) => PodSentKeeps(w, None, pod, uid);
    case PodUpdated(pod) => if pod.uid in w.seen { PodSentKeeps(w, Some(w.seen[pod.uid]), pod, uid); }
    case PodDeleted(deleted) => assert InStep(w, deleted); PodDeletedKeeps(w, deleted, uid);
    case NodeUpdated(node) => NodeUpdatedKeeps(w, node, uid);
    case NodeAnswered(accepted) =>
      if w.open.Some? {
        if accepted { NodeAcceptedKeeps(w, uid); } else { NodeRefusedKeeps(w, uid); }
      }
    case NodeDeleted(name) => NodeDeletedKeeps(w, name, uid);
    case Assume(assumed, name, allBound) => assert InStep(w, assumed); AssumeKeeps(w, assumed, name, allBound, uid);
    case Forget(forgotten) => assert InStep(w, forgotten); ForgetKeeps(w, forgotten, uid);
  }

  lemma NodesStep(w: World, e: Event)
    requires Invariant(w) && Legal(w, e)
    ensures var w' := Step(w, e);
            "" !in w'.shim.cache.nodes && w'.shim.cache.nodes == w'.nodes && (w'.open.Some? ==> w'.open.value.name in w'.shim.cache.nodes)
  {
  }

  /** Every handler keeps core and cache in step, with registrations in progress. */
  lemma StepKeeps(w: World, e: Event)
    requires Invariant(w) && Legal(w, e)
    ensures Invariant(Step(w, e))
  {
    forall uid ensures InStep(Step(w, e), uid) {
      InStepKept(w, e, uid);
    }
    NodesStep(w, e);
  }

  lemma {:induction false} InvariantRun(events: seq<Event>)
    requires LegalRun(START, events)
    ensures Invariant(RunAll(START, events))
  {
    if events != [] {
      var init, last := events[..|events| - 1], events[|events| - 1];
      forall i | 0 <= i < |init| ensures init[..i] == events[..i] && init[i] == events[i] {}
      InvariantRun(init);
      StepKeeps(RunAll(START, init), last);
    }
  }

  /** The cache knows exactly the nodes that the API server has sent and not deleted, as it last sent them, but for those the
      core refused. */
  lemma CacheKnowsNodes(events: seq<Event>)
    requires LegalRun(START, events)
    ensures RunAll(START, events).shim.cache.nodes == RunAll(START, events).nodes
  {
    InvariantRun(events);
  }

  /** One step of a legal run. */
  lemma RunStep(events: seq<Event>, i: nat)
    requires LegalRun(START, events) && i < |events|
    ensures Invariant(RunAll(START, events[..i])) && Legal(RunAll(START, events[..i]), events[i])
    ensures RunAll(START, events[..i + 1]) == Step(RunAll(START, events[..i]), events[i])
  {
    forall j | 0 <= j < i ensures events[..i][..j] == events[..j] && events[..i][j] == events[j] {}
    InvariantRun(events[..i]);
    assert events[..i + 1][..i] == events[..i];
  }

  // ---------------------------------------------------------------------------------------------
  // Sizes: the core agrees with the cache

  /** Outside a registration this is full agreement. */
  ghost predicate AgreesWithCache(w: World) {
    w.shim.core - Unreported(w) == Allocations(w.shim.cache) - Unreported(w)
  }

  predicate CacheAt(w: World, uid: string) {
    uid !in Unreported(w) && uid in w.shim.core ==>
      uid in w.shim.cache.pods && w.shim.core[uid] == AllocationOf(w.shim.cache.pods[uid])
  }

  lemma CachePodByPod(w: World)
    requires Invariant(w)
    ensures AgreesWithCache(w) <==> forall uid :: CacheAt(w, uid)
  {
    var core, all := w.shim.core - Unreported(w), Allocations(w.shim.cache) - Unreported(w);
    forall uid ensures uid in core <==> uid in all { assert InStep(w, uid); }
    if AgreesWithCache(w) {
      forall uid ensures CacheAt(w, uid) {
        if uid in core { assert core[uid] == all[uid]; }
      }
    }
    if forall uid :: CacheAt(w, uid) {
      forall uid | uid in core ensures core[uid] == all[uid] { assert CacheAt(w, uid); }
    }
  }

  /** An update repeats the size that was sent last while the cache holds another size: the core is not told. */
  predicate Silent(w: World, e: Event, uid: string) {
    && e.PodUpdated? && e.pod.uid == uid && Occupies(e.pod)
    && uid in w.seen && uid !in Unreported(w) && Placed(w.shim.cache, uid)
    && R.PodResource(w.seen[uid]) == R.PodResource(e.pod) != R.PodResource(w.shim.cache.pods[uid])
  }

  lemma CacheOtherSent(w: World, prev: Option<Pod>, pod: Pod, uid: string)
    requires CacheAt(w, uid) && uid != pod.uid
    ensures CacheAt(PodSent(w, prev, pod), uid)
  {
  }

  lemma CacheItselfSent(w: World, prev: Option<Pod>, pod: Pod)
    requires Follows(w, pod) && InStep(w, pod.uid) && CacheAt(w, pod.uid) && IsPrevious(w, prev, pod.uid)
    ensures CacheAt(PodSent(w, prev, pod), pod.uid) <==> !(prev.Some? && Silent(w, PodUpdated(pod), pod.uid))
  {
    if IsTerminated(pod) {
    } else if pod.foreign {
    }
  }

  lemma CachePodSent(w: World, prev: Option<Pod>, pod: Pod, uid: string)
    requires Follows(w, pod) && InStep(w, uid) && CacheAt(w, uid) && IsPrevious(w, prev, pod.uid)
    ensures CacheAt(PodSent(w, prev, pod), uid) <==> !(prev.Some? && Silent(w, PodUpdated(pod), uid))
  {
    if uid == pod.uid {
      CacheItselfSent(w, prev, pod);
    } else {
      CacheOtherSent(w, prev, pod, uid);
    }
  }

  lemma CacheAnswered(w: World, accepted: bool, uid: string)
    requires Invariant(w) && CacheAt(w, uid) && w.open.Some?
    ensures CacheAt(Step(w, NodeAnswered(accepted)), uid)
  {
    assert InStep(w, uid);
  }

  lemma CacheNode(w: World, e: Event, uid: string)
    requires InStep(w, uid) && CacheAt(w, uid) && w.open.None? && (e.NodeUpdated? || e.NodeDeleted?)
    ensures CacheAt(Step(w, e), uid)
  {
  }

  lemma CacheDeleted(w: World, deleted: string, uid: string)
    requires InStep(w, deleted) && InStep(w, uid) && CacheAt(w, uid)
    ensures CacheAt(Step(w, PodDeleted(deleted)), uid)
  {
  }

  lemma ForeignStays(w: World, e: Event, uid: string)
    requires (e.Assume? || e.Forget?) && Legal(w, e) && InStep(w, e.uid) && InStep(w, uid) && uid in w.shim.core
    ensures uid in Step(w, e).shim.cache.pods && Step(w, e).shim.cache.pods[uid] == w.shim.cache.pods[uid]
  {
  }

  /** Placing the shim's own pods leaves the foreign ones alone. */
  lemma CachePlacing(w: World, e: Event, uid: string)
    requires (e.Assume? || e.Forget?) && Legal(w, e) && InStep(w, e.uid) && InStep(w, uid) && CacheAt(w, uid)
    ensures CacheAt(Step(w, e), uid)
  {
    if uid in w.shim.core { ForeignStays(w, e, uid); }
  }

  lemma CacheAtStep(w: World, e: Event, uid: string)
    requires Invariant(w) && Legal(w, e) && CacheAt(w, uid)
    ensures CacheAt(Step(w, e), uid) <==> !Silent(w, e, uid)
  {
    assert InStep(w, uid);
    match e
    case PodAdded(pod) => CachePodSent(w, None, pod, uid);
    case PodUpdated(pod) => if pod.uid in w.seen { CachePodSent(w, Some(w.seen[pod.uid]), pod, uid); }
    case NodeAnswered(accepted) => if w.open.Some? { CacheAnswered(w, accepted, uid); }
    case NodeUpdated(_) => CacheNode(w, e, uid);
    case NodeDeleted(_) => CacheNode(w, e, uid);
    case PodDeleted(deleted) => assert InStep(w, deleted); CacheDeleted(w, deleted, uid);
    case _ => assert InStep(w, e.uid); CachePlacing(w, e, uid);
  }

  /** Exactly when a step leaves the core in agreement with the cache. */
  lemma CacheStep(w: World, e: Event)
    requires Invariant(w) && Legal(w, e) && AgreesWithCache(w)
    ensures AgreesWithCache(Step(w, e)) <==> forall uid :: !Silent(w, e, uid)
  {
    StepKeeps(w, e);
    CachePodByPod(w);
    CachePodByPod(Step(w, e));
    forall uid ensures CacheAt(Step(w, e), uid) <==> !Silent(w, e, uid) {
      assert CacheAt(w, uid);
      CacheAtStep(w, e, uid);
    }
  }

  ghost predicate CacheAfter(events: seq<Event>, i: nat)
    requires i <= |events|
  {
    AgreesWithCache(RunAll(START, events[..i]))
  }

  ghost predicate SilentAt(events: seq<Event>, i: nat)
    requires i < |events|
  {
    exists uid :: Silent(RunAll(START, events[..i]), events[i], uid)
  }

  lemma CacheOn(events: seq<Event>, i: nat)
    requires LegalRun(START, events) && i < |events| && CacheAfter(events, i)
    ensures CacheAfter(events, i + 1) <==> !SilentAt(events, i)
  {
    RunStep(events, i);
    CacheStep(RunAll(START, events[..i]), events[i]);
  }

  /** Over every run: the core holds exactly the foreign pods the cache places on a known node, with their node and
      their size, throughout, exactly when no step is silent. The pods that a node adopts are excepted until the
      core has answered. */
  lemma CoreAgreesWithCache(events: seq<Event>)
    requires LegalRun(START, events)
    ensures (forall i :: 0 <= i <= |events| ==> CacheAfter(events, i)) <==> forall i :: 0 <= i < |events| ==> !SilentAt(events, i)
  {
    var good := seq(|events| + 1, i requires 0 <= i <= |events| => CacheAfter(events, i));
    var bad := seq(|events|, i requires 0 <= i < |events| => SilentAt(events, i));
    assert events[..0] == [];
    forall i | 0 <= i < |bad| && good[i] ensures good[i + 1] <==> !bad[i] { CacheOn(events, i); }
    Runs.Throughout(good, bad);
    forall i | 0 <= i <= |events| ensures good[i] == CacheAfter(events, i) {}
    forall i | 0 <= i < |events| ensures bad[i] == SilentAt(events, i) {}
  }

  // ---------------------------------------------------------------------------------------------
  // The core agrees with the cluster

  predicate InCluster(w: World, uid: string) {
    uid in w.seen && Occupies(w.seen[uid]) && w.seen[uid].nodeName in w.nodes
  }

  /** What the core should hold, going by what the API server sent and by the nodes the core refused alone. */
  function Cluster(w: World): map<string, Allocation> {
    map uid | uid in w.seen && InCluster(w, uid) :: AllocationOf(w.seen[uid])
  }

  ghost predicate AgreesWithCluster(w: World) {
    w.shim.core - Unreported(w) == Cluster(w) - Unreported(w)
  }

  predicate AgreesAt(w: World, uid: string) {
    uid !in Unreported(w) ==>
      && (uid in w.shim.core <==> InCluster(w, uid))
      && (uid in w.shim.core ==> w.shim.core[uid] == AllocationOf(w.seen[uid]))
  }

  lemma AgreesPodByPod(w: World)
    ensures AgreesWithCluster(w) <==> forall uid :: AgreesAt(w, uid)
  {
    var core, all := w.shim.core - Unreported(w), Cluster(w) - Unreported(w);
    if AgreesWithCluster(w) {
      forall uid ensures AgreesAt(w, uid) {
        if uid !in Unreported(w) { assert uid in w.shim.core <==> uid in core; assert InCluster(w, uid) <==> uid in all; }
      }
    }
    if forall uid :: AgreesAt(w, uid) {
      forall uid ensures uid in core <==> uid in all { assert AgreesAt(w, uid); }
      forall uid | uid in core ensures core[uid] == all[uid] { assert AgreesAt(w, uid); }
    }
  }

  /** A foreign pod that fills its node although it has ended or is gone. */
  predicate Lingers(w: World, uid: string) {
    Placed(w.shim.cache, uid) && uid !in Unreported(w) && (uid !in w.seen || IsTerminated(w.seen[uid]))
  }

  /** A foreign pod that the core counts with another size than the one that was sent last. */
  predicate Missized(w: World, uid: string) {
    && uid in w.shim.core && uid !in Unreported(w) && uid in w.seen && !IsTerminated(w.seen[uid])
    && w.shim.core[uid].resource != R.PodResource(w.seen[uid])
  }

  lemma AgreesWithClusterIff(w: World)
    requires Invariant(w)
    ensures AgreesWithCluster(w) <==> forall uid :: !Lingers(w, uid) && !Missized(w, uid)
  {
    AgreesPodByPod(w);
    forall uid ensures AgreesAt(w, uid) <==> !Lingers(w, uid) && !Missized(w, uid) {
      assert InStep(w, uid);
    }
  }

  /** The core comes to disagree about a pod in two ways: its end is reported as an addition of a pod that is
      already placed, or the object adopted with its node is not what the API server says any more. */
  predicate Misses(w: World, e: Event, uid: string) {
    match e
    case PodAdded(pod) => uid == pod.uid && IsTerminated(pod) && Placed(w.shim.cache, uid) && uid !in Unreported(w)
    case NodeAnswered(accepted) =>
      && accepted && uid in Unreported(w) && w.open.value.adopted[uid].foreign
      && !(uid in w.seen && Occupies(w.seen[uid]) && AllocationOf(w.seen[uid]) == AllocationOf(w.open.value.adopted[uid]))
    case _ => false
  }

  lemma AgreesOtherSent(w: World, prev: Option<Pod>, pod: Pod, uid: string)
    requires AgreesAt(w, uid) && uid != pod.uid
    ensures AgreesAt(PodSent(w, prev, pod), uid)
  {
  }

  lemma AgreesItselfSent(w: World, prev: Option<Pod>, pod: Pod)
    requires w.shim.cache.nodes == w.nodes
    requires Follows(w, pod) && InStep(w, pod.uid) && AgreesAt(w, pod.uid) && IsPrevious(w, prev, pod.uid)
    ensures AgreesAt(PodSent(w, prev, pod), pod.uid) <==> !(prev == None && Misses(w, PodAdded(pod), pod.uid))
  {
    if IsTerminated(pod) {
    }
  }

  lemma AgreesPodSent(w: World, prev: Option<Pod>, pod: Pod, uid: string)
    requires w.shim.cache.nodes == w.nodes
    requires Follows(w, pod) && InStep(w, uid) && AgreesAt(w, uid) && IsPrevious(w, prev, pod.uid)
    ensures AgreesAt(PodSent(w, prev, pod), uid) <==> !(prev == None && Misses(w, PodAdded(pod), uid))
  {
    if uid == pod.uid {
      AgreesItselfSent(w, prev, pod);
    } else {
      AgreesOtherSent(w, prev, pod, uid);
    }
  }

  /** After the core's answer it agrees with the cluster about an adopted foreign pod exactly when the pod still fills
      its node with the size it had when it was adopted. */
  lemma AnsweredIff(w: World, uid: string)
    requires Invariant(w) && uid in Unreported(w) && w.open.value.adopted[uid].foreign
    ensures AgreesAt(Step(w, NodeAnswered(true)), uid) <==>
              && uid in w.seen && Occupies(w.seen[uid])
              && AllocationOf(w.seen[uid]) == AllocationOf(w.open.value.adopted[uid])
  {
    assert InStep(w, uid);
    assert Step(w, NodeAnswered(true)).shim.core[uid] == AllocationOf(w.open.value.adopted[uid]);
  }

  lemma AgreesAnswered(w: World, accepted: bool, uid: string)
    requires Invariant(w) && AgreesAt(w, uid) && w.open.Some?
    ensures AgreesAt(Step(w, NodeAnswered(accepted)), uid) <==> !Misses(w, NodeAnswered(accepted), uid)
  {
    assert InStep(w, uid);
    if accepted && uid in Unreported(w) && w.open.value.adopted[uid].foreign { AnsweredIff(w, uid); }
  }

  lemma AgreesNode(w: World, e: Event, uid: string)
    requires w.shim.cache.nodes == w.nodes
    requires InStep(w, uid) && AgreesAt(w, uid) && w.open.None? && (e.NodeUpdated? || e.NodeDeleted?)
    ensures AgreesAt(Step(w, e), uid)
  {
  }

  lemma AgreesDeleted(w: World, deleted: string, uid: string)
    requires InStep(w, uid) && InStep(w, deleted) && AgreesAt(w, uid)
    ensures AgreesAt(Step(w, PodDeleted(deleted)), uid)
  {
  }

  /** Placing the shim's own pods does not concern the core's foreign allocations. */
  lemma AgreesPlacing(w: World, e: Event, uid: string)
    requires (e.Assume? || e.Forget?) && AgreesAt(w, uid)
    ensures AgreesAt(Step(w, e), uid)
  {
  }

  lemma AgreesAtStep(w: World, e: Event, uid: string)
    requires Invariant(w) && Legal(w, e) && AgreesAt(w, uid)
    ensures AgreesAt(Step(w, e), uid) <==> !Misses(w, e, uid)
  {
    assert InStep(w, uid);
    match e
    case PodAdded(pod) => AgreesPodSent(w, None, pod, uid);
    case PodUpdated(pod) => if pod.uid in w.seen { AgreesPodSent(w, Some(w.seen[pod.uid]), pod, uid); }
    case NodeAnswered(accepted) => if w.open.Some? { AgreesAnswered(w, accepted, uid); }
    case NodeUpdated(_) => AgreesNode(w, e, uid);
    case NodeDeleted(_) => AgreesNode(w, e, uid);
    case PodDeleted(deleted) => assert InStep(w, deleted); AgreesDeleted(w, deleted, uid);
    case _ => AgreesPlacing(w, e, uid);
  }

  /** Exactly when a step leaves the core in agreement with the cluster. */
  lemma ClusterStep(w: World, e: Event)
    requires Invariant(w) && Legal(w, e) && AgreesWithCluster(w)
    ensures AgreesWithCluster(Step(w, e)) <==> forall uid :: !Misses(w, e, uid)
  {
    AgreesPodByPod(w);
    AgreesPodByPod(Step(w, e));
    forall uid ensures AgreesAt(Step(w, e), uid) <==> !Misses(w, e, uid) {
      assert AgreesAt(w, uid);
      AgreesAtStep(w, e, uid);
    }
  }

  ghost predicate AgreesAfter(events: seq<Event>, i: nat)
    requires i <= |events|
  {
    AgreesWithCluster(RunAll(START, events[..i]))
  }

  ghost predicate MissesAt(events: seq<Event>, i: nat)
    requires i < |events|
  {
    exists uid :: Misses(RunAll(START, events[..i]), events[i], uid)
  }

  lemma AgreesOn(events: seq<Event>, i: nat)
    requires LegalRun(START, events) && i < |events| && AgreesAfter(events, i)
    ensures AgreesAfter(events, i + 1) <==> !MissesAt(events, i)
  {
    RunStep(events, i);
    ClusterStep(RunAll(START, events[..i]), events[i]);
  }

  /** Over every run: the core holds exactly what fills the known nodes of the cluster, throughout, exactly when no step
      misses a pod. While a node registers, the pods it adopts are excepted. */
  lemma CoreAgreesWithCluster(events: seq<Event>)
    requires LegalRun(START, events)
    ensures (forall i :: 0 <= i <= |events| ==> AgreesAfter(events, i)) <==> forall i :: 0 <= i < |events| ==> !MissesAt(events, i)
  {
    var good := seq(|events| + 1, i requires 0 <= i <= |events| => AgreesAfter(events, i));
    var bad := seq(|events|, i requires 0 <= i < |events| => MissesAt(events, i));
    assert events[..0] == [];
    forall i | 0 <= i < |bad| && good[i] ensures good[i + 1] <==> !bad[i] { AgreesOn(events, i); }
    Runs.Throughout(good, bad);
    forall i | 0 <= i <= |events| ensures good[i] == AgreesAfter(events, i) {}
    forall i | 0 <= i < |events| ensures bad[i] == MissesAt(events, i) {}
  }

  // ---------------------------------------------------------------------------------------------
  // The conditions are needed

  lemma RunOne(w: World, events: seq<Event>, e: Event)
    requires LegalRun(w, events) && Legal(RunAll(w, events), e)
    ensures RunAll(w, events + [e]) == Step(RunAll(w, events), e)
    ensures LegalRun(w, events + [e])
  {
    var all := events + [e];
    assert all[..|events|] == events;
    forall i | 0 <= i < |all| ensures Legal(RunAll(w, all[..i]), all[i]) {
      if i < |events| { assert all[..i] == events[..i]; }
    }
  }

  lemma RunFour(w: World, a: Event, b: Event, c: Event, d: Event)
    requires Legal(w, a) && Legal(Step(w, a), b) && Legal(Step(Step(w, a), b), c) && Legal(Step(Step(Step(w, a), b), c), d)
    ensures LegalRun(w, [a, b, c, d]) && RunAll(w, [a, b, c, d]) == Step(Step(Step(Step(w, a), b), c), d)
  {
    RunOne(w, [], a);
    RunOne(w, [a], b);
    RunOne(w, [a, b], c);
    assert [a, b] + [c] == [a, b, c];
    RunOne(w, [a, b, c], d);
    assert [a, b, c] + [d] == [a, b, c, d];
  }

  lemma OrphanFirst(pod: Pod)
    requires IsAssigned(pod) && !IsTerminated(pod) && pod.uid != ""
    ensures Step(START, PodAdded(pod))
         == World(Shim(M.Model(map[], map[pod.uid := pod], map[]), map[]), map[pod.uid := pod], {}, map[], None)
  {
  }

  lemma OrphanAppears(w: World, pod: Pod, node: Node)
    requires IsAssigned(pod) && node.name == pod.nodeName && w.open == None && w.nodes == map[]
    requires w.shim == Shim(M.Model(map[], map[pod.uid := pod], map[]), map[])
    ensures Step(w, NodeUpdated(node))
         == w.(shim := Shim(M.Model(map[node.name := node], map[pod.uid := pod], map[]), map[]),
               nodes := map[node.name := node],
               open := Some(Registering(node.name, map[pod.uid := pod])))
  {
    assert M.Waiting(w.shim.cache, node.name) == {pod.uid};
    assert Adopted(w.shim.cache, node.name) == map[pod.uid := pod];
    assert M.UpdateNode(w.shim.cache, node).assumed == map[];
  }

  /** Whatever became of the pod, the adopted object is reported. */
  lemma AdoptedIsReported(w: World, pod: Pod, node: Node)
    requires pod.foreign && node.name == pod.nodeName && node.name in w.shim.cache.nodes && w.shim.core == map[]
    requires w.open == Some(Registering(node.name, map[pod.uid := pod]))
    ensures Step(w, NodeAnswered(true)).shim.core == map[pod.uid := AllocationOf(pod)]
    ensures Step(w, NodeAnswered(true)).seen == w.seen
  {
  }

  /** The core counts an ended pod: any foreign pod that ends while its node is unknown shows it. */
  lemma EndMissedWhileOrphaned(pod: Pod, node: Node)
    requires Occupies(pod) && pod.uid != "" && node.name == pod.nodeName
    ensures var events := [PodAdded(pod), PodUpdated(pod.(phase := Succeeded)), NodeUpdated(node), NodeAnswered(true)];
            && LegalRun(START, events)
            && RunAll(START, events).shim.core == map[pod.uid := AllocationOf(pod)]
            && Cluster(RunAll(START, events)) == map[]
  {
    var ended := pod.(phase := Succeeded);
    OrphanFirst(pod);
    var w1 := Step(START, PodAdded(pod));
    var w2 := Step(w1, PodUpdated(ended));
    assert w2.shim == w1.shim && w2.seen == map[pod.uid := ended];
    OrphanAppears(w2, pod, node);
    AdoptedIsReported(Step(w2, NodeUpdated(node)), pod, node);
    RunFour(START, PodAdded(pod), PodUpdated(ended), NodeUpdated(node), NodeAnswered(true));
  }

  /** The same for any foreign pod that ends while its node is being registered, although its end is released at once. */
  lemma EndMissedWhileRegistering(pod: Pod, node: Node)
    requires Occupies(pod) && pod.uid != "" && node.name == pod.nodeName
    ensures var events := [PodAdded(pod), NodeUpdated(node), PodUpdated(pod.(phase := Succeeded)), NodeAnswered(true)];
            && LegalRun(START, events)
            && RunAll(START, events).shim.core == map[pod.uid := AllocationOf(pod)]
            && Cluster(RunAll(START, events)) == map[]
  {
    var ended := pod.(phase := Succeeded);
    OrphanFirst(pod);
    var w1 := Step(START, PodAdded(pod));
    OrphanAppears(w1, pod, node);
    var w2 := Step(w1, NodeUpdated(node));
    var w3 := Step(w2, PodUpdated(ended));
    assert w3.shim.core == map[] && w3.shim.cache.nodes == w2.shim.cache.nodes && w3.seen == map[pod.uid := ended];
    AdoptedIsReported(w3, pod, node);
    RunFour(START, PodAdded(pod), NodeUpdated(node), PodUpdated(ended), NodeAnswered(true));
  }

  /** The core and the cache keep a pod that is gone: any foreign pod that is deleted while its node is being
      registered shows it. */
  lemma DeletedWhileRegistering(pod: Pod, node: Node)
    requires Occupies(pod) && pod.uid != "" && node.name == pod.nodeName
    ensures var events := [PodAdded(pod), NodeUpdated(node), PodDeleted(pod.uid), NodeAnswered(true)];
            && LegalRun(START, events)
            && RunAll(START, events).seen == map[]
            && RunAll(START, events).shim.core == map[pod.uid := AllocationOf(pod)]
  {
    OrphanFirst(pod);
    var w1 := Step(START, PodAdded(pod));
    OrphanAppears(w1, pod, node);
    var w2 := Step(w1, NodeUpdated(node));
    var w3 := Step(w2, PodDeleted(pod.uid));
    assert w3.seen == map[] && w3.shim.core == map[] && w3.shim.cache.nodes == w2.shim.cache.nodes;
    AdoptedIsReported(w3, pod, node);
    RunFour(START, PodAdded(pod), NodeUpdated(node), PodDeleted(pod.uid), NodeAnswered(true));
  }

  /** The core counts an ended pod: any foreign pod whose end arrives as an addition shows it. */
  lemma EndMissedAsAddition(pod: Pod, node: Node)
    requires Occupies(pod) && pod.uid != "" && node.name == pod.nodeName
    ensures var events := [NodeUpdated(node), NodeAnswered(true), PodAdded(pod), PodAdded(pod.(phase := Succeeded))];
            && LegalRun(START, events)
            && RunAll(START, events).shim.core == map[pod.uid := AllocationOf(pod)]
            && Cluster(RunAll(START, events)) == map[]
  {
    var ended := pod.(phase := Succeeded);
    KnownNode(node);
    var w2 := Step(Step(START, NodeUpdated(node)), NodeAnswered(true));
    var w3 := Step(w2, PodAdded(pod));
    assert w3.shim.core == map[pod.uid := AllocationOf(pod)] && w3.seen == map[pod.uid := pod];
    RunFour(START, NodeUpdated(node), NodeAnswered(true), PodAdded(pod), PodAdded(ended));
  }

  lemma KnownNode(node: Node)
    ensures Step(Step(START, NodeUpdated(node)), NodeAnswered(true))
         == World(Shim(M.Model(map[node.name := node], map[], map[]), map[]), map[], {}, map[node.name := node], None)
  {
    var w := Step(START, NodeUpdated(node));
    assert w.shim.cache == M.Model(map[node.name := node], map[], map[]);
    assert Adopted(START.shim.cache, node.name) == map[];
  }

  lemma ResizedAnswered(pod: Pod, resized: Pod, node: Node)
    requires Occupies(pod) && Occupies(resized) && pod.uid != "" && node.name == pod.nodeName == resized.nodeName
    requires SameFixedFields(pod, resized)
    ensures var w2 := Step(Step(START, PodAdded(pod)), NodeUpdated(node));
            var w3 := Step(w2, PodUpdated(resized));
            var w4 := Step(w3, NodeAnswered(true));
            && Legal(START, PodAdded(pod)) && Legal(Step(START, PodAdded(pod)), NodeUpdated(node))
            && Legal(w2, PodUpdated(resized)) && Legal(w3, NodeAnswered(true))
            && w4 == World(Shim(M.Model(map[node.name := node], map[pod.uid := pod], map[]), map[pod.uid := AllocationOf(pod)]),
                           map[pod.uid := resized], {}, map[node.name := node], None)
  {
    OrphanFirst(pod);
    var w1 := Step(START, PodAdded(pod));
    OrphanAppears(w1, pod, node);
    var w3 := Step(Step(w1, NodeUpdated(node)), PodUpdated(resized));
    assert w3.shim.cache == M.Model(map[node.name := node], map[pod.uid := resized], map[]);
    assert w3.open == Some(Registering(node.name, map[pod.uid := pod])) && w3.seen == map[pod.uid := resized];
    OldObjectWins(w3, pod, node);
  }

  lemma OneEntry<T>(entries: map<string, T>, key: string, v: T)
    requires entries.Keys <= {key}
    ensures entries + map[key := v] == map[key := v]
  {
  }

  lemma NothingLeft(none: map<string, bool>, keys: set<string>)
    requires none == map[]
    ensures none - keys == map[]
  {
  }

  lemma ReportsOne(pod: Pod, name: string)
    requires pod.foreign && pod.nodeName == name
    ensures Reports(map[pod.uid := pod], {name}) == map[pod.uid := AllocationOf(pod)]
  {
  }

  lemma OldObjectWins(w: World, pod: Pod, node: Node)
    requires pod.foreign && node.name == pod.nodeName && w.open == Some(Registering(node.name, map[pod.uid := pod]))
    requires w.shim.cache.nodes == map[node.name := node] && w.shim.cache.nodes.Keys == {node.name}
    requires w.shim.cache.pods.Keys == {pod.uid}
    requires w.shim.cache.assumed == map[] && w.shim.core.Keys <= {pod.uid}
    ensures Step(w, NodeAnswered(true))
         == w.(shim := Shim(M.Model(map[node.name := node], map[pod.uid := pod], map[]), map[pod.uid := AllocationOf(pod)]),
               open := None)
  {
    OneEntry(w.shim.cache.pods, pod.uid, pod);
    ReportsOne(pod, node.name);
    OneEntry(w.shim.core, pod.uid, AllocationOf(pod));
    NothingLeft(w.shim.cache.assumed, RunningOf(map[pod.uid := pod]));
  }

  /** Cache and core disagree about the size of a pod: any foreign pod that is resized while its node is being
      registered, and then sent once more, shows it. */
  lemma ResizedWhileRegistering(pod: Pod, resized: Pod, node: Node)
    requires Occupies(pod) && Occupies(resized) && pod.uid != "" && node.name == pod.nodeName == resized.nodeName
    requires SameFixedFields(pod, resized) && R.PodResource(pod) != R.PodResource(resized)
    ensures var events := [PodAdded(pod), NodeUpdated(node), PodUpdated(resized), NodeAnswered(true)] + [PodUpdated(resized)];
            var end := RunAll(START, events);
            && LegalRun(START, events)
            && end.shim.core == map[pod.uid := AllocationOf(pod)]
            && end.shim.cache.pods == map[pod.uid := resized]
            && !AgreesWithCache(end)
  {
    ResizedAnswered(pod, resized, node);
    var events := [PodAdded(pod), NodeUpdated(node), PodUpdated(resized), NodeAnswered(true)];
    RunFour(START, PodAdded(pod), NodeUpdated(node), PodUpdated(resized), NodeAnswered(true));
    RunOne(START, events, PodUpdated(resized));
    SentAgain(RunAll(START, events), resized);
    DisagreesAt(RunAll(START, events + [PodUpdated(resized)]), pod.uid);
  }

  /** An object that was sent before only reaches the cache. */
  lemma SentAgain(w: World, pod: Pod)
    requires w.seen == map[pod.uid := pod] && Occupies(pod) && w.shim.cache.pods.Keys == {pod.uid} && w.open == None
    ensures var w' := Step(w, PodUpdated(pod));
            w'.shim.core == w.shim.core && w'.shim.cache.pods == map[pod.uid := pod] && w'.open == None
  {
    OneEntry(w.shim.cache.pods, pod.uid, pod);
    assert w.shim.cache.pods[pod.uid := pod] == w.shim.cache.pods + map[pod.uid := pod];
  }

  lemma DisagreesAt(w: World, uid: string)
    requires w.open == None && uid in w.shim.core && uid in w.shim.cache.pods && w.shim.cache.pods[uid].foreign
    requires w.shim.core[uid] != AllocationOf(w.shim.cache.pods[uid])
    ensures !AgreesWithCache(w)
  {
    assert uid in w.shim.core - Unreported(w) && (w.shim.core - Unreported(w))[uid] == w.shim.core[uid];
  }
}
