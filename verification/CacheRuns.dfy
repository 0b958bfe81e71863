/**
 Properties of whole runs of the cache: what assuming, forgetting, removing and restoring undo,
 and why an assumed pod keeps its node.
 */
module CacheRuns {
  import opened Options
  import opened Kubernetes
  import opened CacheModel

  /** The calls the context makes on the cache. Assume and Forget name a pod by its UID. */
  datatype Event =
    | NodeUpdated(node: Node)
    | NodeRemoved(name: string)
    | PodUpdated(pod: Pod)
    | PodRemoved(uid: string)
    | Assume(uid: string, name: string, allBound: bool)
    | Forget(uid: string)

  /** Assuming an unknown pod, or a pod on an unknown node, does nothing. */
  function Apply(m: Model, e: Event): Model {
    match e
    case NodeUpdated(node) => UpdateNode(m, node)
    case NodeRemoved(name) => RemoveNode(m, name)
    case PodUpdated(pod) => UpdatePod(m, pod)
    case PodRemoved(uid) => RemovePod(m, uid)
    case Assume(uid, name, allBound) =>
      if uid in m.pods && name in m.nodes then AssumePod(m, m.pods[uid].(nodeName := name), allBound) else m
    case Forget(uid) =>
      if uid in m.pods then ForgetPod(m, m.pods[uid]) else m
  }

  function Run(m: Model, events: seq<Event>): Model {
    if events == [] then m else Apply(Run(m, events[..|events| - 1]), events[|events| - 1])
  }

  ghost predicate WellFormed(m: Model) {
    && "" !in m.nodes
    && (forall uid :: uid in m.pods ==> m.pods[uid].uid == uid && !IsTerminated(m.pods[uid]))
  }

  predicate NodeHasName(e: Event) {
    e.NodeUpdated? ==> e.node.name != ""
  }

  lemma WellFormedStep(m: Model, e: Event)
    requires WellFormed(m) && NodeHasName(e)
    ensures WellFormed(Apply(m, e))
  {
  }

  /** Every assumed pod is placed on a known node. */
  ghost predicate AssumedArePlaced(m: Model) {
    forall uid :: uid in m.assumed ==> Assigned(m, uid)
  }

  /** The one kind of event that leaves an assumed pod without a known node. */
  predicate MovesAssumedPodAway(m: Model, e: Event) {
    && e.PodUpdated?
    && e.pod.uid in m.assumed
    && e.pod.phase !in {Running, Succeeded, Failed}
    && IsAssigned(e.pod)
    && e.pod.nodeName !in m.nodes
  }

  /** Exactly when a step keeps all assumed pods placed. */
  lemma AssumedStep(m: Model, e: Event)
    requires WellFormed(m) && NodeHasName(e) && AssumedArePlaced(m)
    ensures AssumedArePlaced(Apply(m, e)) <==> !MovesAssumedPodAway(m, e)
  {
    var m' := Apply(m, e);
    match e
    case PodUpdated(pod) =>
      assert forall uid :: uid in m.assumed && uid != pod.uid ==> (Assigned(m', uid) <==> Assigned(m, uid));
      if MovesAssumedPodAway(m, e) {
        assert pod.uid in m'.assumed && !Assigned(m', pod.uid);
      }
    case NodeRemoved(name) =>
      forall uid | uid in m'.assumed ensures Assigned(m', uid) {
        assert uid !in OnNode(m, name);
      }
    case _ =>
  }

  /** Over any run in which no update moves an assumed pod to an unknown node, assumed pods stay placed. */
  lemma {:induction false} AssumedStayPlaced(m: Model, events: seq<Event>)
    requires WellFormed(m) && AssumedArePlaced(m)
    requires forall e :: e in events ==> NodeHasName(e)
    requires forall i :: 0 <= i < |events| ==> !MovesAssumedPodAway(Run(m, events[..i]), events[i])
    ensures WellFormed(Run(m, events)) && AssumedArePlaced(Run(m, events))
  {
    if events != [] {
      var init, last := events[..|events| - 1], events[|events| - 1];
      forall i | 0 <= i < |init| ensures init[..i] == events[..i] && init[i] == events[i] {}
      AssumedStayPlaced(m, init);
      assert last in events;
      WellFormedStep(Run(m, init), last);
      AssumedStep(Run(m, init), last);
    }
  }

  /** An informer update that was sent before the pod got its node. */
  predicate Stale(e: Event, uid: string) {
    e.PodUpdated? && e.pod.uid == uid && !IsAssigned(e.pod) && !IsRunning(e.pod) && !IsTerminated(e.pod)
  }

  /** Events about other pods and other nodes, and stale updates of this pod. */
  predicate Unrelated(e: Event, uid: string, name: string) {
    match e
    case NodeUpdated(_) => true
    case NodeRemoved(n) => n != name
    case PodUpdated(pod) => pod.uid != uid || Stale(e, uid)
    case PodRemoved(u) => u != uid
    case Assume(u, _, _) => u != uid
    case Forget(u) => u != uid
  }

  ghost predicate HeldOn(m: Model, uid: string, name: string) {
    Assigned(m, uid) && m.pods[uid].nodeName == name && uid in m.assumed
  }

  lemma UnrelatedKeepsNode(m: Model, e: Event, uid: string, name: string)
    requires WellFormed(m) && NodeHasName(e) && Unrelated(e, uid, name)
    requires HeldOn(m, uid, name) && !IsRunning(m.pods[uid])
    ensures HeldOn(Apply(m, e), uid, name) && !IsRunning(Apply(m, e).pods[uid])
    ensures Apply(m, e).assumed[uid] == m.assumed[uid]
  {
    if e.NodeRemoved? {
      assert uid !in OnNode(m, e.name);
    }
  }

  /** Stale updates never drop or move the assignment of an assumed pod. */
  lemma {:induction false} StaleUpdatesKeepNode(m: Model, events: seq<Event>, uid: string, name: string)
    requires WellFormed(m) && HeldOn(m, uid, name) && !IsRunning(m.pods[uid])
    requires forall e :: e in events ==> NodeHasName(e) && Unrelated(e, uid, name)
    ensures WellFormed(Run(m, events))
    ensures HeldOn(Run(m, events), uid, name) && !IsRunning(Run(m, events).pods[uid])
    ensures Run(m, events).assumed[uid] == m.assumed[uid]
  {
    if events != [] {
      var init, last := events[..|events| - 1], events[|events| - 1];
      StaleUpdatesKeepNode(m, init, uid, name);
      assert last in events;
      WellFormedStep(Run(m, init), last);
      UnrelatedKeepsNode(Run(m, init), last, uid, name);
    }
  }

  /** Until it is bound, the binder is told of an assumed pod's volumes what was found when it was assumed. */
  lemma VolumesAsAssumed(m: Model, events: seq<Event>, uid: string, name: string, allBound: bool)
    requires WellFormed(m) && uid in m.pods && name in m.nodes && !IsRunning(m.pods[uid])
    requires forall e :: e in events ==> NodeHasName(e) && Unrelated(e, uid, name)
    ensures var end := Run(Apply(m, Assume(uid, name, allBound)), events);
            HeldOn(end, uid, name) && VolumesBound(end, uid) == allBound
  {
    var assumed := Apply(m, Assume(uid, name, allBound));
    WellFormedStep(m, Assume(uid, name, allBound));
    assert HeldOn(assumed, uid, name) && assumed.assumed[uid] == allBound;
    StaleUpdatesKeepNode(assumed, events, uid, name);
  }

  /** A node name that is sent is taken; without one only an assumed pod keeps its node. Nothing else of the pod depends
      on what was cached before, and no other pod is touched. */
  lemma SentNodeWins(m: Model, pod: Pod, uid: string)
    requires WellFormed(m) && !IsTerminated(pod)
    ensures var m' := Apply(m, PodUpdated(pod));
            && m'.nodes == m.nodes && pod.uid in m'.pods && m'.pods[pod.uid].(nodeName := pod.nodeName) == pod
            && (IsAssigned(pod) ==> m'.pods[pod.uid].nodeName == pod.nodeName)
            && (!IsAssigned(pod) ==>
                  forall name :: name != "" ==> (m'.pods[pod.uid].nodeName == name <==> HeldOn(m, pod.uid, name)))
            && (uid != pod.uid ==> (uid in m'.pods <==> uid in m.pods) && (uid in m'.assumed <==> uid in m.assumed))
            && (uid != pod.uid && uid in m.pods ==> m'.pods[uid] == m.pods[uid])
  {
  }

  lemma SettledStep(m: Model, e: Event, uid: string)
    requires WellFormed(m) && NodeHasName(e) && uid !in m.assumed && !(e.Assume? && e.uid == uid)
    ensures uid !in Apply(m, e).assumed
  {
  }

  /** A pod that was seen running is no longer assumed, until it is assumed again. */
  lemma {:induction false} RunningIsSettled(m: Model, pod: Pod, events: seq<Event>)
    requires WellFormed(m) && IsRunning(pod)
    requires forall e :: e in events ==> NodeHasName(e) && !(e.Assume? && e.uid == pod.uid)
    ensures var end := Run(Apply(m, PodUpdated(pod)), events);
            WellFormed(end) && pod.uid !in end.assumed
  {
    if events == [] {
      WellFormedStep(m, PodUpdated(pod));
    } else {
      var init, last := events[..|events| - 1], events[|events| - 1];
      RunningIsSettled(m, pod, init);
      assert last in events;
      var before := Run(Apply(m, PodUpdated(pod)), init);
      WellFormedStep(before, last);
      SettledStep(before, last, pod.uid);
    }
  }

  /** The pod ends or is removed. */
  predicate Ends(e: Event, uid: string) {
    e == PodRemoved(uid) || (e.PodUpdated? && e.pod.uid == uid && IsTerminated(e.pod))
  }

  lemma GoneStep(m: Model, e: Event, uid: string)
    requires WellFormed(m) && NodeHasName(e) && !(e.PodUpdated? && e.pod.uid == uid)
    requires uid !in m.pods && uid !in m.assumed
    ensures uid !in Apply(m, e).pods && uid !in Apply(m, e).assumed
  {
  }

  /** A pod that ended or was removed is gone, with its assumption, until it is sent again. */
  lemma {:induction false} EndedIsGone(m: Model, end: Event, uid: string, events: seq<Event>)
    requires WellFormed(m) && Ends(end, uid)
    requires forall e :: e in events ==> NodeHasName(e) && !(e.PodUpdated? && e.pod.uid == uid)
    ensures var after := Run(Apply(m, end), events);
            WellFormed(after) && uid !in after.pods && uid !in after.assumed
  {
    if events == [] {
      WellFormedStep(m, end);
    } else {
      var init, last := events[..|events| - 1], events[|events| - 1];
      EndedIsGone(m, end, uid, init);
      assert last in events;
      WellFormedStep(Run(Apply(m, end), init), last);
      GoneStep(Run(Apply(m, end), init), last, uid);
    }
  }

  /** Each of these pods is sent again as it is cached. */
  function Resent(m: Model, uids: seq<string>): seq<Event>
    requires forall uid :: uid in uids ==> uid in m.pods
  {
    seq(|uids|, i requires 0 <= i < |uids| => PodUpdated(m.pods[uids[i]]))
  }

  lemma ResentStep(m: Model, pod: Pod)
    requires pod.uid in m.pods && m.pods[pod.uid] == pod && IsAssigned(pod) && !IsTerminated(pod)
    ensures Apply(m, PodUpdated(pod)) == m.(assumed := if IsRunning(pod) then m.assumed - {pod.uid} else m.assumed)
  {
    assert m.pods[pod.uid := pod] == m.pods;
  }

  function RunningAmong(m: Model, uids: seq<string>): set<string> {
    set uid | uid in uids && uid in m.pods && IsRunning(m.pods[uid])
  }

  lemma DropOneMore(assumed: map<string, bool>, m: Model, uids: seq<string>, uid: string)
    requires uid in m.pods
    ensures var before := assumed - RunningAmong(m, uids);
            assumed - RunningAmong(m, uids + [uid]) == if IsRunning(m.pods[uid]) then before - {uid} else before
  {
    assert RunningAmong(m, uids + [uid]) == RunningAmong(m, uids) + if IsRunning(m.pods[uid]) then {uid} else {};
  }

  lemma {:induction false} ResentRun(m: Model, uids: seq<string>)
    requires WellFormed(m) && forall uid :: uid in uids ==> uid in m.pods && IsAssigned(m.pods[uid])
    ensures Run(m, Resent(m, uids)) == m.(assumed := m.assumed - RunningAmong(m, uids))
  {
    if uids == [] {
      assert m.assumed - {} == m.assumed;
    } else {
      var init, last := uids[..|uids| - 1], uids[|uids| - 1];
      assert uids == init + [last] && last in uids;
      assert Resent(m, uids)[..|init|] == Resent(m, init);
      ResentRun(m, init);
      ResentStep(Run(m, Resent(m, init)), m.pods[last]);
      DropOneMore(m.assumed, m, init, last);
    }
  }

  /** A node that appears is no more than the node itself and an update of each pod that waited for it, in any order. */
  lemma AdoptingIsUpdating(m: Model, node: Node, uids: seq<string>)
    requires WellFormed(m) && node.name != "" && forall uid :: uid in uids <==> uid in Waiting(m, node.name)
    ensures Apply(m, NodeUpdated(node)) == Run(m.(nodes := m.nodes[node.name := node]), Resent(m, uids))
  {
    var known := m.(nodes := m.nodes[node.name := node]);
    assert Resent(m, uids) == Resent(known, uids);
    ResentRun(known, uids);
    assert RunningAmong(m, uids) == set uid | uid in Waiting(m, node.name) && IsRunning(m.pods[uid]);
  }

  lemma UnrelatedKeepsPending(m: Model, e: Event, uid: string, name: string)
    requires WellFormed(m) && NodeHasName(e) && (Unrelated(e, uid, name) || e.NodeRemoved?)
    requires Unplaced(m, uid) && uid !in m.assumed
    ensures Unplaced(Apply(m, e), uid) && uid !in Apply(m, e).assumed
  {
  }

  /** Stale updates never bring the assignment back once the pod is forgotten, whatever happens to the nodes. */
  lemma {:induction false} StaleUpdatesDoNotRestore(m: Model, events: seq<Event>, uid: string, name: string)
    requires WellFormed(m) && uid in m.assumed && uid in m.pods
    requires forall e :: e in events ==> NodeHasName(e) && (Unrelated(e, uid, name) || e.NodeRemoved?)
    ensures var end := Run(Apply(m, Forget(uid)), events);
            WellFormed(end) && Unplaced(end, uid) && uid !in end.assumed
  {
    if events == [] {
      WellFormedStep(m, Forget(uid));
    } else {
      var init, last := events[..|events| - 1], events[|events| - 1];
      StaleUpdatesDoNotRestore(m, init, uid, name);
      assert last in events;
      var before := Run(Apply(m, Forget(uid)), init);
      WellFormedStep(before, last);
      UnrelatedKeepsPending(before, last, uid, name);
    }
  }

  /** Assuming a pending pod and forgetting it again restores the cache, exactly when the pod was not assumed before. */
  lemma AssumeThenForget(m: Model, uid: string, name: string, allBound: bool)
    requires WellFormed(m) && Unplaced(m, uid) && name in m.nodes
    ensures HeldOn(Apply(m, Assume(uid, name, allBound)), uid, name)
    ensures Apply(Apply(m, Assume(uid, name, allBound)), Forget(uid)) == m <==> uid !in m.assumed
  {
    var assumed := Apply(m, Assume(uid, name, allBound));
    var back := Apply(assumed, Forget(uid));
    assert back.pods == m.pods;
    assert back.assumed == m.assumed - {uid};
  }

  /** A node that goes away and comes back gets exactly its orphans back; the pods that were only
      assumed on it are pending, and nothing else changes. */
  lemma NodeBounce(m: Model, node: Node)
    requires WellFormed(m) && node.name in m.nodes && m.nodes[node.name] == node
    ensures var back := Apply(Apply(m, NodeRemoved(node.name)), NodeUpdated(node));
            && back.nodes == m.nodes
            && OnNode(back, node.name) == OnNode(m, node.name) - m.assumed.Keys
            && (forall uid :: uid in OnNode(m, node.name) && uid in m.assumed ==> Unplaced(back, uid))
            && (forall uid :: uid in m.pods && uid !in OnNode(m, node.name) ==> uid in back.pods && back.pods[uid] == m.pods[uid])
            && back.pods.Keys == m.pods.Keys
            && back.assumed == m.assumed - OnNode(m, node.name).Keys
    ensures Waiting(Apply(m, NodeRemoved(node.name)), node.name) == OnNode(m, node.name).Keys - m.assumed.Keys
  {
    var gone := Apply(m, NodeRemoved(node.name));
    var back := Apply(gone, NodeUpdated(node));
    var on := OnNode(m, node.name);
    forall uid | uid in m.pods ensures
      Orphaned(gone, uid) && gone.pods[uid].nodeName == node.name <==> uid in on && uid !in m.assumed {}
    assert Waiting(gone, node.name) == on.Keys - m.assumed.Keys;
    assert back.nodes == m.nodes;
    assert back.assumed == m.assumed - on.Keys;
  }
}
