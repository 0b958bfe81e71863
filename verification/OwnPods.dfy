/**
 The shim's own pods in its cache.
 */
module OwnPods {
  import opened Options
  import opened Kubernetes
  import opened ForeignPods
  import M = CacheModel
  import C = CacheRuns
  import Runs

  /** One of the shim's own pods that has not ended, going by the API server. */
  predicate Mine(w: World, uid: string) {
    uid in w.seen && !w.seen[uid].foreign && !IsTerminated(w.seen[uid])
  }

  /** The same object but for the node name, which the shim may know before the API server does. */
  predicate SameButNode(a: Pod, b: Pod) {
    a.(nodeName := b.nodeName) == b
  }

  /** The cache holds the pod exactly as long as it has not ended, and as it was last sent. */
  predicate OwnAt(w: World, uid: string) {
    var pods := w.shim.cache.pods;
    && (Mine(w, uid) <==> uid in pods && !pods[uid].foreign)
    && (Mine(w, uid) ==> SameButNode(pods[uid], w.seen[uid]))
  }

  /** A node that was waiting for the core's answer brings back what it adopted, although the pod has changed or ended. */
  predicate Outdates(w: World, e: Event, uid: string) {
    && e == NodeAnswered(true) && uid in Unreported(w) && !w.open.value.adopted[uid].foreign
    && !(Mine(w, uid) && SameButNode(w.open.value.adopted[uid], w.seen[uid]))
  }

  lemma OwnSent(w: World, prev: Option<Pod>, pod: Pod, uid: string)
    requires Follows(w, pod) && InStep(w, uid) && OwnAt(w, uid)
    ensures OwnAt(PodSent(w, prev, pod), uid)
  {
    if uid == pod.uid && !pod.foreign {
    }
  }

  lemma OwnDeleted(w: World, deleted: string, uid: string)
    requires InStep(w, deleted) && InStep(w, uid) && OwnAt(w, uid)
    ensures OwnAt(Step(w, PodDeleted(deleted)), uid)
  {
  }

  lemma OwnNode(w: World, e: Event, uid: string)
    requires InStep(w, uid) && OwnAt(w, uid) && (e.NodeUpdated? || e.NodeDeleted? || e == NodeAnswered(false))
    ensures OwnAt(Step(w, e), uid)
  {
  }

  lemma OwnAccepted(w: World, uid: string)
    requires InStep(w, uid) && OwnAt(w, uid)
    ensures OwnAt(Step(w, NodeAnswered(true)), uid) <==> !Outdates(w, NodeAnswered(true), uid)
  {
  }

  lemma OwnPlacing(w: World, e: Event, uid: string)
    requires (e.Assume? || e.Forget?) && Legal(w, e) && InStep(w, e.uid) && InStep(w, uid) && OwnAt(w, uid)
    ensures OwnAt(Step(w, e), uid)
  {
  }

  /** Exactly when a step leaves the cache with one of the shim's own pods as it is. */
  lemma OwnAtStep(w: World, e: Event, uid: string)
    requires Invariant(w) && Legal(w, e) && OwnAt(w, uid)
    ensures OwnAt(Step(w, e), uid) <==> !Outdates(w, e, uid)
  {
    assert InStep(w, uid);
    match e
    case PodAdded(pod) => OwnSent(w, None, pod, uid);
    case PodUpdated(pod) => if pod.uid in w.seen { OwnSent(w, Some(w.seen[pod.uid]), pod, uid); }
    case PodDeleted(deleted) => assert InStep(w, deleted); OwnDeleted(w, deleted, uid);
    case NodeAnswered(accepted) => if accepted { OwnAccepted(w, uid); } else { OwnNode(w, e, uid); }
    case NodeUpdated(_) => OwnNode(w, e, uid);
    case NodeDeleted(_) => OwnNode(w, e, uid);
    case _ => assert InStep(w, e.uid); OwnPlacing(w, e, uid);
  }

  ghost predicate OwnAfter(events: seq<Event>, i: nat, uid: string)
    requires i <= |events|
  {
    OwnAt(RunAll(START, events[..i]), uid)
  }

  ghost predicate OutdatesAt(events: seq<Event>, i: nat, uid: string)
    requires i < |events|
  {
    Outdates(RunAll(START, events[..i]), events[i], uid)
  }

  lemma OwnOn(events: seq<Event>, i: nat, uid: string)
    requires LegalRun(START, events) && i < |events| && OwnAfter(events, i, uid)
    ensures OwnAfter(events, i + 1, uid) <==> !OutdatesAt(events, i, uid)
  {
    RunStep(events, i);
    OwnAtStep(RunAll(START, events[..i]), events[i], uid);
  }

  /** Over every run: the cache holds each of the shim's own pods exactly from when it is first sent until it ends or is
      deleted, and always as it was last sent but for the node name, exactly when no node brings back an outdated one. */
  lemma CacheHoldsOwnPods(events: seq<Event>, uid: string)
    requires LegalRun(START, events)
    ensures (forall i :: 0 <= i <= |events| ==> OwnAfter(events, i, uid))
       <==> forall i :: 0 <= i < |events| ==> !OutdatesAt(events, i, uid)
  {
    var good := seq(|events| + 1, i requires 0 <= i <= |events| => OwnAfter(events, i, uid));
    var bad := seq(|events|, i requires 0 <= i < |events| => OutdatesAt(events, i, uid));
    assert events[..0] == [];
    forall i | 0 <= i < |bad| && good[i] ensures good[i + 1] <==> !bad[i] { OwnOn(events, i, uid); }
    Runs.Throughout(good, bad);
    forall i | 0 <= i <= |events| ensures good[i] == OwnAfter(events, i, uid) {}
    forall i | 0 <= i < |events| ensures bad[i] == OutdatesAt(events, i, uid) {}
  }

  lemma AdoptedIsCached(w: World, pod: Pod)
    requires w.shim.cache.pods == map[] && w.open.Some? && w.open.value.adopted == map[pod.uid := pod]
    ensures Step(w, NodeAnswered(true)).shim.cache.pods == map[pod.uid := pod]
    ensures Step(w, NodeAnswered(true)).seen == w.seen
  {
  }

  /** The exception is real: any of the shim's own pods that is deleted while its node is being registered stays cached. */
  lemma OwnDeletedWhileRegistering(pod: Pod, node: Node)
    requires !pod.foreign && IsAssigned(pod) && !IsTerminated(pod) && pod.uid != "" && node.name == pod.nodeName
    ensures var events := [PodAdded(pod), NodeUpdated(node), PodDeleted(pod.uid), NodeAnswered(true)];
            && LegalRun(START, events)
            && RunAll(START, events).seen == map[]
            && RunAll(START, events).shim.cache.pods == map[pod.uid := pod]
  {
    OrphanFirst(pod);
    var w1 := Step(START, PodAdded(pod));
    OrphanAppears(w1, pod, node);
    var w2 := Step(w1, NodeUpdated(node));
    var w3 := Step(w2, PodDeleted(pod.uid));
    assert w3.seen == map[] && w3.shim.cache.pods == map[];
    AdoptedIsCached(w3, pod);
    RunFour(START, PodAdded(pod), NodeUpdated(node), PodDeleted(pod.uid), NodeAnswered(true));
  }
}
