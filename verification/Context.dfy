/**
 The informer handlers of the context: they change the cache and send requests to the core.
 The core's foreign allocations are what the requests, in the order they were sent, amount to.
 */
module Contexts {
  import opened Options
  import opened Kubernetes
  import opened NodeInfos
  import opened SchedulerCaches
  import M = CacheModel
  import C = CacheRuns
  import F = ForeignPods
  import R = Resources

  /** What the core received, and its refusals of a node. */
  datatype Request =
    | Allocate(uid: string, allocation: F.Allocation)
    | Release(uid: string)
    | DecommissionNode(name: string)
    | RefuseNode(name: string)

  function Received(core: map<string, F.Allocation>, request: Request): map<string, F.Allocation> {
    match request
    case Allocate(uid, allocation) => core[uid := allocation]
    case Release(uid) => core - {uid}
    case DecommissionNode(name) => F.Decommission(core, name)
    case RefuseNode(name) => F.Decommission(core, name)
  }

  function Replay(requests: seq<Request>): map<string, F.Allocation> {
    if requests == [] then map[]
    else Received(Replay(requests[..|requests| - 1]), requests[|requests| - 1])
  }

  /** A list of pods as the cache would hold them; a later entry replaces an earlier one. */
  function ByUid(pods: seq<Pod>): map<string, Pod> {
    if pods == [] then map[] else ByUid(pods[..|pods| - 1])[pods[|pods| - 1].uid := pods[|pods| - 1]]
  }

  lemma {:induction false} ByUidMembers(pods: seq<Pod>, uid: string)
    requires Distinct(pods)
    ensures uid in ByUid(pods) ==> ByUid(pods)[uid] in pods && ByUid(pods)[uid].uid == uid
    ensures forall pod :: pod in pods && pod.uid == uid ==> uid in ByUid(pods) && ByUid(pods)[uid] == pod
  {
    if pods != [] {
      var init, last := pods[..|pods| - 1], pods[|pods| - 1];
      assert pods == init + [last];
      ByUidMembers(init, uid);
    }
  }

  /** The list that the cache returns for a new node holds exactly the pods that wait for it. */
  lemma CollectedByUid(m: M.Model, name: string, adopted: seq<Pod>)
    requires Collected(adopted, m.pods, M.Waiting(m, name)) && C.WellFormed(m)
    ensures ByUid(adopted) == F.Adopted(m, name)
  {
    forall uid ensures uid in ByUid(adopted) <==> uid in F.Adopted(m, name)
               ensures uid in ByUid(adopted) ==> ByUid(adopted)[uid] == F.Adopted(m, name)[uid]
    {
      ByUidMembers(adopted, uid);
      if uid in F.Adopted(m, name) { assert m.pods[uid] in adopted; }
    }
  }

  /** The API server never changes these fields. */
  predicate Fits(pods: map<string, Pod>, pod: Pod) {
    pod.uid in pods ==> SameFixedFields(pods[pod.uid], pod)
  }

  predicate Reportable(pod: Pod) {
    IsAssigned(pod) && !IsTerminated(pod) && pod.uid != ""
  }

  lemma RunningStep(assumed: map<string, bool>, adopted: map<string, Pod>, pod: Pod)
    requires pod.uid !in adopted
    ensures assumed - F.RunningOf(adopted[pod.uid := pod])
         == if IsRunning(pod) then assumed - F.RunningOf(adopted) - {pod.uid} else assumed - F.RunningOf(adopted)
  {
    assert F.RunningOf(adopted[pod.uid := pod]) == F.RunningOf(adopted) + if IsRunning(pod) then {pod.uid} else {};
  }

  lemma ReportsStep(adopted: map<string, Pod>, nodes: set<string>, pod: Pod)
    requires pod.uid !in adopted
    ensures F.Reports(adopted[pod.uid := pod], nodes)
         == if pod.foreign && pod.nodeName in nodes then F.Reports(adopted, nodes)[pod.uid := F.AllocationOf(pod)]
            else F.Reports(adopted, nodes)
  {
  }

  lemma OverrideStep<T>(left: map<string, T>, right: map<string, T>, key: string, v: T)
    ensures left + right[key := v] == (left + right)[key := v]
  {
  }

  /** Handling one more adopted pod. */
  lemma ReadoptStep(s: F.Shim, adopted: map<string, Pod>, pod: Pod)
    requires Reportable(pod) && pod.uid !in adopted
    ensures F.UpdatePod(F.Readopt(s, adopted), None, pod) == F.Readopt(s, adopted[pod.uid := pod])
  {
    OverrideStep(s.cache.pods, adopted, pod.uid, pod);
    RunningStep(s.cache.assumed, adopted, pod);
    ReportsStep(adopted, s.cache.nodes.Keys, pod);
    OverrideStep(s.core, F.Reports(adopted, s.cache.nodes.Keys), pod.uid, F.AllocationOf(pod));
  }

  lemma ReadoptNone(s: F.Shim)
    ensures F.Readopt(s, map[]) == s
  {
    assert F.Readopt(s, map[]).cache.assumed == s.cache.assumed;
  }

  lemma AssumeKnown(m: M.Model, pod: Pod, node: string, allBound: bool)
    requires C.WellFormed(m) && pod.uid in m.pods && m.pods[pod.uid] == pod && node in m.nodes
    ensures C.Apply(m, C.Assume(pod.uid, node, allBound)) == M.AssumePod(m, pod.(nodeName := node), allBound)
    ensures C.WellFormed(M.AssumePod(m, pod.(nodeName := node), allBound))
  {
    C.WellFormedStep(m, C.Assume(pod.uid, node, allBound));
  }

  lemma RemoveUnknownNode(m: M.Model, name: string)
    requires name !in m.nodes
    ensures M.RemoveNode(m, name) == m
  {
    assert M.OnNode(m, name) == map[];
    assert M.RemoveNode(m, name).pods == m.pods;
  }

  lemma NotYetReported(adopted: seq<Pod>, i: nat)
    requires i < |adopted| && Distinct(adopted)
    ensures adopted[i] in adopted && adopted[i].uid !in ByUid(adopted[..i])
    ensures ByUid(adopted[..i + 1]) == ByUid(adopted[..i])[adopted[i].uid := adopted[i]]
  {
    assert adopted[..i + 1][..i] == adopted[..i];
    ByUidMembers(adopted[..i], adopted[i].uid);
  }

  class Context {
    const schedulerCache: SchedulerCache
    var requests: seq<Request>

    ghost function Shim(): F.Shim
      reads this, schedulerCache
    {
      F.Shim(schedulerCache.Model(), Replay(requests))
    }

    ghost predicate Valid()
      reads schedulerCache
    {
      schedulerCache.Valid() && C.WellFormed(schedulerCache.Model())
    }

    constructor ()
      ensures Valid() && fresh(schedulerCache) && Shim() == F.START.shim
    {
      schedulerCache := new SchedulerCache();
      requests := [];
    }

    method Send(request: Request)
      modifies this
      ensures requests == old(requests) + [request]
      ensures Replay(requests) == Received(old(Replay(requests)), request)
    {
      assert (requests + [request])[..|requests|] == requests;
      requests := requests + [request];
    }

    method UpdateForeignPod(prev: Option<Pod>, pod: Pod)
      requires Valid() && pod.uid != ""
      requires Fits(schedulerCache.podsMap, pod)
      modifies this, schedulerCache
      ensures Valid() && Shim() == F.UpdateForeignPod(old(Shim()), prev, pod)
    {
      if IsAssigned(pod) && !IsTerminated(pod) {
        C.WellFormedStep(schedulerCache.Model(), C.PodUpdated(pod));
        NotThere({}, pod.uid);
        var accepted := schedulerCache.UpdatePod(pod, {});
        if accepted && (prev.None? || R.PodResource(prev.value) != R.PodResource(pod)) {
          Send(Allocate(pod.uid, F.AllocationOf(pod)));
        }
      } else if prev.Some? && IsTerminated(pod) {
        var orphaned := schedulerCache.IsPodOrphaned(pod.uid);
        if !orphaned {
          C.WellFormedStep(schedulerCache.Model(), C.PodRemoved(pod.uid));
          schedulerCache.RemovePod(pod);
          Send(Release(pod.uid));
        }
      }
    }

    method UpdateYuniKornPod(pod: Pod)
      requires Valid() && pod.uid != "" && !pod.foreign
      requires Fits(schedulerCache.podsMap, pod)
      modifies schedulerCache
      ensures Valid() && Shim() == F.UpdatePod(old(Shim()), None, pod)
    {
      C.WellFormedStep(schedulerCache.Model(), C.PodUpdated(pod));
      if IsTerminated(pod) {
        schedulerCache.RemovePod(pod);
      } else {
        NotThere({}, pod.uid);
        var _ := schedulerCache.UpdatePod(pod, {});
      }
    }

    method UpdatePod(prev: Option<Pod>, pod: Pod)
      requires Valid() && pod.uid != ""
      requires Fits(schedulerCache.podsMap, pod)
      modifies this, schedulerCache
      ensures Valid() && Shim() == F.UpdatePod(old(Shim()), prev, pod)
    {
      if pod.foreign {
        UpdateForeignPod(if pod.uid in schedulerCache.podsMap then prev else None, pod);
      } else {
        UpdateYuniKornPod(pod);
      }
    }

    method DeletePod(pod: Pod)
      requires Valid()
      requires Fits(schedulerCache.podsMap, pod)
      modifies this, schedulerCache
      ensures Valid() && Shim() == F.DeletePod(old(Shim()), pod)
    {
      C.WellFormedStep(schedulerCache.Model(), C.PodRemoved(pod.uid));
      if pod.foreign {
        Send(Release(pod.uid));
      }
      schedulerCache.RemovePod(pod);
    }

    /** The first half of handling a node: the pods a new node adopts are to be reported once the core has answered. */
    method StartNode(node: Node) returns (adopted: Option<seq<Pod>>)
      requires Valid() && node.name != ""
      modifies schedulerCache
      ensures Valid() && Shim() == old(Shim()).(cache := M.UpdateNode(old(schedulerCache.Model()), node))
      ensures adopted.Some? <==> node.name !in old(schedulerCache.Model().nodes)
      ensures adopted.Some? ==> ByUid(adopted.value) == F.Adopted(old(schedulerCache.Model()), node.name)
    {
      ghost var m := schedulerCache.Model();
      C.WellFormedStep(m, C.NodeUpdated(node));
      var prevNode, pods := schedulerCache.UpdateNode(node);
      if prevNode.Some? {
        return None;
      }
      CollectedByUid(m, node.name, pods);
      return Some(pods);
    }

    /** Reports the adopted pods, in any order. */
    method ReportAdopted(adopted: seq<Pod>)
      requires Valid() && Distinct(adopted)
      requires forall pod :: pod in adopted ==> Reportable(pod) && Fits(schedulerCache.podsMap, pod)
      modifies this, schedulerCache
      ensures Valid() && Shim() == F.Readopt(old(Shim()), ByUid(adopted))
    {
      ReadoptNone(Shim());
      for i := 0 to |adopted|
        invariant Valid() && Shim() == F.Readopt(old(Shim()), ByUid(adopted[..i]))
      {
        var pod := adopted[i];
        NotYetReported(adopted, i);
        ReadoptStep(old(Shim()), ByUid(adopted[..i]), pod);
        if pod.foreign {
          UpdateForeignPod(None, pod);
        } else {
          UpdateYuniKornPod(pod);
        }
      }
      assert adopted[..|adopted|] == adopted;
    }

    /** The second half, with the core's answer. */
    method FinishNode(name: string, adopted: seq<Pod>, accepted: bool)
      requires Valid() && Distinct(adopted)
      requires forall pod :: pod in adopted ==> Reportable(pod) && Fits(schedulerCache.podsMap, pod)
      modifies this, schedulerCache
      ensures Valid() && Shim() == F.FinishNode(old(Shim()), name, ByUid(adopted), accepted)
    {
      if accepted {
        ReportAdopted(adopted);
      } else {
        C.WellFormedStep(schedulerCache.Model(), C.NodeRemoved(name));
        var _, _ := schedulerCache.RemoveNode(name);
        Send(RefuseNode(name));
      }
    }

    method DeleteNode(name: string)
      requires Valid()
      modifies this, schedulerCache
      ensures Valid() && Shim() == F.DeleteNode(old(Shim()), name)
    {
      ghost var m := schedulerCache.Model();
      C.WellFormedStep(m, C.NodeRemoved(name));
      if name !in m.nodes { RemoveUnknownNode(m, name); }
      var prevNode, _ := schedulerCache.RemoveNode(name);
      if prevNode.Some? {
        Send(DecommissionNode(name));
      }
    }

    method PlacePod(pod: Pod, node: string, allBound: bool)
      requires Valid() && pod.uid in schedulerCache.podsMap && schedulerCache.podsMap[pod.uid] == pod
      requires node in schedulerCache.Model().nodes
      modifies schedulerCache
      ensures Valid()
      ensures schedulerCache.Model() == C.Apply(old(schedulerCache.Model()), C.Assume(pod.uid, node, allBound))
    {
      AssumeKnown(schedulerCache.Model(), pod, node, allBound);
      schedulerCache.AssumePod(pod.(nodeName := node), allBound);
    }

    /** volumes says whether all volumes are bound, or that the volume binder failed. */
    method AssumePod(name: string, node: string, volumes: Option<bool>) returns (ok: bool)
      requires Valid()
      modifies schedulerCache
      ensures Valid()
      ensures ok <==> volumes.Some? || name !in old(schedulerCache.podsMap) || node !in old(schedulerCache.nodesMap)
      ensures Shim() == if volumes.Some?
                        then old(Shim()).(cache := C.Apply(old(schedulerCache.Model()), C.Assume(name, node, volumes.value)))
                        else old(Shim())
    {
      NodesOfKeys(schedulerCache.nodesMap);
      if name in schedulerCache.podsMap && node in schedulerCache.nodesMap {
        if volumes.None? {
          return false;
        }
        PlacePod(schedulerCache.podsMap[name], node, volumes.value);
      }
      return true;
    }

    method ForgetPod(name: string)
      requires Valid()
      modifies schedulerCache
      ensures Valid() && Shim() == old(Shim()).(cache := C.Apply(old(schedulerCache.Model()), C.Forget(name)))
    {
      if name in schedulerCache.podsMap {
        C.WellFormedStep(schedulerCache.Model(), C.Forget(name));
        schedulerCache.ForgetPod(schedulerCache.podsMap[name]);
      }
    }
  }
}
