/**
 The Kubernetes framework's NodeInfo, as far as the cache and the predicate manager use it:
 one node and the list of pods placed on it. The affinity sub-lists and the claim reference
 counts, which the framework keeps up to date itself, are functions of that list.
 */
module NodeInfos {
  import opened Options
  import opened Kubernetes

  /** No two entries of the list carry the same UID. */
  ghost predicate Distinct(pods: seq<Pod>) {
    forall i, j :: 0 <= i < j < |pods| ==> pods[i].uid != pods[j].uid
  }

  /** The three node lists the scheduling framework asks for. */
  datatype Kind = AllNodes | PodsWithAffinity | PodsWithReqAntiAffinity

  predicate Matches(pod: Pod, kind: Kind) {
    match kind
    case AllNodes => true
    case PodsWithAffinity => WithAffinity(pod)
    case PodsWithReqAntiAffinity => WithRequiredAntiAffinity(pod)
  }

  /** Whether a node holding these pods belongs on the list. */
  predicate Listed(pods: seq<Pod>, kind: Kind) {
    kind == AllNodes || exists pod :: pod in pods && Matches(pod, kind)
  }

  /** All claims mounted by the pods of the list, with multiplicity. */
  function ClaimsOf(pods: seq<Pod>): multiset<string> {
    if pods == [] then multiset{} else ClaimsOf(pods[..|pods| - 1]) + multiset(pods[|pods| - 1].claims)
  }

  /** The reference counts: a claim without references has no entry. */
  function RefCounts(pods: seq<Pod>): map<string, nat> {
    map c | c in ClaimsOf(pods) :: ClaimsOf(pods)[c]
  }

  /** A claim is counted exactly when some pod of the list mounts it. */
  lemma {:induction false} ClaimsMember(pods: seq<Pod>, claim: string)
    ensures claim in ClaimsOf(pods) <==> exists i :: 0 <= i < |pods| && claim in pods[i].claims
  {
    if pods != [] {
      var init, last := pods[..|pods| - 1], |pods| - 1;
      ClaimsMember(init, claim);
      assert claim in ClaimsOf(pods) <==> claim in ClaimsOf(init) || claim in pods[last].claims;
      assert forall i :: 0 <= i < last ==> init[i] == pods[i];
    }
  }

  /** How often the pods of the list mount a claim. */
  function Mounts(pods: seq<Pod>, claim: string): nat {
    if pods == [] then 0 else Mounts(pods[..|pods| - 1], claim) + multiset(pods[|pods| - 1].claims)[claim]
  }

  /** A node's reference count of a claim is the number of its mounts there. */
  lemma CountedMounts(pods: seq<Pod>, claim: string)
    ensures claim in RefCounts(pods) <==> Mounts(pods, claim) > 0
    ensures claim in RefCounts(pods) ==> RefCounts(pods)[claim] == Mounts(pods, claim)
  {
    MountsAreClaims(pods, claim);
  }

  lemma {:induction false} MountsAreClaims(pods: seq<Pod>, claim: string)
    ensures ClaimsOf(pods)[claim] == Mounts(pods, claim)
  {
    if pods != [] { MountsAreClaims(pods[..|pods| - 1], claim); }
  }

  /** Removal takes the last entry into the hole, so the order of the list changes. */
  function SwapOut(pods: seq<Pod>, i: nat): seq<Pod>
    requires i < |pods|
  {
    pods[i := pods[|pods| - 1]][..|pods| - 1]
  }

  /** The position of the pod with this UID, or -1. */
  function IndexOf(pods: seq<Pod>, uid: string): (i: int)
    ensures -1 <= i < |pods|
    ensures i >= 0 ==> pods[i].uid == uid
    ensures forall j :: 0 <= j < |pods| && (i < 0 || j < i) ==> pods[j].uid != uid
  {
    if pods == [] then -1
    else
      var i := IndexOf(pods[..|pods| - 1], uid);
      if i >= 0 then i
      else if pods[|pods| - 1].uid == uid then |pods| - 1
      else -1
  }

  /** The list after removing the pod with this UID; an unknown or empty UID changes nothing. */
  function Without(pods: seq<Pod>, uid: string): seq<Pod> {
    if uid == "" || IndexOf(pods, uid) < 0 then pods else SwapOut(pods, IndexOf(pods, uid))
  }

  lemma WithoutMembers(pods: seq<Pod>, uid: string)
    requires Distinct(pods) && uid != ""
    ensures Distinct(Without(pods, uid))
    ensures forall pod :: pod in Without(pods, uid) <==> pod in pods && pod.uid != uid
  {
    var i := IndexOf(pods, uid);
    if i >= 0 {
      var rest, last := SwapOut(pods, i), |pods| - 1;
      assert forall j :: 0 <= j < |rest| ==> rest[j] == pods[if j == i then last else j];
      forall j | 0 <= j < |pods| && j != i ensures pods[j] in rest {
        assert rest[if j == last then i else j] == pods[j];
      }
    }
  }

  class NodeInfo {
    var node: Node
    var pods: seq<Pod>

    constructor (node: Node)
      ensures this.node == node && pods == []
    {
      this.node := node;
      pods := [];
    }

    /** Removes the pod with this UID; an unknown or empty UID is an error that changes nothing. */
    method RemovePod(pod: Pod) returns (ok: bool)
      modifies this`pods
      ensures ok <==> pod.uid != "" && exists p :: p in old(pods) && p.uid == pod.uid
      ensures pods == Without(old(pods), pod.uid)
    {
      if pod.uid == "" {
        return false;
      }
      for i := 0 to |pods|
        invariant pods == old(pods)
        invariant forall j :: 0 <= j < i ==> pods[j].uid != pod.uid
      {
        if pods[i].uid == pod.uid {
          assert pods[i] in pods;
          pods := SwapOut(pods, i);
          return true;
        }
      }
      return false;
    }

    /** A deep copy: later changes to either node do not show in the other. */
    method Snapshot() returns (copy: NodeInfo)
      ensures fresh(copy) && copy.node == node && copy.pods == pods
    {
      copy := new NodeInfo(node);
      copy.pods := pods;
    }
  }
}
