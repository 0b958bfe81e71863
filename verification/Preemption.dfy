/**
 The predicate manager's search for the pods that must go before a pod fits a node. A plugin is a
 deterministic function of the pod, the node and the pods on it; the order of those does not matter to it.
 */
module Preemption {
  import opened Options
  import opened Kubernetes
  import opened NodeInfos

  datatype Status = Success | Skip | Failure

  /** eligible names the nodes that the plugin leaves to choose from; none means all. */
  datatype PreFilterResult = PreFilterResult(eligible: Option<set<string>>, status: Status)

  datatype Plugin = Plugin(name: string, preFilter: Pod -> PreFilterResult, filter: (Pod, Node, set<Pod>) -> bool)

  ghost predicate PassesPreFilter(plugin: Plugin, pod: Pod, node: string) {
    var r := plugin.preFilter(pod);
    r.status != Failure && (r.eligible.Some? ==> node in r.eligible.value)
  }

  ghost function Skipped(plugins: seq<Plugin>, pod: Pod): set<string> {
    set i | 0 <= i < |plugins| && plugins[i].preFilter(pod).status == Skip :: plugins[i].name
  }

  /** The node must be left by every plugin; those that have nothing to check are skipped later. */
  method RunPreFilterPlugins(plugins: seq<Plugin>, pod: Pod, node: string) returns (ok: bool, skip: set<string>)
    ensures ok <==> forall plugin :: plugin in plugins ==> PassesPreFilter(plugin, pod, node)
    ensures ok ==> skip == Skipped(plugins, pod)
  {
    skip := {};
    var merged: Option<set<string>> := None;
    for i := 0 to |plugins|
      invariant forall plugin :: plugin in plugins[..i] ==> PassesPreFilter(plugin, pod, node)
      invariant merged.Some? ==> node in merged.value
      invariant skip == Skipped(plugins[..i], pod)
    {
      assert plugins[i] in plugins;
      assert plugins[..i + 1] == plugins[..i] + [plugins[i]];
      SkippedStep(plugins, i, pod);
      var r := plugins[i].preFilter(pod);
      if r.status == Skip {
        skip := skip + {plugins[i].name};
      } else if r.status != Success {
        return false, skip;
      }
      merged := if merged.None? then r.eligible
                else if r.eligible.None? then merged
                else Some(merged.value * r.eligible.value);
      if merged.Some? && node !in merged.value {
        return false, skip;
      }
    }
    assert plugins[..|plugins|] == plugins;
    ok := true;
  }

  lemma SkippedStep(plugins: seq<Plugin>, i: nat, pod: Pod)
    requires i < |plugins|
    ensures Skipped(plugins[..i + 1], pod)
         == Skipped(plugins[..i], pod) + if plugins[i].preFilter(pod).status == Skip then {plugins[i].name} else {}
  {
    var before, after := plugins[..i], plugins[..i + 1];
    forall name | name in Skipped(after, pod)
      ensures name in Skipped(before, pod) + if plugins[i].preFilter(pod).status == Skip then {plugins[i].name} else {}
    {
      var k :| 0 <= k < |after| && after[k].preFilter(pod).status == Skip && after[k].name == name;
      if k < i { assert before[k] == after[k]; }
    }
    forall name | name in Skipped(before, pod) ensures name in Skipped(after, pod) {
      var k :| 0 <= k < |before| && before[k].preFilter(pod).status == Skip && before[k].name == name;
      assert after[k] == before[k];
    }
    if plugins[i].preFilter(pod).status == Skip { assert after[i].name in Skipped(after, pod); }
  }

  /** Every plugin that is not skipped lets the pod on the node. */
  ghost predicate Fits(plugins: seq<Plugin>, skip: set<string>, pod: Pod, node: Node, pods: set<Pod>) {
    forall i :: 0 <= i < |plugins| && plugins[i].name !in skip ==> plugins[i].filter(pod, node, pods)
  }

  method RunFilterPlugins(plugins: seq<Plugin>, skip: set<string>, pod: Pod, info: NodeInfo) returns (ok: bool)
    ensures ok <==> Fits(plugins, skip, pod, info.node, set p | p in info.pods)
  {
    for i := 0 to |plugins|
      invariant forall j :: 0 <= j < i && plugins[j].name !in skip ==>
                  plugins[j].filter(pod, info.node, set p | p in info.pods)
    {
      if plugins[i].name !in skip {
        if !plugins[i].filter(pod, info.node, set p | p in info.pods) {
          return false;
        }
      }
    }
    return true;
  }

  // ---------------------------------------------------------------------------------------------
  // The search

  ghost predicate IsVictim(victims: seq<Option<Pod>>, uid: string) {
    uid != "" && exists i :: 0 <= i < |victims| && victims[i].Some? && victims[i].value.uid == uid
  }

  /** The pods that stay when these victims go. Missing victims and victims that are not there do not matter. */
  ghost function Remaining(pods: seq<Pod>, victims: seq<Option<Pod>>): set<Pod> {
    set pod | pod in pods && !IsVictim(victims, pod.uid)
  }

  method RemovePodFromNodeNoFail(info: NodeInfo, victim: Option<Pod>)
    modifies info`pods
    ensures info.pods == if victim.None? then old(info.pods) else Without(old(info.pods), victim.value.uid)
  {
    if victim.None? {
      return;
    }
    var _ := info.RemovePod(victim.value);
  }

  /** The list after the first n victims are gone. */
  ghost function Left(pods: seq<Pod>, victims: seq<Option<Pod>>, n: nat): seq<Pod>
    requires n <= |victims|
  {
    if n == 0 then pods
    else
      var before := Left(pods, victims, n - 1);
      if victims[n - 1].None? then before else Without(before, victims[n - 1].value.uid)
  }

  lemma {:induction false} LeftIsRemaining(pods: seq<Pod>, victims: seq<Option<Pod>>, n: nat)
    requires Distinct(pods) && n <= |victims|
    ensures Distinct(Left(pods, victims, n))
    ensures (set p | p in Left(pods, victims, n)) == Remaining(pods, victims[..n])
  {
    if n > 0 {
      var before := Left(pods, victims, n - 1);
      LeftIsRemaining(pods, victims, n - 1);
      var v := victims[n - 1];
      if v.Some? && v.value.uid != "" { WithoutMembers(before, v.value.uid); }
      forall uid ensures IsVictim(victims[..n], uid)
                    <==> IsVictim(victims[..n - 1], uid) || (uid != "" && v.Some? && v.value.uid == uid)
      {
        VictimStep(victims, n, uid);
      }
      forall p ensures p in Left(pods, victims, n) <==> p in Remaining(pods, victims[..n]) {
        assert p in before <==> p in Remaining(pods, victims[..n - 1]);
      }
    }
  }

  lemma VictimStep(victims: seq<Option<Pod>>, n: nat, uid: string)
    requires 0 < n <= |victims|
    ensures IsVictim(victims[..n], uid)
       <==> IsVictim(victims[..n - 1], uid) || (uid != "" && victims[n - 1].Some? && victims[n - 1].value.uid == uid)
  {
    var all, before := victims[..n], victims[..n - 1];
    assert forall i :: 0 <= i < n - 1 ==> all[i] == before[i];
    assert all[n - 1] == victims[n - 1];
  }

  /** The pod fits once the first n victims are gone. */
  ghost predicate FitsWithout(filters: seq<Plugin>, skip: set<string>, pod: Pod, node: Node, pods: seq<Pod>,
                              victims: seq<Option<Pod>>, n: nat) {
    n <= |victims| && Fits(filters, skip, pod, node, Remaining(pods, victims[..n]))
  }

  ghost predicate NoneFits(filters: seq<Plugin>, skip: set<string>, pod: Pod, node: Node, pods: seq<Pod>,
                           victims: seq<Option<Pod>>, from: nat, upTo: nat) {
    forall n: nat :: from < n <= upTo ==> !FitsWithout(filters, skip, pod, node, pods, victims, n)
  }

  lemma OneMoreFails(filters: seq<Plugin>, skip: set<string>, pod: Pod, node: Node, pods: seq<Pod>,
                     victims: seq<Option<Pod>>, from: nat, i: nat)
    requires NoneFits(filters, skip, pod, node, pods, victims, from, i)
    requires !FitsWithout(filters, skip, pod, node, pods, victims, i + 1)
    ensures NoneFits(filters, skip, pod, node, pods, victims, from, i + 1)
  {
  }

  lemma AllFail(filters: seq<Plugin>, skip: set<string>, pod: Pod, node: Node, pods: seq<Pod>,
                victims: seq<Option<Pod>>, from: nat, upTo: nat)
    requires NoneFits(filters, skip, pod, node, pods, victims, from, upTo) && |victims| <= upTo
    ensures forall n: nat :: from < n ==> !FitsWithout(filters, skip, pod, node, pods, victims, n)
  {
  }

  /** Removes the victims that must go in any case. */
  method RemoveRequired(info: NodeInfo, victims: seq<Option<Pod>>, startIndex: nat)
    modifies info`pods
    ensures startIndex <= |victims| ==> info.pods == Left(old(info.pods), victims, startIndex)
  {
    var i := 0;
    while i < startIndex && i < |victims|
      invariant i <= startIndex && i <= |victims|
      invariant info.pods == Left(old(info.pods), victims, i)
    {
      RemovePodFromNodeNoFail(info, victims[i]);
      i := i + 1;
    }
  }

  method TryVictim(filters: seq<Plugin>, skip: set<string>, pod: Pod, info: NodeInfo, victims: seq<Option<Pod>>,
                   i: nat, ghost pods: seq<Pod>)
    returns (fits: bool)
    requires i < |victims| && Distinct(pods) && info.pods == Left(pods, victims, i)
    modifies info`pods
    ensures info.pods == Left(pods, victims, i + 1)
    ensures fits <==> FitsWithout(filters, skip, pod, info.node, pods, victims, i + 1)
  {
    RemovePodFromNodeNoFail(info, victims[i]);
    LeftIsRemaining(pods, victims, i + 1);
    fits := RunFilterPlugins(filters, skip, pod, info);
  }

  method Search(filters: seq<Plugin>, skip: set<string>, pod: Pod, info: NodeInfo, victims: seq<Option<Pod>>,
                startIndex: nat, ghost pods: seq<Pod>)
    returns (index: int)
    requires Distinct(pods) && (startIndex <= |victims| ==> info.pods == Left(pods, victims, startIndex))
    modifies info`pods
    ensures index == -1 || startIndex <= index < |victims|
    ensures index >= 0 ==> FitsWithout(filters, skip, pod, info.node, pods, victims, index + 1)
    ensures forall n: nat :: startIndex < n && (index >= 0 ==> n <= index) ==>
              !FitsWithout(filters, skip, pod, info.node, pods, victims, n)
  {
    var end := if startIndex < |victims| then |victims| else startIndex;
    for i := startIndex to end
      invariant i <= |victims| ==> info.pods == Left(pods, victims, i)
      invariant NoneFits(filters, skip, pod, info.node, pods, victims, startIndex, i)
    {
      var fits := TryVictim(filters, skip, pod, info, victims, i, pods);
      if fits {
        return i;
      }
      OneMoreFails(filters, skip, pod, info.node, pods, victims, startIndex, i);
    }
    AllFail(filters, skip, pod, info.node, pods, victims, startIndex, end);
    return -1;
  }

  /** Finds the first victim, from the given one on, with whose removal the pod fits: the least such index, or -1 if there is
      none or a prefilter fails. The node itself stays as it is. */
  method PreemptionPredicates(preFilters: seq<Plugin>, filters: seq<Plugin>, pod: Pod, info: NodeInfo,
                              victims: seq<Option<Pod>>, startIndex: nat)
    returns (index: int)
    requires Distinct(info.pods)
    ensures index == -1 || startIndex <= index < |victims|
    ensures index >= 0 ==>
              && (forall plugin :: plugin in preFilters ==> PassesPreFilter(plugin, pod, info.node.name))
              && FitsWithout(filters, Skipped(preFilters, pod), pod, info.node, info.pods, victims, index + 1)
    ensures (forall plugin :: plugin in preFilters ==> PassesPreFilter(plugin, pod, info.node.name)) ==>
              forall n: nat :: startIndex < n && (index >= 0 ==> n <= index) ==>
                !FitsWithout(filters, Skipped(preFilters, pod), pod, info.node, info.pods, victims, n)
  {
    var ok, skip := RunPreFilterPlugins(preFilters, pod, info.node.name);
    if !ok {
      return -1;
    }
    var preempting := info.Snapshot();
    RemoveRequired(preempting, victims, startIndex);
    index := Search(filters, skip, pod, preempting, victims, startIndex, info.pods);
    assert skip == Skipped(preFilters, pod) && preempting.node == info.node;
  }
}
