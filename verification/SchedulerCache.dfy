/**
 The external scheduler cache: five maps, the claim reference index and three memoised node
 lists, all updated in place, kept in agreement with the model of module CacheModel.
 */
module SchedulerCaches {
  import opened Options
  import opened Kubernetes
  import opened NodeInfos
  import M = CacheModel

  datatype NodeView = NodeView(node: Node, pods: seq<Pod>)

  ghost function NodesOf(nodes: map<string, NodeView>): map<string, Node> {
    map n | n in nodes :: nodes[n].node
  }

  lemma NotThere(keys: set<string>, key: string)
    requires key !in keys
    ensures keys - {key} == keys
  {
  }

  lemma NotKept<T>(kept: map<string, T>, key: string)
    requires key !in kept
    ensures kept - {key} == kept
  {
  }

  lemma NodesOfKeys(nodes: map<string, NodeView>)
    ensures NodesOf(nodes).Keys == nodes.Keys
  {
  }

  lemma NodesOfSame(nodes: map<string, NodeView>, name: string, pods: seq<Pod>)
    requires name in nodes
    ensures NodesOf(nodes[name := nodes[name].(pods := pods)]) == NodesOf(nodes)
  {
  }

  ghost predicate Cached(pods: map<string, Pod>) {
    forall uid :: uid in pods ==> pods[uid].uid == uid && uid != "" && !IsTerminated(pods[uid])
  }

  /** The pods in waiting are still orphans although their node is known: this happens while a
      new node adopts its pods. All other pods are where their node name asks for. */
  predicate OnKnownNode(names: set<string>, waiting: set<string>, pod: Pod) {
    IsAssigned(pod) && pod.nodeName in names && pod.uid !in waiting
  }

  ghost function AssignedIn(names: set<string>, pods: map<string, Pod>, waiting: set<string>): map<string, string> {
    map uid | uid in pods && OnKnownNode(names, waiting, pods[uid]) :: pods[uid].nodeName
  }

  ghost function OrphanedIn(names: set<string>, pods: map<string, Pod>, waiting: set<string>): map<string, Pod> {
    map uid | uid in pods && IsAssigned(pods[uid]) && !OnKnownNode(names, waiting, pods[uid]) :: pods[uid]
  }

  /** The list holds exactly the pods placed on the node, each once. */
  ghost predicate Holds(list: seq<Pod>, pods: map<string, Pod>, waiting: set<string>, name: string) {
    && Distinct(list)
    && (forall pod :: pod in list <==>
          pod.uid in pods && pods[pod.uid] == pod && IsAssigned(pod) && pod.nodeName == name && pod.uid !in waiting)
  }

  ghost predicate AllHold(nodes: map<string, NodeView>, pods: map<string, Pod>, waiting: set<string>) {
    forall n :: n in nodes ==> nodes[n].node.name == n && Holds(nodes[n].pods, pods, waiting, n)
  }

  ghost predicate Placed(nodes: map<string, NodeView>, pods: map<string, Pod>, homes: map<string, string>,
                         orphaned: map<string, Pod>, waiting: set<string>)
  {
    && Cached(pods)
    && homes == AssignedIn(nodes.Keys, pods, waiting)
    && orphaned == OrphanedIn(nodes.Keys, pods, waiting)
    && AllHold(nodes, pods, waiting)
  }

  function Cell(rows: map<string, map<string, nat>>, r: string, c: string): Option<nat> {
    if r in rows && c in rows[r] then Some(rows[r][c]) else None
  }

  /** The index has an entry for a claim and a node exactly when the node counts the claim, and no empty rows. */
  ghost predicate Indexed(index: map<string, map<string, nat>>, counts: map<string, map<string, nat>>) {
    && (forall claim :: claim in index ==> index[claim] != map[])
    && (forall claim, name :: Cell(index, claim, name) == Cell(counts, name, claim))
  }

  /** A node without references and an unknown node look the same to the index. */
  lemma IndexedSame(index: map<string, map<string, nat>>, counts: map<string, map<string, nat>>,
                    counts': map<string, map<string, nat>>)
    requires Indexed(index, counts)
    requires forall name, claim :: Cell(counts, name, claim) == Cell(counts', name, claim)
    ensures Indexed(index, counts')
  {
  }

  function DropCell(index: map<string, map<string, nat>>, claim: string, name: string): map<string, map<string, nat>>
    requires claim in index
  {
    var entry := index[claim] - {name};
    if entry == map[] then index - {claim} else index[claim := entry]
  }

  lemma IndexedDrop(index: map<string, map<string, nat>>, rest: map<string, map<string, nat>>, name: string,
                    row: map<string, nat>, claim: string)
    requires name !in rest && Indexed(index, rest[name := row]) && claim in index
    ensures Indexed(DropCell(index, claim, name), rest[name := row - {claim}])
  {
    var index', counts, counts' := DropCell(index, claim, name), rest[name := row], rest[name := row - {claim}];
    forall c, n ensures Cell(index', c, n) == Cell(counts', n, c) {
      assert Cell(index, c, n) == Cell(counts, n, c);
      assert c == claim && n != name && n in index[c] ==> n in index[claim] - {name};
    }
  }

  lemma IndexedAdd(index: map<string, map<string, nat>>, rest: map<string, map<string, nat>>, name: string,
                   row: map<string, nat>, claim: string, count: nat)
    requires name !in rest && Indexed(index, rest[name := row])
    ensures var entry := if claim in index then index[claim] else map[];
            Indexed(index[claim := entry[name := count]], rest[name := row[claim := count]])
  {
    var entry := (if claim in index then index[claim] else map[])[name := count];
    var index', counts, counts' := index[claim := entry], rest[name := row], rest[name := row[claim := count]];
    assert name in entry;
    forall c, n ensures Cell(index', c, n) == Cell(counts', n, c) {
      assert Cell(index, c, n) == Cell(counts, n, c);
    }
  }

  ghost function Counts(nodes: map<string, NodeView>): map<string, map<string, nat>> {
    map n | n in nodes :: RefCounts(nodes[n].pods)
  }

  lemma CountsWith(nodes: map<string, NodeView>, name: string, v: NodeView)
    ensures Counts(nodes[name := v]) == Counts(nodes)[name := RefCounts(v.pods)]
  {
  }

  lemma CountsAgain(nodes: map<string, NodeView>, name: string)
    requires name in nodes
    ensures Counts(nodes)[name := RefCounts(nodes[name].pods)] == Counts(nodes)
  {
  }

  predicate ListedIn(nodes: map<string, NodeView>, name: string, kind: Kind) {
    name in nodes && Listed(nodes[name].pods, kind)
  }

  /** A memoised list is absent, or names exactly the nodes the scan would find, each once. */
  ghost predicate Memo(list: Option<seq<string>>, nodes: map<string, NodeView>, kind: Kind) {
    list.Some? ==>
      && (forall i, j :: 0 <= i < j < |list.value| ==> list.value[i] != list.value[j])
      && (forall n :: n in list.value <==> ListedIn(nodes, n, kind))
  }

  /** What is computed from the nodes: the claim index and the three lists. */
  ghost predicate Derived(nodes: map<string, NodeView>, index: map<string, map<string, nat>>,
                          all: Option<seq<string>>, affine: Option<seq<string>>, anti: Option<seq<string>>)
  {
    && Indexed(index, Counts(nodes))
    && Memo(all, nodes, AllNodes)
    && Memo(affine, nodes, PodsWithAffinity)
    && Memo(anti, nodes, PodsWithReqAntiAffinity)
  }

  lemma ListedWithout(pods: seq<Pod>, rest: seq<Pod>, pod: Pod, kind: Kind)
    requires forall p :: p in rest <==> p in pods && p.uid != pod.uid
    requires pod in pods && Distinct(pods) && !Matches(pod, kind)
    ensures Listed(rest, kind) <==> Listed(pods, kind)
  {
    if p :| p in pods && Matches(p, kind) {
      var i :| 0 <= i < |pods| && pods[i] == pod;
      var j :| 0 <= j < |pods| && pods[j] == p;
      assert i < j || j < i;
      assert p in rest;
    }
  }

  lemma ListedWith(pods: seq<Pod>, pod: Pod, kind: Kind)
    requires !Matches(pod, kind)
    ensures Listed(pods + [pod], kind) <==> Listed(pods, kind)
  {
    if p :| p in pods && Matches(p, kind) {
      assert p in pods + [pod];
    }
  }

  lemma MapsWithout(names: set<string>, pods: map<string, Pod>, waiting: set<string>, uid: string)
    requires Cached(pods)
    ensures AssignedIn(names, pods, waiting) - {uid} == AssignedIn(names, pods - {uid}, waiting - {uid})
    ensures OrphanedIn(names, pods, waiting) - {uid} == OrphanedIn(names, pods - {uid}, waiting - {uid})
  {
  }

  /** If the pod has its home on a node, it is there. */
  ghost predicate AtHome(nodes: map<string, NodeView>, homes: map<string, string>, pod: Pod) {
    pod.uid in homes ==>
      && homes[pod.uid] in nodes && nodes[homes[pod.uid]].node.name == homes[pod.uid]
      && Distinct(nodes[homes[pod.uid]].pods) && pod in nodes[homes[pod.uid]].pods
  }

  lemma PlacedAtHome(nodes: map<string, NodeView>, pods: map<string, Pod>, homes: map<string, string>,
                     orphaned: map<string, Pod>, waiting: set<string>, uid: string)
    requires Placed(nodes, pods, homes, orphaned, waiting) && uid in pods
    ensures AtHome(nodes, homes, pods[uid]) && pods[uid].uid == uid != ""
  {
  }

  lemma EffectiveAtHome(m: M.Model, nodes: map<string, NodeView>, homes: map<string, string>,
                        orphaned: map<string, Pod>, waiting: set<string>, update: Pod)
    requires Placed(nodes, m.pods, homes, orphaned, waiting) && m.nodes == NodesOf(nodes)
    requires update.uid in waiting ==> IsAssigned(update)
    ensures M.Effective(m, update)
         == if update.nodeName == "" && update.uid in m.assumed && update.uid in homes
            then update.(nodeName := homes[update.uid]) else update
  {
  }

  /** The nodes without a pod that has its home on one of them. */
  ghost function Unhomed(nodes: map<string, NodeView>, homes: map<string, string>, uid: string): map<string, NodeView> {
    if uid in homes && homes[uid] in nodes
    then nodes[homes[uid] := nodes[homes[uid]].(pods := Without(nodes[homes[uid]].pods, uid))]
    else nodes
  }

  /** Taking one pod out of everything leaves the others in place. */
  lemma PlacedWithout(nodes: map<string, NodeView>, pods: map<string, Pod>, homes: map<string, string>,
                      orphaned: map<string, Pod>, waiting: set<string>, uid: string)
    requires Placed(nodes, pods, homes, orphaned, waiting) && uid in pods
    ensures Placed(Unhomed(nodes, homes, uid), pods - {uid}, homes - {uid}, orphaned - {uid}, waiting - {uid})
  {
    MapsWithout(nodes.Keys, pods, waiting, uid);
    if uid in homes {
      var name := homes[uid];
      WithoutMembers(nodes[name].pods, uid);
      assert nodes[name := nodes[name].(pods := Without(nodes[name].pods, uid))].Keys == nodes.Keys;
    }
  }

  lemma MapsWith(names: set<string>, pods: map<string, Pod>, waiting: set<string>, pod: Pod)
    requires Cached(pods) && pod.uid !in pods && pod.uid !in waiting
    ensures AssignedIn(names, pods[pod.uid := pod], waiting)
         == if IsAssigned(pod) && pod.nodeName in names
            then AssignedIn(names, pods, waiting)[pod.uid := pod.nodeName] else AssignedIn(names, pods, waiting)
    ensures OrphanedIn(names, pods[pod.uid := pod], waiting)
         == if IsAssigned(pod) && pod.nodeName !in names
            then OrphanedIn(names, pods, waiting)[pod.uid := pod] else OrphanedIn(names, pods, waiting)
  {
  }

  lemma PlacedOnNode(nodes: map<string, NodeView>, pods: map<string, Pod>, homes: map<string, string>,
                     orphaned: map<string, Pod>, waiting: set<string>, pod: Pod)
    requires Placed(nodes, pods, homes, orphaned, waiting)
    requires pod.uid !in pods && pod.uid != "" && pod.uid !in waiting && !IsTerminated(pod)
    requires IsAssigned(pod) && pod.nodeName in nodes
    ensures Placed(nodes[pod.nodeName := nodes[pod.nodeName].(pods := nodes[pod.nodeName].pods + [pod])],
                   pods[pod.uid := pod], homes[pod.uid := pod.nodeName], orphaned, waiting)
  {
    MapsWith(nodes.Keys, pods, waiting, pod);
    var was := nodes[pod.nodeName].pods;
    assert nodes[pod.nodeName := nodes[pod.nodeName].(pods := was + [pod])].Keys == nodes.Keys;
    forall i | 0 <= i < |was| ensures was[i].uid != pod.uid { assert was[i] in was; }
  }

  lemma PlacedElsewhere(nodes: map<string, NodeView>, pods: map<string, Pod>, homes: map<string, string>,
                        orphaned: map<string, Pod>, waiting: set<string>, pod: Pod)
    requires Placed(nodes, pods, homes, orphaned, waiting)
    requires pod.uid !in pods && pod.uid != "" && pod.uid !in waiting && !IsTerminated(pod)
    requires IsAssigned(pod) ==> pod.nodeName !in nodes
    ensures Placed(nodes, pods[pod.uid := pod], homes,
                   if IsAssigned(pod) then orphaned[pod.uid := pod] else orphaned, waiting)
  {
    MapsWith(nodes.Keys, pods, waiting, pod);
  }

  lemma MemoWithout(list: Option<seq<string>>, nodes: map<string, NodeView>, kind: Kind, name: string, pod: Pod)
    requires Memo(list, nodes, kind) && name in nodes && Distinct(nodes[name].pods) && pod in nodes[name].pods
    requires pod.uid != ""
    ensures Memo(if kind != AllNodes && Matches(pod, kind) then None else list,
                 nodes[name := nodes[name].(pods := Without(nodes[name].pods, pod.uid))], kind)
  {
    WithoutMembers(nodes[name].pods, pod.uid);
    if kind != AllNodes && !Matches(pod, kind) {
      ListedWithout(nodes[name].pods, Without(nodes[name].pods, pod.uid), pod, kind);
    }
  }

  lemma MemoWith(list: Option<seq<string>>, nodes: map<string, NodeView>, kind: Kind, pod: Pod)
    requires Memo(list, nodes, kind) && pod.nodeName in nodes
    ensures Memo(if kind != AllNodes && Matches(pod, kind) then None else list,
                 nodes[pod.nodeName := nodes[pod.nodeName].(pods := nodes[pod.nodeName].pods + [pod])], kind)
  {
    if kind != AllNodes && !Matches(pod, kind) {
      ListedWith(nodes[pod.nodeName].pods, pod, kind);
    }
  }

  ghost function Started(pods: map<string, Pod>, uids: set<string>): set<string> {
    set uid | uid in uids && uid in pods && IsRunning(pods[uid])
  }

  /** The list holds exactly the given pods, each once. */
  ghost predicate Collected(list: seq<Pod>, pods: map<string, Pod>, uids: set<string>) {
    && Distinct(list)
    && (forall pod :: pod in list <==> pod.uid in uids && pod.uid in pods && pods[pod.uid] == pod)
  }

  lemma CollectedWith(list: seq<Pod>, pods: map<string, Pod>, uids: set<string>, pod: Pod)
    requires Collected(list, pods, uids) && pod.uid !in uids && pod.uid in pods && pods[pod.uid] == pod
    ensures Collected(list + [pod], pods, uids + {pod.uid})
  {
    forall i | 0 <= i < |list| ensures list[i].uid != pod.uid { assert list[i] in list; }
  }

  lemma CollectedSame(list: seq<Pod>, names: set<string>, pods: map<string, Pod>, uids: set<string>)
    requires Collected(list, OrphanedIn(names, pods, {}), uids) && uids <= OrphanedIn(names, pods, {}).Keys
    ensures Collected(list, pods, uids)
  {
  }

  lemma AdoptionIsUpdate(m: M.Model, pod: Pod)
    requires pod.uid in m.pods && m.pods[pod.uid] == pod && !IsTerminated(pod) && M.Assigned(m, pod.uid)
    ensures M.UpdatePod(m, pod) == m.(assumed := if IsRunning(pod) then m.assumed - {pod.uid} else m.assumed)
    ensures M.UpdateAccepted(m, pod)
  {
  }

  lemma OrphansWithout(names: set<string>, pods: map<string, Pod>, waiting: set<string>, uid: string)
    requires Cached(pods) && uid in pods && uid in waiting && pods[uid].nodeName in names
    ensures OrphanedIn(names, pods, waiting - {uid}) == OrphanedIn(names, pods, waiting) - {uid}
  {
  }

  lemma NamedWithout(orphaned: map<string, Pod>, name: string, uid: string)
    ensures Named(orphaned - {uid}, name) == Named(orphaned, name) - {uid}
  {
  }

  /** One round of the adoption loop, on the sets it works with. */
  lemma AdoptStep(orphans: map<string, Pod>, assumed: map<string, bool>, name: string, todo: set<string>,
                  done: set<string>, uid: string)
    requires uid in todo && todo <= orphans.Keys && done == Named(orphans, name) - todo
    ensures uid !in done && uid in orphans - done
    ensures var done' := if orphans[uid].nodeName == name then done + {uid} else done;
            && done' == Named(orphans, name) - (todo - {uid})
            && (uid in done' ==> (orphans - done) - {uid} == orphans - done')
            && (uid in done' ==>
                  assumed - Started(orphans, done')
                  == if IsRunning(orphans[uid]) then (assumed - Started(orphans, done)) - {uid}
                     else assumed - Started(orphans, done))
  {
    if orphans[uid].nodeName == name {
      assert Started(orphans, done + {uid})
          == if IsRunning(orphans[uid]) then Started(orphans, done) + {uid} else Started(orphans, done);
    }
  }

  lemma AdoptEnd(orphans: map<string, Pod>, name: string, done: set<string>)
    requires done == Named(orphans, name) - {}
    ensures done == Named(orphans, name) && Named(orphans - done, name) == {}
  {
  }

  /** A node that appears holds nothing yet; its orphans are waiting to be adopted. */
  lemma PlacedNewNode(nodes: map<string, NodeView>, pods: map<string, Pod>, homes: map<string, string>,
                      orphaned: map<string, Pod>, node: Node)
    requires Placed(nodes, pods, homes, orphaned, {}) && node.name !in nodes
    ensures Placed(nodes[node.name := NodeView(node, [])], pods, homes, orphaned, Named(orphaned, node.name))
  {
    var nodes' := nodes[node.name := NodeView(node, [])];
    var waiting := Named(orphaned, node.name);
    assert nodes'.Keys == nodes.Keys + {node.name};
    assert forall uid :: uid in pods ==> (OnKnownNode(nodes'.Keys, waiting, pods[uid]) <==> OnKnownNode(nodes.Keys, {}, pods[uid]));
    forall n | n in nodes' ensures Holds(nodes'[n].pods, pods, waiting, n) {
      if n != node.name {
        assert forall uid :: uid in waiting ==> pods[uid].nodeName == node.name;
      }
    }
  }

  lemma DerivedNewNode(nodes: map<string, NodeView>, index: map<string, map<string, nat>>, affine: Option<seq<string>>,
                       anti: Option<seq<string>>, all: Option<seq<string>>, node: Node)
    requires Derived(nodes, index, all, affine, anti) && node.name !in nodes
    ensures Derived(nodes[node.name := NodeView(node, [])], index, None, affine, anti)
  {
    CountsNewNode(nodes, index, node);
    MemoNewNode(affine, nodes, PodsWithAffinity, node);
    MemoNewNode(anti, nodes, PodsWithReqAntiAffinity, node);
  }

  lemma CountsNewNode(nodes: map<string, NodeView>, index: map<string, map<string, nat>>, node: Node)
    requires Indexed(index, Counts(nodes)) && node.name !in nodes
    ensures Indexed(index, Counts(nodes[node.name := NodeView(node, [])]))
  {
    IndexedSame(index, Counts(nodes), Counts(nodes[node.name := NodeView(node, [])]));
  }

  lemma MemoNewNode(list: Option<seq<string>>, nodes: map<string, NodeView>, kind: Kind, node: Node)
    requires Memo(list, nodes, kind) && node.name !in nodes && kind != AllNodes
    ensures Memo(list, nodes[node.name := NodeView(node, [])], kind)
  {
    var nodes' := nodes[node.name := NodeView(node, [])];
    assert forall n :: ListedIn(nodes', n, kind) <==> ListedIn(nodes, n, kind);
  }

  lemma SameNodePods(nodes: map<string, NodeView>, pods: map<string, Pod>, homes: map<string, string>,
                     orphaned: map<string, Pod>, index: map<string, map<string, nat>>, all: Option<seq<string>>, node: Node)
    requires Placed(nodes, pods, homes, orphaned, {}) && node.name in nodes
    requires Indexed(index, Counts(nodes)) && Memo(all, nodes, AllNodes)
    ensures var nodes' := nodes[node.name := nodes[node.name].(node := node)];
            Placed(nodes', pods, homes, orphaned, {}) && Indexed(index, Counts(nodes')) && Memo(all, nodes', AllNodes)
  {
    var nodes' := nodes[node.name := nodes[node.name].(node := node)];
    assert nodes'.Keys == nodes.Keys;
    assert Counts(nodes') == Counts(nodes);
    assert forall n :: ListedIn(nodes', n, AllNodes) <==> ListedIn(nodes, n, AllNodes);
  }

  /** What the specification says of a node update, in terms of the maps of the cache. */
  lemma UpdateNodeParts(nodes: map<string, NodeView>, pods: map<string, Pod>, homes: map<string, string>,
                        orphaned: map<string, Pod>, assumed: map<string, bool>, node: Node)
    requires Placed(nodes, pods, homes, orphaned, {})
    ensures var m := M.Model(NodesOf(nodes), pods, assumed);
            var waiting := M.Waiting(m, node.name);
            && waiting == (if node.name in nodes then {} else Named(orphaned, node.name))
            && M.UpdateNode(m, node)
            == M.Model(NodesOf(nodes[node.name := NodeView(node, if node.name in nodes then nodes[node.name].pods else [])]),
                       pods, if node.name in nodes then assumed else assumed - Started(orphaned, waiting))
  {
    var m := M.Model(NodesOf(nodes), pods, assumed);
    var waiting := M.Waiting(m, node.name);
    if node.name in nodes {
      assert waiting == {};
    } else {
      assert waiting == Named(orphaned, node.name);
    }
    assert (set uid | uid in waiting && IsRunning(pods[uid])) == Started(orphaned, waiting);
  }

  /** The orphans that name the given node. */
  ghost function Named(orphaned: map<string, Pod>, name: string): set<string> {
    set uid | uid in orphaned && orphaned[uid].nodeName == name
  }

  ghost function Uids(list: seq<Pod>): set<string> {
    set pod | pod in list :: pod.uid
  }

  ghost function Restrict(pods: map<string, Pod>, uids: set<string>): map<string, Pod> {
    map uid | uid in pods && uid in uids :: pods[uid]
  }

  /** The pods after the given ones lost their node. */
  ghost function Reverted(pods: map<string, Pod>, uids: set<string>): map<string, Pod> {
    map uid | uid in pods :: if uid in uids then pods[uid].(nodeName := "") else pods[uid]
  }

  lemma EvictStart(pods: map<string, Pod>, homes: map<string, string>, assumed: map<string, bool>, orphaned: map<string, Pod>)
    ensures Uids([]) == {}
    ensures Reverted(pods, {} * assumed.Keys) == pods && homes - {} == homes && assumed - {} == assumed
    ensures orphaned + Restrict(pods, {} - assumed.Keys) == orphaned && Collected([], pods, {} - assumed.Keys)
  {
  }

  lemma UidsStep(list: seq<Pod>, i: nat)
    requires i < |list| && Distinct(list)
    ensures Uids(list[..i + 1]) == Uids(list[..i]) + {list[i].uid} && list[i].uid !in Uids(list[..i])
  {
    assert list[..i + 1] == list[..i] + [list[i]];
  }

  lemma RevertedStep(pods: map<string, Pod>, uids: set<string>, uid: string)
    requires uid in pods
    ensures Reverted(pods, uids + {uid}) == Reverted(pods, uids)[uid := pods[uid].(nodeName := "")]
  {
  }

  lemma RestrictStep(base: map<string, Pod>, pods: map<string, Pod>, uids: set<string>, uid: string)
    requires uid in pods
    ensures base + Restrict(pods, uids + {uid}) == (base + Restrict(pods, uids))[uid := pods[uid]]
  {
  }

  lemma EvictStep(list: seq<Pod>, i: nat, pods: map<string, Pod>, homes: map<string, string>, assumed: map<string, bool>,
                  orphaned: map<string, Pod>, orphans: seq<Pod>)
    requires i < |list| && Distinct(list) && list[i].uid in pods && pods[list[i].uid] == list[i]
    requires Collected(orphans, pods, Uids(list[..i]) - assumed.Keys)
    ensures var pod, done, done' := list[i], Uids(list[..i]), Uids(list[..i + 1]);
            && (pod.uid in assumed - done <==> pod.uid in assumed)
            && homes - done' == homes - done - {pod.uid}
            && assumed - done' == assumed - done - {pod.uid}
            && (if pod.uid in assumed
                then
                  && Reverted(pods, done' * assumed.Keys) == Reverted(pods, done * assumed.Keys)[pod.uid := pod.(nodeName := "")]
                  && done' - assumed.Keys == done - assumed.Keys
                else
                  && Reverted(pods, done' * assumed.Keys) == Reverted(pods, done * assumed.Keys)
                  && orphaned + Restrict(pods, done' - assumed.Keys)
                  == (orphaned + Restrict(pods, done - assumed.Keys))[pod.uid := pod]
                  && Collected(orphans + [pod], pods, done' - assumed.Keys))
  {
    var pod, done := list[i], Uids(list[..i]);
    UidsStep(list, i);
    if pod.uid in assumed {
      assert (done + {pod.uid}) * assumed.Keys == done * assumed.Keys + {pod.uid};
      RevertedStep(pods, done * assumed.Keys, pod.uid);
      assert done + {pod.uid} - assumed.Keys == done - assumed.Keys;
    } else {
      assert (done + {pod.uid}) * assumed.Keys == done * assumed.Keys;
      assert done + {pod.uid} - assumed.Keys == done - assumed.Keys + {pod.uid};
      RestrictStep(orphaned, pods, done - assumed.Keys, pod.uid);
      CollectedWith(orphans, pods, done - assumed.Keys, pod);
    }
  }

  /** Which pods a removed node takes with it. */
  ghost predicate Leaving(pods: map<string, Pod>, name: string, gone: set<string>) {
    forall uid :: uid in pods ==> (uid in gone <==> IsAssigned(pods[uid]) && pods[uid].nodeName == name)
  }

  lemma HeldAreLeaving(list: seq<Pod>, pods: map<string, Pod>, name: string)
    requires Cached(pods) && Holds(list, pods, {}, name)
    ensures Leaving(pods, name, Uids(list)) && Uids(list) <= pods.Keys
  {
    forall uid | uid in pods && IsAssigned(pods[uid]) && pods[uid].nodeName == name ensures uid in Uids(list) {
      assert pods[uid] in list;
    }
  }

  lemma MapsNodeGone(names: set<string>, pods: map<string, Pod>, gone: set<string>, assumed: set<string>, name: string)
    requires Cached(pods) && Leaving(pods, name, gone) && name in names
    ensures AssignedIn(names, pods, {}) - gone == AssignedIn(names - {name}, Reverted(pods, gone * assumed), {})
    ensures OrphanedIn(names, pods, {}) + Restrict(pods, gone - assumed)
         == OrphanedIn(names - {name}, Reverted(pods, gone * assumed), {})
  {
  }

  lemma HoldsNodeGone(list: seq<Pod>, pods: map<string, Pod>, gone: set<string>, assumed: set<string>, name: string, n: string)
    requires Cached(pods) && Leaving(pods, name, gone) && n != name && Holds(list, pods, {}, n)
    ensures Holds(list, Reverted(pods, gone * assumed), {}, n)
  {
  }

  lemma PlacedNodeGone(nodes: map<string, NodeView>, pods: map<string, Pod>, homes: map<string, string>,
                       orphaned: map<string, Pod>, assumed: set<string>, name: string)
    requires Placed(nodes, pods, homes, orphaned, {}) && name in nodes
    ensures var gone := Uids(nodes[name].pods);
            Placed(nodes - {name}, Reverted(pods, gone * assumed), homes - gone,
                   orphaned + Restrict(pods, gone - assumed), {})
  {
    var gone := Uids(nodes[name].pods);
    var nodes', pods' := nodes - {name}, Reverted(pods, gone * assumed);
    assert nodes'.Keys == nodes.Keys - {name};
    HeldAreLeaving(nodes[name].pods, pods, name);
    MapsNodeGone(nodes.Keys, pods, gone, assumed, name);
    forall n | n in nodes' ensures Holds(nodes'[n].pods, pods', {}, n) {
      HoldsNodeGone(nodes[n].pods, pods, gone, assumed, name, n);
    }
  }

  lemma CountsWithout(nodes: map<string, NodeView>, name: string)
    ensures Counts(nodes - {name}) == Counts(nodes) - {name}
  {
  }

  /** What the specification says of a node removal, in terms of the maps of the cache. */
  lemma RemoveNodeParts(nodes: map<string, NodeView>, pods: map<string, Pod>, homes: map<string, string>,
                        orphaned: map<string, Pod>, assumed: map<string, bool>, name: string)
    requires Placed(nodes, pods, homes, orphaned, {})
    ensures var m := M.Model(NodesOf(nodes), pods, assumed);
            && (name !in nodes ==> M.RemoveNode(m, name) == m && M.OnNode(m, name) == map[])
            && (name in nodes ==>
                  && M.OnNode(m, name).Keys == Uids(nodes[name].pods)
                  && M.RemoveNode(m, name)
                  == M.Model(NodesOf(nodes - {name}), Reverted(pods, Uids(nodes[name].pods) * assumed.Keys),
                             assumed - Uids(nodes[name].pods)))
  {
    var m := M.Model(NodesOf(nodes), pods, assumed);
    if name in nodes {
      HeldAreLeaving(nodes[name].pods, pods, name);
      assert M.OnNode(m, name).Keys == Uids(nodes[name].pods);
      RevertedPods(m, name, Uids(nodes[name].pods));
      assert NodesOf(nodes - {name}) == NodesOf(nodes) - {name};
    } else {
      assert M.OnNode(m, name) == map[];
      RevertedPods(m, name, {});
      assert Reverted(pods, {} * assumed.Keys) == pods;
    }
  }

  lemma RevertedPods(m: M.Model, name: string, gone: set<string>)
    requires gone == M.OnNode(m, name).Keys
    ensures M.RemoveNode(m, name) == M.Model(m.nodes - {name}, Reverted(m.pods, gone * m.assumed.Keys), m.assumed - gone)
  {
  }

  /** Removing the current version and entering the new one is what the specification calls an update. */
  lemma UpdateInTwoSteps(m: M.Model, update: Pod)
    ensures var p := M.Effective(m, update);
            var rest := m.pods - {p.uid};
            var kept := if IsRunning(p) || IsTerminated(p) then m.assumed - {p.uid} else m.assumed;
            M.UpdatePod(m, update)
            == M.Model(m.nodes, if IsTerminated(p) then rest else rest[p.uid := p],
                       if IsTerminated(p) then kept - {p.uid} else kept)
    ensures var p := M.Effective(m, update);
            M.UpdateAccepted(m, update) <==> IsTerminated(p) || !IsAssigned(p) || p.nodeName in m.nodes
  {
  }

  class SchedulerCache {
    var nodesMap: map<string, NodeView>
    var podsMap: map<string, Pod>
    var assignedPods: map<string, string>
    var assumedPods: map<string, bool>
    var orphanedPods: map<string, Pod>
    var pvcRefCounts: map<string, map<string, nat>>
    var nodesInfo: Option<seq<string>>
    var nodesInfoPodsWithAffinity: Option<seq<string>>
    var nodesInfoPodsWithReqAntiAffinity: Option<seq<string>>

    /** The state of the specification that this cache stands for. */
    ghost function Model(): M.Model
      reads this`nodesMap, this`podsMap, this`assumedPods
    {
      M.Model(NodesOf(nodesMap), podsMap, assumedPods)
    }

    ghost predicate DerivedOk()
      reads this`nodesMap, this`pvcRefCounts
      reads this`nodesInfo, this`nodesInfoPodsWithAffinity, this`nodesInfoPodsWithReqAntiAffinity
    {
      Derived(nodesMap, pvcRefCounts, nodesInfo, nodesInfoPodsWithAffinity, nodesInfoPodsWithReqAntiAffinity)
    }

    ghost predicate ValidExcept(waiting: set<string>)
      reads this`nodesMap, this`podsMap, this`assignedPods, this`orphanedPods, this`pvcRefCounts
      reads this`nodesInfo, this`nodesInfoPodsWithAffinity, this`nodesInfoPodsWithReqAntiAffinity
    {
      && Placed(nodesMap, podsMap, assignedPods, orphanedPods, waiting)
      && DerivedOk()
    }

    ghost predicate Valid()
      reads this`nodesMap, this`podsMap, this`assignedPods, this`orphanedPods, this`pvcRefCounts
      reads this`nodesInfo, this`nodesInfoPodsWithAffinity, this`nodesInfoPodsWithReqAntiAffinity
    {
      ValidExcept({})
    }

    constructor ()
      ensures Valid() && Model() == M.Model(map[], map[], map[])
    {
      nodesMap, podsMap, assignedPods, assumedPods, orphanedPods := map[], map[], map[], map[], map[];
      pvcRefCounts := map[];
      nodesInfo, nodesInfoPodsWithAffinity, nodesInfoPodsWithReqAntiAffinity := None, None, None;
    }

    /** Replaces what one node contributes to the index. */
    method UpdatePVCRefCounts(node: NodeView, removeNode: bool, ghost counts: map<string, map<string, nat>>)
      requires Indexed(pvcRefCounts, counts)
      modifies this`pvcRefCounts
      ensures Indexed(pvcRefCounts,
                      if removeNode then counts - {node.node.name} else counts[node.node.name := RefCounts(node.pods)])
    {
      var name := node.node.name;
      ghost var rest := counts - {name};
      ghost var row := if name in counts then counts[name] else map[];
      IndexedSame(pvcRefCounts, counts, rest[name := row]);
      DropRow(name, rest, row);
      if removeNode {
        IndexedSame(pvcRefCounts, rest[name := map[]], rest);
      } else {
        AddRow(name, RefCounts(node.pods), rest);
        assert rest[name := RefCounts(node.pods)] == counts[name := RefCounts(node.pods)];
      }
    }

    method DropRow(name: string, ghost rest: map<string, map<string, nat>>, ghost row: map<string, nat>)
      requires name !in rest && Indexed(pvcRefCounts, rest[name := row])
      modifies this`pvcRefCounts
      ensures Indexed(pvcRefCounts, rest[name := map[]])
    {
      var todo := pvcRefCounts.Keys;
      ghost var left := row;
      forall c | c in left ensures c in pvcRefCounts {
        assert Cell(pvcRefCounts, c, name) == Cell(rest[name := row], name, c);
      }
      while todo != {}
        invariant todo <= pvcRefCounts.Keys && left.Keys <= todo
        invariant Indexed(pvcRefCounts, rest[name := left])
        decreases todo
      {
        var c :| c in todo;
        IndexedDrop(pvcRefCounts, rest, name, left, c);
        pvcRefCounts := DropCell(pvcRefCounts, c, name);
        todo := todo - {c};
        left := left - {c};
      }
      assert left == map[];
    }

    method AddRow(name: string, added: map<string, nat>, ghost rest: map<string, map<string, nat>>)
      requires name !in rest && Indexed(pvcRefCounts, rest[name := map[]])
      modifies this`pvcRefCounts
      ensures Indexed(pvcRefCounts, rest[name := added])
    {
      var todo := added.Keys;
      ghost var done: map<string, nat> := map[];
      while todo != {}
        invariant todo <= added.Keys && done == added - todo
        invariant Indexed(pvcRefCounts, rest[name := done])
        decreases todo
      {
        var c :| c in todo;
        var entry := if c in pvcRefCounts then pvcRefCounts[c] else map[];
        IndexedAdd(pvcRefCounts, rest, name, done, c, added[c]);
        pvcRefCounts := pvcRefCounts[c := entry[name := added[c]]];
        todo := todo - {c};
        done := done[c := added[c]];
      }
      assert done == added;
    }

    method Invalidate(pod: Pod)
      modifies this`nodesInfoPodsWithAffinity, this`nodesInfoPodsWithReqAntiAffinity
      ensures nodesInfoPodsWithAffinity == if WithAffinity(pod) then None else old(nodesInfoPodsWithAffinity)
      ensures nodesInfoPodsWithReqAntiAffinity
           == if WithRequiredAntiAffinity(pod) then None else old(nodesInfoPodsWithReqAntiAffinity)
    {
      if WithAffinity(pod) {
        nodesInfoPodsWithAffinity := None;
      }
      if WithRequiredAntiAffinity(pod) {
        nodesInfoPodsWithReqAntiAffinity := None;
      }
    }

    method DetachFromNode(name: string, current: Pod, pod: Pod)
      requires DerivedOk() && name in nodesMap && nodesMap[name].node.name == name && Distinct(nodesMap[name].pods)
      requires current in nodesMap[name].pods && current.uid != "" && SameFixedFields(current, pod)
      modifies this`nodesMap, this`pvcRefCounts, this`nodesInfoPodsWithAffinity, this`nodesInfoPodsWithReqAntiAffinity
      ensures DerivedOk() && NodesOf(nodesMap) == NodesOf(old(nodesMap))
      ensures nodesMap == old(nodesMap)[name := old(nodesMap)[name].(pods := Without(old(nodesMap)[name].pods, current.uid))]
    {
      var nodeInfo := nodesMap[name].(pods := Without(nodesMap[name].pods, current.uid));
      NodesOfSame(nodesMap, name, nodeInfo.pods);
      CountsWith(nodesMap, name, nodeInfo);
      MemoWithout(nodesInfo, nodesMap, AllNodes, name, current);
      MemoWithout(nodesInfoPodsWithAffinity, nodesMap, PodsWithAffinity, name, current);
      MemoWithout(nodesInfoPodsWithReqAntiAffinity, nodesMap, PodsWithReqAntiAffinity, name, current);
      UpdatePVCRefCounts(nodeInfo, false, Counts(nodesMap));
      nodesMap := nodesMap[name := nodeInfo];
      Invalidate(pod);
    }

    method AttachToNode(pod: Pod)
      requires DerivedOk() && pod.nodeName in nodesMap && nodesMap[pod.nodeName].node.name == pod.nodeName
      modifies this`nodesMap, this`pvcRefCounts, this`nodesInfoPodsWithAffinity, this`nodesInfoPodsWithReqAntiAffinity
      ensures DerivedOk() && NodesOf(nodesMap) == NodesOf(old(nodesMap))
      ensures nodesMap == old(nodesMap)[pod.nodeName :=
                            old(nodesMap)[pod.nodeName].(pods := old(nodesMap)[pod.nodeName].pods + [pod])]
    {
      var nodeInfo := nodesMap[pod.nodeName].(pods := nodesMap[pod.nodeName].pods + [pod]);
      NodesOfSame(nodesMap, pod.nodeName, nodeInfo.pods);
      CountsWith(nodesMap, pod.nodeName, nodeInfo);
      MemoWith(nodesInfo, nodesMap, AllNodes, pod);
      MemoWith(nodesInfoPodsWithAffinity, nodesMap, PodsWithAffinity, pod);
      MemoWith(nodesInfoPodsWithReqAntiAffinity, nodesMap, PodsWithReqAntiAffinity, pod);
      Invalidate(pod);
      UpdatePVCRefCounts(nodeInfo, false, Counts(nodesMap));
      nodesMap := nodesMap[pod.nodeName := nodeInfo];
    }

    /** Takes the current version of a cached pod out of the cache; an assumed pod whose update names no node keeps its own. */
    method RemoveCurrent(update: Pod) returns (pod: Pod)
      requires DerivedOk() && update.uid in podsMap && podsMap[update.uid].uid == update.uid != ""
      requires SameFixedFields(podsMap[update.uid], update) && AtHome(nodesMap, assignedPods, podsMap[update.uid])
      modifies this`nodesMap, this`podsMap, this`assignedPods, this`orphanedPods, this`pvcRefCounts
      modifies this`nodesInfoPodsWithAffinity, this`nodesInfoPodsWithReqAntiAffinity
      ensures DerivedOk() && NodesOf(nodesMap) == NodesOf(old(nodesMap))
      ensures nodesMap == Unhomed(old(nodesMap), old(assignedPods), update.uid)
      ensures podsMap == old(podsMap) - {update.uid} && orphanedPods == old(orphanedPods) - {update.uid}
      ensures assignedPods == old(assignedPods) - {update.uid}
      ensures pod == if update.nodeName == "" && update.uid in assumedPods && update.uid in old(assignedPods)
                     then update.(nodeName := old(assignedPods)[update.uid]) else update
    {
      pod := update;
      var key := pod.uid;
      var currState := podsMap[key];
      podsMap := podsMap - {key};
      orphanedPods := orphanedPods - {key};
      if key in assignedPods {
        var nodeName := assignedPods[key];
        if nodeName in nodesMap {
          DetachFromNode(nodeName, currState, pod);
        }
        if pod.nodeName == "" && key in assumedPods {
          pod := pod.(nodeName := nodeName);
        }
      }
      assignedPods := assignedPods - {key};
    }

    method Displace(update: Pod, ghost waiting: set<string>) returns (pod: Pod)
      requires ValidExcept(waiting) && waiting <= podsMap.Keys
      requires update.uid in podsMap ==> SameFixedFields(podsMap[update.uid], update)
      requires update.uid in waiting ==> IsAssigned(update)
      modifies this`nodesMap, this`podsMap, this`assignedPods, this`orphanedPods, this`pvcRefCounts
      modifies this`nodesInfoPodsWithAffinity, this`nodesInfoPodsWithReqAntiAffinity
      ensures ValidExcept(waiting - {update.uid})
      ensures Model() == old(Model()).(pods := old(podsMap) - {update.uid})
      ensures pod == M.Effective(old(Model()), update)
    {
      pod := update;
      if pod.uid in podsMap {
        PlacedWithout(nodesMap, podsMap, assignedPods, orphanedPods, waiting, pod.uid);
        EffectiveAtHome(Model(), nodesMap, assignedPods, orphanedPods, waiting, update);
        PlacedAtHome(nodesMap, podsMap, assignedPods, orphanedPods, waiting, pod.uid);
        pod := RemoveCurrent(update);
      } else {
        NotThere(waiting, pod.uid);
        NotKept(podsMap, pod.uid);
      }
    }

    /** On its node, among the orphans, or pending. */
    method PutBack(pod: Pod, ghost waiting: set<string>) returns (result: bool)
      requires ValidExcept(waiting) && pod.uid != "" && pod.uid !in podsMap && pod.uid !in waiting && !IsTerminated(pod)
      modifies this`nodesMap, this`podsMap, this`assignedPods, this`orphanedPods, this`pvcRefCounts
      modifies this`nodesInfoPodsWithAffinity, this`nodesInfoPodsWithReqAntiAffinity
      ensures ValidExcept(waiting) && NodesOf(nodesMap) == NodesOf(old(nodesMap)) && nodesMap.Keys == old(nodesMap).Keys
      ensures podsMap == old(podsMap)[pod.uid := pod]
      ensures result <==> !IsAssigned(pod) || pod.nodeName in nodesMap
    {
      var key := pod.uid;
      result := true;
      if IsAssigned(pod) && pod.nodeName in nodesMap {
        PlacedOnNode(nodesMap, podsMap, assignedPods, orphanedPods, waiting, pod);
        AttachToNode(pod);
        assignedPods := assignedPods[key := pod.nodeName];
      } else {
        PlacedElsewhere(nodesMap, podsMap, assignedPods, orphanedPods, waiting, pod);
        if IsAssigned(pod) {
          orphanedPods := orphanedPods[key := pod];
          result := false;
        }
      }
      podsMap := podsMap[key := pod];
    }

    /** Enters a pod the cache does not hold: on its node, as an orphan, or pending. A terminated pod is not entered. */
    method Place(pod: Pod, ghost waiting: set<string>) returns (result: bool)
      requires ValidExcept(waiting) && pod.uid != "" && pod.uid !in podsMap && pod.uid !in waiting
      modifies this`nodesMap, this`podsMap, this`assignedPods, this`assumedPods, this`orphanedPods, this`pvcRefCounts
      modifies this`nodesInfoPodsWithAffinity, this`nodesInfoPodsWithReqAntiAffinity
      ensures ValidExcept(waiting)
      ensures Model().nodes == old(Model().nodes)
      ensures podsMap == if IsTerminated(pod) then old(podsMap) else old(podsMap)[pod.uid := pod]
      ensures assumedPods == if IsTerminated(pod) then old(assumedPods) - {pod.uid} else old(assumedPods)
      ensures result <==> IsTerminated(pod) || !IsAssigned(pod) || pod.nodeName in nodesMap
    {
      if IsTerminated(pod) {
        Purge(pod.uid);
        result := true;
      } else {
        result := PutBack(pod, waiting);
      }
    }

    method Purge(key: string)
      modifies this`podsMap, this`assignedPods, this`assumedPods, this`orphanedPods
      ensures podsMap == old(podsMap) - {key} && assignedPods == old(assignedPods) - {key}
      ensures assumedPods == old(assumedPods) - {key} && orphanedPods == old(orphanedPods) - {key}
      ensures key !in old(podsMap) && key !in old(assignedPods) && key !in old(orphanedPods) ==>
        podsMap == old(podsMap) && assignedPods == old(assignedPods) && orphanedPods == old(orphanedPods)
    {
      podsMap := podsMap - {key};
      assignedPods := assignedPods - {key};
      assumedPods := assumedPods - {key};
      orphanedPods := orphanedPods - {key};
    }

    method UpdatePod(update: Pod, ghost waiting: set<string>) returns (result: bool)
      requires ValidExcept(waiting) && update.uid != "" && waiting <= podsMap.Keys
      requires update.uid in podsMap ==> SameFixedFields(podsMap[update.uid], update)
      requires update.uid in waiting ==> IsAssigned(update)
      modifies this
      ensures ValidExcept(waiting - {update.uid})
      ensures Model() == M.UpdatePod(old(Model()), update)
      ensures result == M.UpdateAccepted(old(Model()), update)
      ensures nodesInfo == old(nodesInfo)
    {
      var key := update.uid;
      UpdateInTwoSteps(Model(), update);
      var pod := Displace(update, waiting);
      if IsRunning(pod) || IsTerminated(pod) {
        assumedPods := assumedPods - {key};
      }
      result := Place(pod, waiting - {key});
    }

    method RemovePod(pod: Pod)
      requires Valid() && (pod.uid in podsMap ==> SameFixedFields(podsMap[pod.uid], pod))
      modifies this
      ensures Valid() && Model() == M.RemovePod(old(Model()), pod.uid)
      ensures nodesInfo == old(nodesInfo)
    {
      var key := pod.uid;
      NotThere({}, key);
      nodesInfoPodsWithAffinity := None;
      nodesInfoPodsWithReqAntiAffinity := None;
      if key in podsMap {
        PlacedWithout(nodesMap, podsMap, assignedPods, orphanedPods, {}, key);
      } else {
        MapsWithout(nodesMap.Keys, podsMap, {}, key);
        NotKept(podsMap, key);
      }
      RemoveFromNode(key);
      Purge(key);
    }

    /** The node is used after its lookup without checking that the lookup found it: this is safe
        because every assigned pod is on a known node. */
    method RemoveFromNode(key: string)
      requires Valid() && nodesInfoPodsWithAffinity == None && nodesInfoPodsWithReqAntiAffinity == None
      modifies this`nodesMap, this`pvcRefCounts
      ensures DerivedOk() && NodesOf(nodesMap) == NodesOf(old(nodesMap))
      ensures nodesMap == Unhomed(old(nodesMap), assignedPods, key)
    {
      if key in assignedPods {
        var nodeName := assignedPods[key];
        var nodeInfo := if nodeName in nodesMap then Some(nodesMap[nodeName]) else None;
        if nodeInfo.Some? {
          MemoWithout(nodesInfo, nodesMap, AllNodes, nodeName, podsMap[key]);
          nodeInfo := Some(nodeInfo.value.(pods := Without(nodeInfo.value.pods, key)));
          NodesOfSame(nodesMap, nodeName, nodeInfo.value.pods);
          CountsWith(nodesMap, nodeName, nodeInfo.value);
          nodesMap := nodesMap[nodeName := nodeInfo.value];
        }
        UpdatePVCRefCounts(nodeInfo.value, false, Counts(old(nodesMap)));
      }
    }

    method IsPodOrphaned(uid: string) returns (orphaned: bool)
      requires Valid()
      ensures orphaned == M.Orphaned(Model(), uid)
    {
      orphaned := uid in orphanedPods;
    }

    method ArePodVolumesAllBound(uid: string) returns (bound: bool)
      requires Valid()
      ensures bound == M.VolumesBound(Model(), uid)
    {
      bound := if uid in assumedPods then assumedPods[uid] else false;
    }

    method AssumePod(pod: Pod, allBound: bool)
      requires Valid() && pod.uid != "" && (pod.uid in podsMap ==> SameFixedFields(podsMap[pod.uid], pod))
      modifies this
      ensures Valid() && Model() == M.AssumePod(old(Model()), pod, allBound)
    {
      assert {} - {pod.uid} == {};
      var ok := UpdatePod(pod, {});
      assumedPods := assumedPods[pod.uid := allBound];
    }

    method ForgetPod(pod: Pod)
      requires Valid() && pod.uid != "" && (pod.uid in podsMap ==> SameFixedFields(podsMap[pod.uid], pod))
      modifies this
      ensures Valid() && Model() == M.ForgetPod(old(Model()), pod)
    {
      assert {} - {pod.uid} == {};
      var revert := pod.uid in assumedPods && pod.nodeName != "";
      assumedPods := assumedPods - {pod.uid};
      var ok := UpdatePod(if revert then pod.(nodeName := "") else pod, {});
    }

    /** An orphan whose node is known moves onto it; the pod itself does not change. */
    method AdoptOne(pod: Pod)
      requires ValidExcept(Named(orphanedPods, pod.nodeName)) && pod.nodeName in nodesMap
      requires pod.uid in orphanedPods && orphanedPods[pod.uid] == pod
      modifies this
      ensures ValidExcept(Named(orphanedPods, pod.nodeName)) && nodesInfo == old(nodesInfo)
      ensures NodesOf(nodesMap) == NodesOf(old(nodesMap)) && nodesMap.Keys == old(nodesMap.Keys)
      ensures podsMap == old(podsMap) && orphanedPods == old(orphanedPods) - {pod.uid}
      ensures assumedPods == if IsRunning(pod) then old(assumedPods) - {pod.uid} else old(assumedPods)
    {
      ghost var waiting := Named(orphanedPods, pod.nodeName);
      NodesOfKeys(nodesMap);
      AdoptionIsUpdate(Model(), pod);
      OrphansWithout(nodesMap.Keys, podsMap, waiting, pod.uid);
      NamedWithout(orphanedPods, pod.nodeName, pod.uid);
      var _ := UpdatePod(pod, waiting);
      NodesOfKeys(nodesMap);
    }

    /** Lets a new node adopt the orphans that name it, in any order. */
    method Adopt(name: string) returns (adopted: seq<Pod>)
      requires ValidExcept(Named(orphanedPods, name)) && name in nodesMap
      modifies this
      ensures Valid() && nodesInfo == old(nodesInfo)
      ensures name in nodesMap && NodesOf(nodesMap) == NodesOf(old(nodesMap)) && podsMap == old(podsMap)
      ensures assumedPods == old(assumedPods) - Started(old(orphanedPods), Named(old(orphanedPods), name))
      ensures Collected(adopted, old(orphanedPods), Named(old(orphanedPods), name))
    {
      adopted := [];
      ghost var orphans, done := orphanedPods, {};
      var todo := orphanedPods.Keys;
      while todo != {}
        invariant todo <= orphans.Keys && done == Named(orphans, name) - todo
        invariant orphanedPods == orphans - done
        invariant ValidExcept(Named(orphanedPods, name)) && nodesInfo == old(nodesInfo) && name in nodesMap
        invariant NodesOf(nodesMap) == NodesOf(old(nodesMap)) && podsMap == old(podsMap)
        invariant assumedPods == old(assumedPods) - Started(orphans, done)
        invariant Collected(adopted, orphans, done)
        decreases todo
      {
        var key :| key in todo;
        AdoptStep(orphans, old(assumedPods), name, todo, done, key);
        todo := todo - {key};
        if key in orphanedPods {
          var pod := orphanedPods[key];
          if pod.nodeName == name {
            AdoptOne(pod);
            CollectedWith(adopted, orphans, done, pod);
            adopted := adopted + [pod];
            done := done + {key};
          }
        }
      }
      AdoptEnd(orphans, name, done);
    }

    method AddNode(node: Node) returns (adopted: seq<Pod>)
      requires Valid() && node.name !in nodesMap
      modifies this
      ensures Valid() && Model() == M.UpdateNode(old(Model()), node) && node.name in nodesMap
      ensures Collected(adopted, old(podsMap), M.Waiting(old(Model()), node.name))
    {
      UpdateNodeParts(nodesMap, podsMap, assignedPods, orphanedPods, assumedPods, node);
      PlacedNewNode(nodesMap, podsMap, assignedPods, orphanedPods, node);
      DerivedNewNode(nodesMap, pvcRefCounts, nodesInfoPodsWithAffinity, nodesInfoPodsWithReqAntiAffinity, nodesInfo, node);
      nodesMap := nodesMap[node.name := NodeView(node, [])];
      nodesInfo := None;
      adopted := Adopt(node.name);
      CollectedSame(adopted, old(nodesMap).Keys, old(podsMap), Named(old(orphanedPods), node.name));
    }

    method ReplaceNode(node: Node)
      requires Valid() && node.name in nodesMap
      modifies this`nodesMap, this`nodesInfoPodsWithAffinity, this`nodesInfoPodsWithReqAntiAffinity
      ensures Valid() && Model() == M.UpdateNode(old(Model()), node) && node.name in nodesMap
      ensures M.Waiting(old(Model()), node.name) == {}
    {
      UpdateNodeParts(nodesMap, podsMap, assignedPods, orphanedPods, assumedPods, node);
      SameNodePods(nodesMap, podsMap, assignedPods, orphanedPods, pvcRefCounts, nodesInfo, node);
      nodesMap := nodesMap[node.name := nodesMap[node.name].(node := node)];
      nodesInfoPodsWithAffinity := None;
      nodesInfoPodsWithReqAntiAffinity := None;
    }

    method UpdateNode(node: Node) returns (prevNode: Option<Node>, adopted: seq<Pod>)
      requires Valid()
      modifies this
      ensures Valid() && Model() == M.UpdateNode(old(Model()), node)
      ensures prevNode == if node.name in old(nodesMap) then Some(old(nodesMap)[node.name].node) else None
      ensures Collected(adopted, old(podsMap), M.Waiting(old(Model()), node.name))
    {
      prevNode, adopted := None, [];
      if node.name !in nodesMap {
        adopted := AddNode(node);
      } else {
        prevNode := Some(nodesMap[node.name].node);
        ReplaceNode(node);
      }
      nodesInfoPodsWithAffinity := None;
      nodesInfoPodsWithReqAntiAffinity := None;
      CountsAgain(nodesMap, node.name);
      UpdatePVCRefCounts(nodesMap[node.name], false, Counts(nodesMap));
    }

    /** Takes all pods off a node: those still assumed become pending again, the others become orphans. */
    method Evict(list: seq<Pod>) returns (orphans: seq<Pod>)
      requires Distinct(list)
      requires forall pod :: pod in list ==> pod.uid in podsMap && podsMap[pod.uid] == pod
      modifies this`podsMap, this`assignedPods, this`assumedPods, this`orphanedPods
      ensures podsMap == Reverted(old(podsMap), Uids(list) * old(assumedPods).Keys)
      ensures assignedPods == old(assignedPods) - Uids(list)
      ensures assumedPods == old(assumedPods) - Uids(list)
      ensures orphanedPods == old(orphanedPods) + Restrict(old(podsMap), Uids(list) - old(assumedPods).Keys)
      ensures Collected(orphans, old(podsMap), Uids(list) - old(assumedPods).Keys)
    {
      orphans := [];
      ghost var pods, wasAssumed := podsMap, assumedPods.Keys;
      EvictStart(pods, assignedPods, assumedPods, orphanedPods);
      assert list[..0] == [];
      for i := 0 to |list|
        invariant podsMap == Reverted(pods, Uids(list[..i]) * wasAssumed)
        invariant assignedPods == old(assignedPods) - Uids(list[..i])
        invariant assumedPods == old(assumedPods) - Uids(list[..i])
        invariant orphanedPods == old(orphanedPods) + Restrict(pods, Uids(list[..i]) - wasAssumed)
        invariant Collected(orphans, pods, Uids(list[..i]) - wasAssumed)
      {
        var pod := list[i];
        var key := pod.uid;
        EvictStep(list, i, pods, old(assignedPods), old(assumedPods), old(orphanedPods), orphans);
        var revert := key in assumedPods;
        assignedPods := assignedPods - {key};
        assumedPods := assumedPods - {key};
        if revert {
          podsMap := podsMap[key := pod.(nodeName := "")];
        } else {
          orphanedPods := orphanedPods[key := pod];
          orphans := orphans + [pod];
        }
      }
      assert list[..|list|] == list;
    }

    method DropNode(name: string) returns (orphans: seq<Pod>)
      requires Valid() && name in nodesMap
      modifies this
      ensures Valid() && Model() == M.RemoveNode(old(Model()), name)
      ensures Collected(orphans, old(podsMap), M.OnNode(old(Model()), name).Keys - old(assumedPods).Keys)
    {
      var nodeInfo := nodesMap[name];
      RemoveNodeParts(nodesMap, podsMap, assignedPods, orphanedPods, assumedPods, name);
      PlacedNodeGone(nodesMap, podsMap, assignedPods, orphanedPods, assumedPods.Keys, name);
      orphans := Evict(nodeInfo.pods);
      DeleteNode(name);
    }

    method DeleteNode(name: string)
      requires name in nodesMap && nodesMap[name].node.name == name && Indexed(pvcRefCounts, Counts(nodesMap))
      modifies this`nodesMap, this`pvcRefCounts
      modifies this`nodesInfo, this`nodesInfoPodsWithAffinity, this`nodesInfoPodsWithReqAntiAffinity
      ensures DerivedOk() && nodesMap == old(nodesMap) - {name}
    {
      CountsWithout(nodesMap, name);
      var nodeInfo := nodesMap[name];
      nodesMap := nodesMap - {name};
      nodesInfo := None;
      nodesInfoPodsWithAffinity := None;
      nodesInfoPodsWithReqAntiAffinity := None;
      UpdatePVCRefCounts(nodeInfo, true, Counts(old(nodesMap)));
    }

    method RemoveNode(name: string) returns (prevNode: Option<Node>, orphans: seq<Pod>)
      requires Valid()
      modifies this
      ensures Valid() && Model() == M.RemoveNode(old(Model()), name)
      ensures prevNode == if name in old(nodesMap) then Some(old(nodesMap)[name].node) else None
      ensures Collected(orphans, old(podsMap), M.OnNode(old(Model()), name).Keys - old(assumedPods).Keys)
    {
      if name !in nodesMap {
        RemoveNodeParts(nodesMap, podsMap, assignedPods, orphanedPods, assumedPods, name);
        return None, [];
      }
      prevNode := Some(nodesMap[name].node);
      orphans := DropNode(name);
    }

    /** Collects the nodes that belong on a list, in any order. */
    method Scan(kind: Kind) returns (list: seq<string>)
      ensures Memo(Some(list), nodesMap, kind)
    {
      list := [];
      var todo := nodesMap.Keys;
      while todo != {}
        invariant todo <= nodesMap.Keys
        invariant forall i, j :: 0 <= i < j < |list| ==> list[i] != list[j]
        invariant forall n :: n in list <==> ListedIn(nodesMap, n, kind) && n !in todo
        decreases todo
      {
        var n :| n in todo;
        todo := todo - {n};
        if Listed(nodesMap[n].pods, kind) {
          assert n !in list;
          list := list + [n];
        }
      }
    }

    method GetNodesInfo() returns (list: seq<string>)
      requires Valid()
      modifies this`nodesInfo
      ensures Valid()
      ensures forall i, j :: 0 <= i < j < |list| ==> list[i] != list[j]
      ensures forall n :: n in list <==> n in nodesMap
    {
      if nodesInfo.None? {
        var nodeList := Scan(AllNodes);
        nodesInfo := Some(nodeList);
      }
      assert forall n :: ListedIn(nodesMap, n, AllNodes) <==> n in nodesMap;
      return nodesInfo.value;
    }

    method GetNodesInfoPodsWithAffinity() returns (list: seq<string>)
      requires Valid()
      modifies this`nodesInfoPodsWithAffinity
      ensures Valid()
      ensures forall i, j :: 0 <= i < j < |list| ==> list[i] != list[j]
      ensures forall n :: n in list <==> n in nodesMap && exists pod :: pod in nodesMap[n].pods && WithAffinity(pod)
    {
      if nodesInfoPodsWithAffinity.None? {
        var nodeList := Scan(PodsWithAffinity);
        nodesInfoPodsWithAffinity := Some(nodeList);
      }
      forall n ensures ListedIn(nodesMap, n, PodsWithAffinity) <==>
                       n in nodesMap && exists pod :: pod in nodesMap[n].pods && WithAffinity(pod) {
        if n in nodesMap {
          assert forall pod :: Matches(pod, PodsWithAffinity) <==> WithAffinity(pod);
        }
      }
      return nodesInfoPodsWithAffinity.value;
    }

    method GetNodesInfoPodsWithReqAntiAffinity() returns (list: seq<string>)
      requires Valid()
      modifies this`nodesInfoPodsWithReqAntiAffinity
      ensures Valid()
      ensures forall i, j :: 0 <= i < j < |list| ==> list[i] != list[j]
      ensures forall n :: n in list <==>
        n in nodesMap && exists pod :: pod in nodesMap[n].pods && WithRequiredAntiAffinity(pod)
    {
      if nodesInfoPodsWithReqAntiAffinity.None? {
        var nodeList := Scan(PodsWithReqAntiAffinity);
        nodesInfoPodsWithReqAntiAffinity := Some(nodeList);
      }
      forall n ensures ListedIn(nodesMap, n, PodsWithReqAntiAffinity) <==>
                       n in nodesMap && exists pod :: pod in nodesMap[n].pods && WithRequiredAntiAffinity(pod) {
        if n in nodesMap {
          assert forall pod :: Matches(pod, PodsWithReqAntiAffinity) <==> WithRequiredAntiAffinity(pod);
        }
      }
      return nodesInfoPodsWithReqAntiAffinity.value;
    }

    /** A claim is in the index exactly when some pod placed on some known node mounts it. */
    method IsPVCUsedByPods(claim: string) returns (used: bool)
      requires Valid()
      ensures used <==> exists uid :: M.Assigned(Model(), uid) && claim in podsMap[uid].claims
    {
      used := claim in pvcRefCounts;
      IndexedClaims(nodesMap, podsMap, assignedPods, orphanedPods, assumedPods, pvcRefCounts, claim);
    }
  }

  lemma IndexedClaims(nodes: map<string, NodeView>, pods: map<string, Pod>, homes: map<string, string>,
                      orphaned: map<string, Pod>, assumed: map<string, bool>, index: map<string, map<string, nat>>, claim: string)
    requires Placed(nodes, pods, homes, orphaned, {}) && Indexed(index, Counts(nodes))
    ensures claim in index <==>
            exists uid :: M.Assigned(M.Model(NodesOf(nodes), pods, assumed), uid) && claim in pods[uid].claims
  {
    var m := M.Model(NodesOf(nodes), pods, assumed);
    if claim in index {
      assert index[claim] != map[];
      var n :| n in index[claim];
      assert Cell(index, claim, n) == Cell(Counts(nodes), n, claim);
      ClaimsMember(nodes[n].pods, claim);
      var i :| 0 <= i < |nodes[n].pods| && claim in nodes[n].pods[i].claims;
      assert nodes[n].pods[i] in nodes[n].pods;
      assert M.Assigned(m, nodes[n].pods[i].uid);
    }
    if uid :| M.Assigned(m, uid) && claim in pods[uid].claims {
      var n := pods[uid].nodeName;
      assert Holds(nodes[n].pods, pods, {}, n);
      assert pods[uid] in nodes[n].pods;
      ClaimsMember(nodes[n].pods, claim);
      assert claim in RefCounts(nodes[n].pods);
      assert Cell(index, claim, n) == Cell(Counts(nodes), n, claim);
    }
  }

  lemma OnceInDistinct(list: seq<Pod>, pod: Pod)
    requires Distinct(list) && pod in list
    ensures multiset(list)[pod] == 1
  {
    var i :| 0 <= i < |list| && list[i] == pod;
    assert list == list[..i] + [pod] + list[i + 1..];
    assert pod !in list[..i] && pod !in list[i + 1..];
  }

  /** Every cached pod is pending, or on exactly one known node exactly once, or an orphan of an unknown node. */
  lemma InOnePlace(nodes: map<string, NodeView>, pods: map<string, Pod>, homes: map<string, string>,
                   orphaned: map<string, Pod>, uid: string)
    requires Placed(nodes, pods, homes, orphaned, {}) && uid in pods
    ensures uid in homes <==> IsAssigned(pods[uid]) && pods[uid].nodeName in nodes
    ensures uid in orphaned <==> IsAssigned(pods[uid]) && pods[uid].nodeName !in nodes
    ensures uid in homes ==> homes[uid] == pods[uid].nodeName && multiset(nodes[homes[uid]].pods)[pods[uid]] == 1
    ensures forall n, pod :: n in nodes && pod in nodes[n].pods && pod.uid == uid ==>
      uid in homes && homes[uid] == n && pod == pods[uid]
  {
    if uid in homes {
      assert Holds(nodes[homes[uid]].pods, pods, {}, homes[uid]);
      OnceInDistinct(nodes[homes[uid]].pods, pods[uid]);
    }
    forall n, pod | n in nodes && pod in nodes[n].pods && pod.uid == uid
      ensures uid in homes && homes[uid] == n && pod == pods[uid]
    {
      assert Holds(nodes[n].pods, pods, {}, n);
    }
  }
}
