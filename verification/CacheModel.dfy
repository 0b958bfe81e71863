/**
 The simple specification of the scheduler cache. Its state is the known nodes, the cached
 pods and the assumed pods; where a pod is placed follows from the node name it carries.
 */
module CacheModel {
  import opened Options
  import opened Kubernetes
  import opened NodeInfos

  datatype Model = Model(nodes: map<string, Node>, pods: map<string, Pod>, assumed: map<string, bool>)

  predicate Assigned(m: Model, uid: string) {
    uid in m.pods && IsAssigned(m.pods[uid]) && m.pods[uid].nodeName in m.nodes
  }

  predicate Orphaned(m: Model, uid: string) {
    uid in m.pods && IsAssigned(m.pods[uid]) && m.pods[uid].nodeName !in m.nodes
  }

  /** Neither placed nor waiting for a node to come back. */
  predicate Unplaced(m: Model, uid: string) {
    uid in m.pods && !IsAssigned(m.pods[uid])
  }

  /** The pods placed on one node. */
  function OnNode(m: Model, name: string): map<string, Pod> {
    map uid | uid in m.pods && Assigned(m, uid) && m.pods[uid].nodeName == name :: m.pods[uid]
  }

  /** A pod that is assumed keeps its node while updates without a node name come in. */
  function Effective(m: Model, pod: Pod): Pod {
    if pod.nodeName == "" && pod.uid in m.assumed && Assigned(m, pod.uid)
    then pod.(nodeName := m.pods[pod.uid].nodeName)
    else pod
  }

  function UpdatePod(m: Model, pod: Pod): Model {
    var p := Effective(m, pod);
    if IsTerminated(p) then
      Model(m.nodes, m.pods - {p.uid}, m.assumed - {p.uid})
    else
      Model(m.nodes, m.pods[p.uid := p], if IsRunning(p) then m.assumed - {p.uid} else m.assumed)
  }

  /** An update is refused when it leaves the pod waiting for an unknown node. */
  predicate UpdateAccepted(m: Model, pod: Pod) {
    !Orphaned(UpdatePod(m, pod), pod.uid)
  }

  function RemovePod(m: Model, uid: string): Model {
    Model(m.nodes, m.pods - {uid}, m.assumed - {uid})
  }

  function AssumePod(m: Model, pod: Pod, allBound: bool): Model {
    var updated := UpdatePod(m, pod);
    updated.(assumed := updated.assumed[pod.uid := allBound])
  }

  /** The binder need not bind the pod's volumes, because they were bound when it was assumed. */
  predicate VolumesBound(m: Model, uid: string) {
    uid in m.assumed && m.assumed[uid]
  }

  function ForgetPod(m: Model, pod: Pod): Model {
    var reverted := if pod.uid in m.assumed then pod.(nodeName := "") else pod;
    UpdatePod(m.(assumed := m.assumed - {pod.uid}), reverted)
  }

  /** The pods a node adopts when it first appears. */
  function Waiting(m: Model, name: string): set<string> {
    set uid | uid in m.pods && Orphaned(m, uid) && m.pods[uid].nodeName == name
  }

  function UpdateNode(m: Model, node: Node): Model {
    var settled := set uid | uid in Waiting(m, node.name) && IsRunning(m.pods[uid]);
    Model(m.nodes[node.name := node], m.pods, m.assumed - settled)
  }

  /** Assumed pods of a removed node become pending again, all others wait for it as orphans. */
  function RemoveNode(m: Model, name: string): Model {
    var gone := OnNode(m, name).Keys;
    Model(m.nodes - {name},
          map uid | uid in m.pods ::
            if uid in gone && uid in m.assumed then m.pods[uid].(nodeName := "") else m.pods[uid],
          m.assumed - gone)
  }
}
