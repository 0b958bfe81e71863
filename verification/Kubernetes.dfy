/**
 The parts of the Kubernetes objects that the shim reads.
 A resource quantity is an exact decimal, modelled as a real.
 */
module Kubernetes {
  import opened Options

  type ResourceList = map<string, real>

  datatype Phase = Pending | Running | Succeeded | Failed | Unknown

  /** podAntiAffinity carries the number of required anti-affinity terms. */
  datatype Affinity = Affinity(podAffinity: bool, podAntiAffinity: Option<nat>)

  datatype Container = Container(name: string, requests: ResourceList, sidecar: bool)

  datatype ContainerStatus = ContainerStatus(name: string, allocatedResources: ResourceList, resources: Option<ResourceList>)

  datatype Sizing = Sizing(
    containers: seq<Container>,
    initContainers: seq<Container>,
    containerStatuses: seq<ContainerStatus>,
    initContainerStatuses: seq<ContainerStatus>,
    resizeInfeasible: bool,
    podLevel: Option<ResourceList>,
    overhead: Option<ResourceList>)

  /** claims lists the namespaced names of the volume claims the pod mounts, one per volume. */
  datatype Pod = Pod(
    uid: string,
    nodeName: string,
    phase: Phase,
    claims: seq<string>,
    affinity: Option<Affinity>,
    foreign: bool,
    sizing: Sizing)

  datatype Node = Node(name: string, unschedulable: bool, allocatable: ResourceList)

  predicate IsRunning(pod: Pod) {
    pod.phase == Running
  }

  predicate IsTerminated(pod: Pod) {
    pod.phase == Failed || pod.phase == Succeeded
  }

  predicate IsAssigned(pod: Pod) {
    pod.nodeName != ""
  }

  predicate WithAffinity(pod: Pod) {
    pod.affinity.Some? && (pod.affinity.value.podAffinity || pod.affinity.value.podAntiAffinity.Some?)
  }

  predicate WithRequiredAntiAffinity(pod: Pod) {
    pod.affinity.Some? && pod.affinity.value.podAntiAffinity.Some? && pod.affinity.value.podAntiAffinity.value != 0
  }

  /** The fields the API server never lets change during the life of a pod, as far as the cache depends on them. */
  predicate SameFixedFields(a: Pod, b: Pod) {
    a.uid == b.uid && a.claims == b.claims && a.affinity == b.affinity && a.foreign == b.foreign
  }
}
