/**
 The size of a pod read off its quantities alone: what each container needs, and what the whole
 pod does, on unbounded integers.
 */
module PodNeeds {
  import opened Options
  import opened Kubernetes
  import opened Resources

  /** How much of a resource a list names. */
  function Listed(list: ResourceList, key: string): int {
    if key == "vcore" && "cpu" in list then Exact("cpu", list["cpu"])
    else if key in list && key != "cpu" then Exact(key, list[key])
    else 0
  }

  lemma ListedIsRead(list: ResourceList, key: string)
    requires Sizeable(list)
    ensures Get(FromList(list), key) == Listed(list, key) && 0 <= Listed(list, key) <= MAX_INT64
    ensures key in FromList(list) <==> if key == "vcore" then "cpu" in list || key in list else key in list && key != "cpu"
  {
    FromListAmount(list, key);
    var name := if key == "vcore" && "cpu" in list then "cpu" else key;
    if name in list { AmountMonotone(name, list[name], list[name]); }
    if name in list { ExactBounds(name, list[name]); }
    assert key in FromList(list) <==> exists n :: n in list && Canonical(n) == key;
    assert "cpu" in list ==> Canonical("cpu") == "vcore";
    assert key in list && key != "cpu" ==> Canonical(key) == key;
  }

  /** The last status of this name. */
  function StatusOf(statuses: seq<ContainerStatus>, name: string): Option<ContainerStatus> {
    if statuses == [] then None
    else if statuses[|statuses| - 1].name == name then Some(statuses[|statuses| - 1])
    else StatusOf(statuses[..|statuses| - 1], name)
  }

  lemma {:induction false} LastStatusCounts(statuses: seq<ContainerStatus>, name: string)
    ensures StatusOf(statuses, name) == if name in StatusMap(statuses) then Some(StatusMap(statuses)[name]) else None
  {
    if statuses != [] { LastStatusCounts(statuses[..|statuses| - 1], name); }
  }

  /** What a container needs of a resource: while a resize is impossible what it holds, else the most of what it asks for,
      what it was given and what it holds. */
  function Need(s: Sizing, c: Container, key: string): int {
    match StatusOf(s.containerStatuses + s.initContainerStatuses, c.name)
    case None => Listed(c.requests, key)
    case Some(status) =>
      var held := if status.resources.Some? then Listed(status.resources.value, key) else 0;
      if s.resizeInfeasible && status.resources.Some? then held
      else Larger(Larger(Listed(c.requests, key), Listed(status.allocatedResources, key)), held)
  }

  lemma RequiredIsNeed(s: Sizing, c: Container, key: string)
    requires SizeableAll(s) && Sizeable(c.requests)
    ensures Get(Required(s, c), key) == Need(s, c, key)
  {
    LastStatusCounts(s.containerStatuses + s.initContainerStatuses, c.name);
    ListedIsRead(c.requests, key);
    FromListBounded(c.requests);
    if c.name in Statuses(s) {
      var status := Statuses(s)[c.name];
      assert SizeableStatus(status);
      ListedIsRead(status.allocatedResources, key);
      FromListBounded(status.allocatedResources);
      var given := Max(FromList(c.requests), FromList(status.allocatedResources));
      GetMax(FromList(c.requests), FromList(status.allocatedResources), key);
      if status.resources.Some? {
        ListedIsRead(status.resources.value, key);
        FromListBounded(status.resources.value);
        GetMax(given, FromList(status.resources.value), key);
      }
    }
  }

  function Needs(s: Sizing, cs: seq<Container>, key: string): int {
    if cs == [] then 0 else Needs(s, cs[..|cs| - 1], key) + Need(s, cs[|cs| - 1], key)
  }

  function SidecarNeeds(s: Sizing, cs: seq<Container>, key: string): int {
    if cs == [] then 0
    else SidecarNeeds(s, cs[..|cs| - 1], key) + if cs[|cs| - 1].sidecar then Need(s, cs[|cs| - 1], key) else 0
  }

  /** The most that one init container needs together with the sidecars started before it. */
  function InitPeak(s: Sizing, cs: seq<Container>, key: string): int {
    if cs == [] then 0
    else Larger(InitPeak(s, cs[..|cs| - 1], key), Need(s, cs[|cs| - 1], key) + SidecarNeeds(s, cs[..|cs| - 1], key))
  }

  ghost predicate SizeableEach(cs: seq<Container>) {
    forall c :: c in cs ==> Sizeable(c.requests)
  }

  lemma {:induction false} TotalIsNeeds(s: Sizing, cs: seq<Container>, key: string)
    requires SizeableAll(s) && SizeableEach(cs)
    ensures AllBounded(RequiredAll(s, cs))
    ensures Total(ONE_POD, RequiredAll(s, cs), key) == Needs(s, cs, key) + if key == "pods" then 1 else 0
  {
    if cs != [] {
      var init, last := cs[..|cs| - 1], cs[|cs| - 1];
      assert last in cs;
      TotalIsNeeds(s, init, key);
      RequiredIsNeed(s, last, key);
      RequiredBounded(s, last);
      assert RequiredAll(s, cs)[..|RequiredAll(s, cs)| - 1] == RequiredAll(s, init);
    }
  }

  lemma {:induction false} InitsAreNeeds(s: Sizing, cs: seq<Container>, key: string)
    requires SizeableAll(s) && SizeableEach(cs)
    ensures AllInitsBounded(InitsOf(s, cs))
    ensures Sidecars(InitsOf(s, cs), key) == SidecarNeeds(s, cs, key) && Peak(InitsOf(s, cs), key) == InitPeak(s, cs, key)
  {
    if cs != [] {
      var init, last := cs[..|cs| - 1], cs[|cs| - 1];
      assert last in cs;
      InitsAreNeeds(s, init, key);
      RequiredIsNeed(s, last, key);
      RequiredBounded(s, last);
      assert InitsOf(s, cs)[..|InitsOf(s, cs)| - 1] == InitsOf(s, init);
    }
  }

  /** What the containers need: all of them beside the sidecars, or one init container beside the sidecars before it. */
  function ContainersNeed(s: Sizing, key: string): int {
    Larger((if key == "pods" then 1 else 0) + Needs(s, s.containers, key) + SidecarNeeds(s, s.initContainers, key),
           InitPeak(s, s.initContainers, key))
  }

  lemma ContainerSizeIff(s: Sizing, key: string)
    requires SizeableAll(s)
    ensures Get(ContainerSize(s), key) == ContainersNeed(s, key) <==> ContainersNeed(s, key) <= MAX_INT64
    ensures InRange(ContainerSize(s)) && ContainersNeed(s, key) >= 0
  {
    var rs, inits := RequiredAll(s, s.containers), InitsOf(s, s.initContainers);
    TotalIsNeeds(s, s.containers, key);
    InitsAreNeeds(s, s.initContainers, key);
    SizingClosedForm(ONE_POD, rs, inits, key);
    SizedInRange(rs, inits, key);
  }

  lemma SizedInRange(rs: seq<Resource>, inits: seq<Init>, key: string)
    requires AllBounded(rs) && AllInitsBounded(inits)
    ensures InRange(Sized(SumAll(ONE_POD, rs), inits)) && ClosedForm(ONE_POD, rs, inits, key) >= 0
  {
    SumAllExact(ONE_POD, rs, key);
    SidecarsExact(inits, key);
    PeakExact(inits, key);
    GetSum(SumAll(ONE_POD, rs), SidecarRequests(inits), key);
    GetMax(Sum(SumAll(ONE_POD, rs), SidecarRequests(inits)), InitMax(inits), key);
  }

  /** The pod as a whole is given an amount of this resource: of cpu, memory or huge pages. */
  predicate SetForPod(s: Sizing, key: string) {
    s.podLevel.Some? &&
    if key == "vcore" then "cpu" in s.podLevel.value
    else key in s.podLevel.value && key != "cpu" && (key == "memory" || "hugepages-" <= key)
  }

  /** An amount set for the pod replaces what its containers need; the overhead comes on top. */
  function PodNeed(s: Sizing, key: string): int {
    (if SetForPod(s, key) then Listed(s.podLevel.value, key) else ContainersNeed(s, key))
    + if s.overhead.Some? then Listed(s.overhead.value, key) else 0
  }

  ghost predicate SizeablePod(s: Sizing) {
    && SizeableAll(s)
    && (s.podLevel.Some? ==> Sizeable(Supported(s.podLevel.value)))
    && (s.overhead.Some? ==> Sizeable(s.overhead.value))
  }

  lemma PodLevelIsRead(s: Sizing, key: string)
    requires s.podLevel.Some? && Sizeable(Supported(s.podLevel.value))
    ensures Bounded(PodLevel(s.podLevel.value)) && (key in PodLevel(s.podLevel.value) <==> SetForPod(s, key))
    ensures SetForPod(s, key) ==> PodLevel(s.podLevel.value)[key] == Listed(s.podLevel.value, key)
  {
    FromListBounded(Supported(s.podLevel.value));
    ListedIsRead(Supported(s.podLevel.value), key);
  }

  lemma OverheadOnTop(r: Resource, list: ResourceList, key: string)
    requires InRange(r) && Sizeable(list)
    ensures Fits(Get(r, key) + Listed(list, key)) ==> Get(Sum(r, FromList(list)), key) == Get(r, key) + Listed(list, key)
    ensures InRange(Sum(r, FromList(list)))
  {
    FromListBounded(list);
    ListedIsRead(list, key);
    GetSum(r, FromList(list), key);
  }

  /** The size that is computed of a pod is what it needs, of every resource, exactly when that fits 64 bits. */
  lemma PodSizeIsNeed(pod: Pod, key: string)
    requires SizeablePod(pod.sizing)
    ensures Get(PodResource(pod), key) == PodNeed(pod.sizing, key) <==> PodNeed(pod.sizing, key) <= MAX_INT64
  {
    var s := pod.sizing;
    ContainerSizeIff(s, key);
    if s.podLevel.Some? { PodLevelIsRead(s, key); }
    var r := if s.podLevel.Some? then ContainerSize(s) + PodLevel(s.podLevel.value) else ContainerSize(s);
    assert InRange(r);
    if s.overhead.Some? {
      ListedIsRead(s.overhead.value, key);
      OverheadOnTop(r, s.overhead.value, key);
    }
    assert InRange(PodResource(pod));
  }
}
