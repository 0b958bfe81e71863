/**
 Resource arithmetic on signed 64-bit integers, and the size of a pod.
 A resource is a map from resource names to amounts; an absent name is not the same as zero
 for the operations, but reads as zero.
 */
module Resources {
  import opened Options
  import opened Kubernetes

  const MAX_INT64: int := 0x7fff_ffff_ffff_ffff

  /** Two's complement wrap-around of a 64-bit result. */
  function Wrap(x: int): int {
    (x + MAX_INT64 + 1) % (2 * (MAX_INT64 + 1)) - MAX_INT64 - 1
  }

  predicate Fits(x: int) {
    -MAX_INT64 - 1 <= x <= MAX_INT64
  }

  lemma WrapRange(x: int)
    ensures Fits(Wrap(x))
    ensures Wrap(x) == x <==> Fits(x)
  {
  }

  function Ceil(x: real): int {
    -((-x).Floor)
  }

  /** The integer accessors of a quantity round up. */
  function Value(q: real): int {
    Wrap(Ceil(q))
  }

  function MilliValue(q: real): int {
    Wrap(Ceil(1000.0 * q))
  }

  type Resource = map<string, int>

  function Get(r: Resource, key: string): int {
    if key in r then r[key] else 0
  }

  ghost predicate Bounded(r: Resource) {
    forall key :: key in r ==> 0 <= r[key] <= MAX_INT64
  }

  function Sum(left: Resource, right: Resource): Resource {
    map key | key in left.Keys + right.Keys ::
      if key in left && key in right then Wrap(right[key] + left[key])
      else if key in left then left[key] else right[key]
  }

  function Max(left: Resource, right: Resource): Resource {
    map key | key in left.Keys + right.Keys ::
      if key in left && (key !in right || right[key] <= left[key]) then left[key] else right[key]
  }

  /** cpu is kept in milli-units under its own name. */
  function Canonical(name: string): string {
    if name == "cpu" then "vcore" else name
  }

  function Amount(name: string, q: real): int {
    if name == "cpu" then MilliValue(q) else Value(q)
  }

  /** An amount as the accessors round it, without their wrap-around. */
  function Exact(name: string, q: real): int {
    if name == "cpu" then Ceil(1000.0 * q) else Ceil(q)
  }

  /** Rounding is up, by less than one, and of thousandths for cpu. */
  lemma ExactBounds(name: string, q: real)
    ensures var units := if name == "cpu" then 1000.0 * q else q;
            units <= Exact(name, q) as real < units + 1.0
    ensures Amount(name, q) == Exact(name, q) <==> Fits(Exact(name, q))
  {
    WrapRange(Exact(name, q));
  }

  /** Two names of the list end up under one key. */
  predicate CpuCollision(list: ResourceList) {
    "cpu" in list && "vcore" in list
  }

  function FromList(list: ResourceList): Resource {
    map key | key in (set name | name in list :: Canonical(name)) ::
      if key == "vcore" && "cpu" in list then Amount("cpu", list["cpu"]) else Amount(key, list[key])
  }

  ghost function Part(list: ResourceList, names: set<string>): ResourceList {
    map name | name in list && name in names :: list[name]
  }

  /** When the list names both, cpu counts. */
  lemma FromListStep(list: ResourceList, names: set<string>, name: string)
    requires name in list && name !in names
    ensures FromList(Part(list, names + {name}))
         == if name == "vcore" && "cpu" in Part(list, names) then FromList(Part(list, names))
            else FromList(Part(list, names))[Canonical(name) := Amount(name, list[name])]
  {
    var before, after := Part(list, names), Part(list, names + {name});
    assert after.Keys == before.Keys + {name};
  }

  /** Entries are visited in any order, so a list naming both cpu and vcore may give either. */
  ghost predicate Resolves(list: ResourceList, v: Resource) {
    || v == FromList(list)
    || (CpuCollision(list) && v == FromList(list)["vcore" := Amount("vcore", list["vcore"])])
  }

  lemma ResolvesStep(list: ResourceList, names: set<string>, name: string, v: Resource)
    requires name in list && name !in names && Resolves(Part(list, names), v)
    ensures Resolves(Part(list, names + {name}), v[Canonical(name) := Amount(name, list[name])])
  {
    FromListStep(list, names, name);
  }

  lemma FromListAmount(list: ResourceList, key: string)
    requires !CpuCollision(list)
    ensures Get(FromList(list), key)
         == if key == "vcore" && "cpu" in list then Amount("cpu", list["cpu"])
            else if key in list && key != "cpu" then Amount(key, list[key])
            else 0
  {
    assert key != "cpu" && key in list ==> key == Canonical(key);
    assert "cpu" in list ==> Canonical("cpu") in FromList(list);
  }

  // ---------------------------------------------------------------------------------------------
  // Containers

  function StatusMap(statuses: seq<ContainerStatus>): map<string, ContainerStatus> {
    if statuses == [] then map[]
    else StatusMap(statuses[..|statuses| - 1])[statuses[|statuses| - 1].name := statuses[|statuses| - 1]]
  }

  function Statuses(s: Sizing): map<string, ContainerStatus> {
    StatusMap(s.containerStatuses + s.initContainerStatuses)
  }

  /** The largest of what a container asks for, was given and holds; only what it holds if its resize is infeasible. */
  function Required(s: Sizing, c: Container): Resource {
    var asked := FromList(c.requests);
    if c.name !in Statuses(s) then asked
    else
      var status := Statuses(s)[c.name];
      if s.resizeInfeasible && status.resources.Some? then FromList(status.resources.value)
      else
        var given := Max(asked, FromList(status.allocatedResources));
        if status.resources.Some? then Max(given, FromList(status.resources.value)) else given
  }

  // ---------------------------------------------------------------------------------------------
  // Init containers and native sidecars

  datatype Init = Init(resource: Resource, sidecar: bool)

  function SumAll(start: Resource, rs: seq<Resource>): Resource {
    if rs == [] then start else Sum(SumAll(start, rs[..|rs| - 1]), rs[|rs| - 1])
  }

  /** What the sidecars among these init containers keep using. */
  function SidecarRequests(inits: seq<Init>): Resource {
    if inits == [] then map[]
    else
      var before, last := SidecarRequests(inits[..|inits| - 1]), inits[|inits| - 1];
      if last.sidecar then Sum(before, last.resource) else before
  }

  /** The most that is in use while the init containers run one after the other. */
  function InitMax(inits: seq<Init>): Resource {
    if inits == [] then map[]
    else
      var init, last := inits[..|inits| - 1], inits[|inits| - 1];
      Max(InitMax(init), Sum(last.resource, SidecarRequests(init)))
  }

  function Sized(containers: Resource, inits: seq<Init>): Resource {
    Max(Sum(containers, SidecarRequests(inits)), InitMax(inits))
  }

  // ---------------------------------------------------------------------------------------------
  // The closed form, on unbounded integers

  function Total(start: Resource, rs: seq<Resource>, key: string): int {
    if rs == [] then Get(start, key) else Total(start, rs[..|rs| - 1], key) + Get(rs[|rs| - 1], key)
  }

  function Sidecars(inits: seq<Init>, key: string): int {
    if inits == [] then 0
    else
      var before, last := Sidecars(inits[..|inits| - 1], key), inits[|inits| - 1];
      if last.sidecar then before + Get(last.resource, key) else before
  }

  function Larger(a: int, b: int): int {
    if a < b then b else a
  }

  /** The largest of: init container i plus the sidecars started before it. */
  function Peak(inits: seq<Init>, key: string): int {
    if inits == [] then 0
    else
      var init, last := inits[..|inits| - 1], inits[|inits| - 1];
      Larger(Peak(init, key), Get(last.resource, key) + Sidecars(init, key))
  }

  function ClosedForm(start: Resource, rs: seq<Resource>, inits: seq<Init>, key: string): int {
    Larger(Total(start, rs, key) + Sidecars(inits, key), Peak(inits, key))
  }

  ghost predicate AllBounded(rs: seq<Resource>) {
    forall r :: r in rs ==> Bounded(r)
  }

  ghost predicate AllInitsBounded(inits: seq<Init>) {
    forall i :: 0 <= i < |inits| ==> Bounded(inits[i].resource)
  }

  ghost predicate InRange(r: Resource) {
    forall key :: key in r ==> Fits(r[key])
  }

  lemma GetSum(left: Resource, right: Resource, key: string)
    requires InRange(left) && InRange(right)
    ensures InRange(Sum(left, right))
    ensures Fits(Get(left, key) + Get(right, key)) ==> Get(Sum(left, right), key) == Get(left, key) + Get(right, key)
  {
    forall k | k in Sum(left, right) ensures Fits(Sum(left, right)[k]) {
      if k in left && k in right { WrapRange(right[k] + left[k]); }
    }
    WrapRange(Get(left, key) + Get(right, key));
  }

  lemma GetMax(left: Resource, right: Resource, key: string)
    requires InRange(left) && InRange(right)
    ensures InRange(Max(left, right))
    ensures Get(left, key) >= 0 && Get(right, key) >= 0 ==> Get(Max(left, right), key) == Larger(Get(left, key), Get(right, key))
  {
  }

  lemma {:induction false} SumAllExact(start: Resource, rs: seq<Resource>, key: string)
    requires Bounded(start) && AllBounded(rs)
    ensures InRange(SumAll(start, rs)) && Total(start, rs, key) >= 0
    ensures Total(start, rs, key) <= MAX_INT64 ==> Get(SumAll(start, rs), key) == Total(start, rs, key)
  {
    if rs != [] {
      var init, last := rs[..|rs| - 1], rs[|rs| - 1];
      assert last in rs;
      SumAllExact(start, init, key);
      GetSum(SumAll(start, init), last, key);
    }
  }

  lemma {:induction false} SidecarsExact(inits: seq<Init>, key: string)
    requires AllInitsBounded(inits)
    ensures InRange(SidecarRequests(inits)) && Sidecars(inits, key) >= 0
    ensures Sidecars(inits, key) <= MAX_INT64 ==> Get(SidecarRequests(inits), key) == Sidecars(inits, key)
  {
    if inits != [] {
      var init, last := inits[..|inits| - 1], inits[|inits| - 1];
      SidecarsExact(init, key);
      GetSum(SidecarRequests(init), last.resource, key);
    }
  }

  lemma {:induction false} PeakExact(inits: seq<Init>, key: string)
    requires AllInitsBounded(inits)
    ensures InRange(InitMax(inits)) && Peak(inits, key) >= 0
    ensures Peak(inits, key) <= MAX_INT64 ==> Get(InitMax(inits), key) == Peak(inits, key)
  {
    if inits != [] {
      var init, last := inits[..|inits| - 1], inits[|inits| - 1];
      PeakExact(init, key);
      SidecarsExact(init, key);
      GetSum(last.resource, SidecarRequests(init), key);
      GetMax(InitMax(init), Sum(last.resource, SidecarRequests(init)), key);
    }
  }

  /** What is in use while init container i runs: itself and the sidecars started before it. */
  function InUse(inits: seq<Init>, i: nat, key: string): int
    requires i < |inits|
  {
    Get(inits[i].resource, key) + Sidecars(inits[..i], key)
  }

  lemma InUseBefore(inits: seq<Init>, n: nat, i: nat, key: string)
    requires i < n <= |inits|
    ensures InUse(inits[..n], i, key) == InUse(inits, i, key)
  {
    assert inits[..n][..i] == inits[..i];
  }

  /** The peak is the largest of these. */
  lemma {:induction false} PeakIsMaximum(inits: seq<Init>, key: string)
    requires AllInitsBounded(inits)
    ensures forall i :: 0 <= i < |inits| ==> InUse(inits, i, key) <= Peak(inits, key)
    ensures inits != [] ==> exists i :: 0 <= i < |inits| && InUse(inits, i, key) == Peak(inits, key)
  {
    if inits != [] {
      var n := |inits| - 1;
      var init := inits[..n];
      forall i | 0 <= i < n ensures InUse(init, i, key) == InUse(inits, i, key) { InUseBefore(inits, n, i, key); }
      PeakIsMaximum(init, key);
      SidecarsExact(init, key);
      assert Peak(inits, key) == Larger(Peak(init, key), InUse(inits, n, key));
      if init != [] && Peak(inits, key) == Peak(init, key) {
        var i :| 0 <= i < n && InUse(init, i, key) == Peak(init, key);
        assert InUse(inits, i, key) == Peak(inits, key);
      } else {
        assert InUse(inits, n, key) == Peak(inits, key);
      }
    }
  }

  /** The loop over the init containers computes the closed form of every resource exactly when that fits 64 bits. */
  lemma SizingClosedForm(start: Resource, rs: seq<Resource>, inits: seq<Init>, key: string)
    requires Bounded(start) && AllBounded(rs) && AllInitsBounded(inits)
    ensures Get(Sized(SumAll(start, rs), inits), key) == ClosedForm(start, rs, inits, key)
       <==> ClosedForm(start, rs, inits, key) <= MAX_INT64
  {
    SumAllExact(start, rs, key);
    SidecarsExact(inits, key);
    PeakExact(inits, key);
    GetSum(SumAll(start, rs), SidecarRequests(inits), key);
    GetMax(Sum(SumAll(start, rs), SidecarRequests(inits)), InitMax(inits), key);
  }

  // ---------------------------------------------------------------------------------------------
  // Monotonicity

  ghost predicate NoMore(a: Resource, b: Resource) {
    forall key :: Get(a, key) <= Get(b, key)
  }

  ghost predicate NoMoreEach(rs: seq<Resource>, rs': seq<Resource>) {
    |rs| == |rs'| && forall i :: 0 <= i < |rs| ==> NoMore(rs[i], rs'[i])
  }

  ghost predicate NoMoreInits(inits: seq<Init>, inits': seq<Init>) {
    && |inits| == |inits'|
    && forall i :: 0 <= i < |inits| ==> inits[i].sidecar == inits'[i].sidecar && NoMore(inits[i].resource, inits'[i].resource)
  }

  lemma {:induction false} TotalMonotone(start: Resource, rs: seq<Resource>, start': Resource, rs': seq<Resource>, key: string)
    requires NoMore(start, start') && NoMoreEach(rs, rs')
    ensures Total(start, rs, key) <= Total(start', rs', key)
  {
    if rs != [] {
      TotalMonotone(start, rs[..|rs| - 1], start', rs'[..|rs| - 1], key);
    }
  }

  lemma {:induction false} InitsMonotone(inits: seq<Init>, inits': seq<Init>, key: string)
    requires NoMoreInits(inits, inits')
    ensures Sidecars(inits, key) <= Sidecars(inits', key) && Peak(inits, key) <= Peak(inits', key)
  {
    if inits != [] {
      InitsMonotone(inits[..|inits| - 1], inits'[..|inits| - 1], key);
    }
  }

  lemma FoldMonotone(start: Resource, rs: seq<Resource>, inits: seq<Init>,
                     start': Resource, rs': seq<Resource>, inits': seq<Init>, key: string)
    requires Bounded(start) && AllBounded(rs) && AllInitsBounded(inits)
    requires Bounded(start') && AllBounded(rs') && AllInitsBounded(inits')
    requires NoMore(start, start') && NoMoreEach(rs, rs') && NoMoreInits(inits, inits')
    requires ClosedForm(start', rs', inits', key) <= MAX_INT64
    ensures Get(Sized(SumAll(start, rs), inits), key) <= Get(Sized(SumAll(start', rs'), inits'), key)
  {
    TotalMonotone(start, rs, start', rs', key);
    InitsMonotone(inits, inits', key);
    SizingClosedForm(start, rs, inits, key);
    SizingClosedForm(start', rs', inits', key);
  }

  // ---------------------------------------------------------------------------------------------
  // The whole pod

  function RequiredAll(s: Sizing, cs: seq<Container>): seq<Resource> {
    if cs == [] then [] else RequiredAll(s, cs[..|cs| - 1]) + [Required(s, cs[|cs| - 1])]
  }

  function InitsOf(s: Sizing, cs: seq<Container>): seq<Init> {
    if cs == [] then []
    else InitsOf(s, cs[..|cs| - 1]) + [Init(Required(s, cs[|cs| - 1]), cs[|cs| - 1].sidecar)]
  }

  /** Only these can be set for the pod as a whole. */
  predicate SupportedPodLevel(name: string) {
    name == "cpu" || name == "memory" || "hugepages-" <= name
  }

  function Supported(list: ResourceList): ResourceList {
    map name | name in list && SupportedPodLevel(name) :: list[name]
  }

  function PodLevel(list: ResourceList): Resource {
    FromList(Supported(list))
  }

  const ONE_POD: Resource := map["pods" := 1]

  function ContainerSize(s: Sizing): Resource {
    Sized(SumAll(ONE_POD, RequiredAll(s, s.containers)), InitsOf(s, s.initContainers))
  }

  function PodResource(pod: Pod): Resource {
    var s := pod.sizing;
    var base := ContainerSize(s);
    var overridden := if s.podLevel.Some? then base + PodLevel(s.podLevel.value) else base;
    if s.overhead.Some? then Sum(overridden, FromList(s.overhead.value)) else overridden
  }

  // ---------------------------------------------------------------------------------------------
  // Monotonicity in the requests

  /** Amounts that are not negative and fit 64 bits. */
  ghost predicate Sizeable(list: ResourceList) {
    !CpuCollision(list) && forall name :: name in list ==> list[name] >= 0.0 && Exact(name, list[name]) <= MAX_INT64
  }

  ghost predicate NoMoreList(list: ResourceList, list': ResourceList) {
    forall name :: name in list ==> name in list' && list[name] <= list'[name]
  }

  lemma AmountMonotone(name: string, q: real, q': real)
    requires 0.0 <= q <= q' && Exact(name, q') <= MAX_INT64
    ensures 0 <= Amount(name, q) <= Amount(name, q') <= MAX_INT64
  {
    WrapRange(Exact(name, q));
    WrapRange(Exact(name, q'));
  }

  lemma FromListBounded(list: ResourceList)
    requires Sizeable(list)
    ensures Bounded(FromList(list))
  {
    forall key | key in FromList(list) ensures 0 <= FromList(list)[key] <= MAX_INT64 {
      var name :| name in list && Canonical(name) == key;
      AmountMonotone(name, list[name], list[name]);
    }
  }

  lemma FromListMonotone(list: ResourceList, list': ResourceList)
    requires Sizeable(list) && Sizeable(list') && NoMoreList(list, list')
    ensures NoMore(FromList(list), FromList(list'))
  {
    FromListBounded(list');
    forall key ensures Get(FromList(list), key) <= Get(FromList(list'), key) {
      FromListAmount(list, key);
      FromListAmount(list', key);
      var name := if key == "vcore" && "cpu" in list then "cpu" else key;
      if name in list { AmountMonotone(name, list[name], list'[name]); }
    }
  }

  lemma MaxBounded(left: Resource, right: Resource)
    requires Bounded(left) && Bounded(right)
    ensures Bounded(Max(left, right))
  {
  }

  lemma MaxMonotone(left: Resource, left': Resource, right: Resource)
    requires Bounded(left) && Bounded(left') && Bounded(right) && NoMore(left, left')
    ensures NoMore(Max(left, right), Max(left', right))
  {
    forall key ensures Get(Max(left, right), key) <= Get(Max(left', right), key) {
      assert Get(left, key) <= Get(left', key);
    }
  }

  ghost predicate SizeableStatus(status: ContainerStatus) {
    Sizeable(status.allocatedResources) && (status.resources.Some? ==> Sizeable(status.resources.value))
  }

  ghost predicate SizeableAll(s: Sizing) {
    && (forall c :: c in s.containers + s.initContainers ==> Sizeable(c.requests))
    && (forall name :: name in Statuses(s) ==> SizeableStatus(Statuses(s)[name]))
  }

  ghost predicate SameStatuses(s: Sizing, s': Sizing) {
    Statuses(s) == Statuses(s') && s.resizeInfeasible == s'.resizeInfeasible
  }

  /** The same container with the same or higher requests. */
  ghost predicate Raised(c: Container, c': Container) {
    c.name == c'.name && c.sidecar == c'.sidecar && NoMoreList(c.requests, c'.requests)
  }

  ghost predicate RaisedEach(cs: seq<Container>, cs': seq<Container>) {
    |cs| == |cs'| && forall i :: 0 <= i < |cs| ==> Raised(cs[i], cs'[i])
  }

  lemma RequiredBounded(s: Sizing, c: Container)
    requires SizeableAll(s) && Sizeable(c.requests)
    ensures Bounded(Required(s, c))
  {
    FromListBounded(c.requests);
    if c.name in Statuses(s) {
      var status := Statuses(s)[c.name];
      assert SizeableStatus(status);
      FromListBounded(status.allocatedResources);
      MaxBounded(FromList(c.requests), FromList(status.allocatedResources));
      if status.resources.Some? {
        FromListBounded(status.resources.value);
        MaxBounded(Max(FromList(c.requests), FromList(status.allocatedResources)), FromList(status.resources.value));
      }
    }
  }

  /** What a container needs only grows with what it asks for. */
  lemma RequiredMonotone(s: Sizing, c: Container, s': Sizing, c': Container)
    requires SizeableAll(s) && Sizeable(c.requests) && Sizeable(c'.requests) && SameStatuses(s, s') && Raised(c, c')
    ensures NoMore(Required(s, c), Required(s', c'))
  {
    var asked, asked' := FromList(c.requests), FromList(c'.requests);
    FromListBounded(c.requests);
    FromListBounded(c'.requests);
    FromListMonotone(c.requests, c'.requests);
    if c.name in Statuses(s) {
      var status := Statuses(s)[c.name];
      assert SizeableStatus(status);
      var given := FromList(status.allocatedResources);
      FromListBounded(status.allocatedResources);
      MaxBounded(asked, given);
      MaxBounded(asked', given);
      MaxMonotone(asked, asked', given);
      if status.resources.Some? {
        FromListBounded(status.resources.value);
        MaxMonotone(Max(asked, given), Max(asked', given), FromList(status.resources.value));
      }
    }
  }

  lemma {:induction false} RequiredAllMonotone(s: Sizing, cs: seq<Container>, s': Sizing, cs': seq<Container>)
    requires SizeableAll(s) && SizeableAll(s') && SameStatuses(s, s') && RaisedEach(cs, cs')
    requires forall i :: 0 <= i < |cs| ==> Sizeable(cs[i].requests) && Sizeable(cs'[i].requests)
    ensures AllBounded(RequiredAll(s, cs)) && AllBounded(RequiredAll(s', cs'))
    ensures NoMoreEach(RequiredAll(s, cs), RequiredAll(s', cs'))
    ensures AllInitsBounded(InitsOf(s, cs)) && AllInitsBounded(InitsOf(s', cs'))
    ensures NoMoreInits(InitsOf(s, cs), InitsOf(s', cs'))
  {
    if cs != [] {
      var n := |cs| - 1;
      RequiredAllMonotone(s, cs[..n], s', cs'[..n]);
      assert Raised(cs[n], cs'[n]);
      RequiredBounded(s, cs[n]);
      RequiredBounded(s', cs'[n]);
      RequiredMonotone(s, cs[n], s', cs'[n]);
    }
  }

  /** Raising any request of any container never makes the pod smaller, as long as the larger pod fits 64 bits. */
  lemma SizingMonotone(s: Sizing, s': Sizing, key: string)
    requires SizeableAll(s) && SizeableAll(s') && SameStatuses(s, s')
    requires RaisedEach(s.containers, s'.containers) && RaisedEach(s.initContainers, s'.initContainers)
    requires ClosedForm(ONE_POD, RequiredAll(s', s'.containers), InitsOf(s', s'.initContainers), key) <= MAX_INT64
    ensures Get(ContainerSize(s), key) <= Get(ContainerSize(s'), key)
  {
    RequiredAllMonotone(s, s.containers, s', s'.containers);
    RequiredAllMonotone(s, s.initContainers, s', s'.initContainers);
    FoldMonotone(ONE_POD, RequiredAll(s, s.containers), InitsOf(s, s.initContainers),
                 ONE_POD, RequiredAll(s', s'.containers), InitsOf(s', s'.initContainers), key);
  }
}
