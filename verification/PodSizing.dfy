/**
 The functions that size a pod, on the shared objects of the scheduler interface: a resource
 holds pointers to quantities, and results share quantities with their inputs. No method here may
 change a quantity, so no result can change an earlier one.
 */
module PodSizing {
  import opened Options
  import opened Kubernetes
  import R = Resources

  class Quantity {
    var value: int

    constructor (value: int)
      ensures this.value == value
    {
      this.value := value;
    }
  }

  class SiResource {
    var resources: map<string, Quantity>

    constructor ()
      ensures resources == map[]
    {
      resources := map[];
    }

    /** The amounts this resource shows. */
    ghost predicate Shows(v: R.Resource)
      reads this, resources.Values
    {
      resources.Keys == v.Keys && forall key :: key in v ==> resources[key].value == v[key]
    }
  }

  /** A missing resource shows nothing. */
  ghost predicate Amounts(r: SiResource?, v: R.Resource)
    reads r, if r == null then {} else r.resources.Values
  {
    if r == null then v == map[] else r.Shows(v)
  }

  function AddTo(r: R.Resource, key: string, amount: int): R.Resource {
    r[key := if key in r then R.Wrap(r[key] + amount) else amount]
  }

  function RaiseTo(r: R.Resource, key: string, amount: int): R.Resource {
    if key !in r || amount > r[key] then r[key := amount] else r
  }

  lemma SumStep(left: R.Resource, right: R.Resource, todo: set<string>, key: string)
    requires key in todo && todo <= left.Keys
    ensures R.Sum(left - (todo - {key}), right) == AddTo(R.Sum(left - todo, right), key, left[key])
  {
  }

  lemma MaxStep(left: R.Resource, right: R.Resource, todo: set<string>, key: string)
    requires key in todo && todo <= right.Keys
    ensures R.Max(left, right - (todo - {key})) == RaiseTo(R.Max(left, right - todo), key, right[key])
  {
  }

  /** A sum goes into a new quantity; an amount found on one side only is shared with that side. */
  method AddEntry(result: SiResource, key: string, v: Quantity, ghost r: R.Resource)
    requires result.Shows(r)
    modifies result
    ensures result.Shows(AddTo(r, key, v.value))
  {
    if key in result.resources {
      var q := new Quantity(R.Wrap(result.resources[key].value + v.value));
      result.resources := result.resources[key := q];
    } else {
      result.resources := result.resources[key := v];
    }
  }

  method AddInto(result: SiResource, left: map<string, Quantity>, ghost l: R.Resource, ghost r: R.Resource)
    requires l.Keys == left.Keys && forall key :: key in left ==> left[key].value == l[key]
    requires result.Shows(r)
    modifies result
    ensures result.Shows(R.Sum(l, r))
  {
    var todo := left.Keys;
    assert R.Sum(l - todo, r) == r;
    while todo != {}
      invariant todo <= left.Keys
      invariant forall key :: key in left ==> left[key].value == l[key]
      invariant result.Shows(R.Sum(l - todo, r))
      decreases todo
    {
      var key :| key in todo;
      SumStep(l, r, todo, key);
      AddEntry(result, key, left[key], R.Sum(l - todo, r));
      todo := todo - {key};
    }
    assert l - {} == l;
  }

  method Add(left: SiResource?, right: SiResource?, ghost l: R.Resource, ghost r: R.Resource)
    returns (result: SiResource)
    requires Amounts(left, l) && Amounts(right, r)
    ensures fresh(result) && result.Shows(R.Sum(l, r))
  {
    result := new SiResource();
    if right != null {
      result.resources := right.resources;
    }
    if left != null {
      AddInto(result, left.resources, l, r);
    } else {
      assert R.Sum(l, r) == r;
    }
  }

  method RaiseEntry(result: SiResource, key: string, v: Quantity, ghost r: R.Resource)
    requires result.Shows(r)
    modifies result
    ensures result.Shows(RaiseTo(r, key, v.value))
  {
    if key !in result.resources || v.value > result.resources[key].value {
      result.resources := result.resources[key := v];
    }
  }

  method UpdateMax(left: SiResource, right: SiResource, ghost l: R.Resource, ghost r: R.Resource)
    requires left.Shows(l) && right.Shows(r)
    modifies left
    ensures left.Shows(R.Max(l, r))
  {
    var from := right.resources;
    var todo := from.Keys;
    assert R.Max(l, r - todo) == l;
    while todo != {}
      invariant todo <= from.Keys
      invariant forall key :: key in from ==> from[key].value == r[key]
      invariant left.Shows(R.Max(l, r - todo))
      decreases todo
    {
      var key :| key in todo;
      MaxStep(l, r, todo, key);
      RaiseEntry(left, key, from[key], R.Max(l, r - todo));
      todo := todo - {key};
    }
    assert r - {} == r;
  }

  method PutEntry(result: SiResource, key: string, amount: int, ghost v: R.Resource)
    requires result.Shows(v)
    modifies result
    ensures result.Shows(v[key := amount])
  {
    var q := new Quantity(amount);
    result.resources := result.resources[key := q];
  }

  method GetResource(list: ResourceList) returns (result: SiResource, ghost v: R.Resource)
    ensures fresh(result) && result.Shows(v) && R.Resolves(list, v)
  {
    result := new SiResource();
    v := map[];
    ghost var done: set<string> := {};
    var todo := list.Keys;
    while todo != {}
      invariant fresh(result) && todo <= list.Keys && done == list.Keys - todo
      invariant result.Shows(v) && R.Resolves(R.Part(list, done), v)
      decreases todo
    {
      var name :| name in todo;
      R.ResolvesStep(list, done, name, v);
      PutEntry(result, R.Canonical(name), R.Amount(name, list[name]), v);
      v := v[R.Canonical(name) := R.Amount(name, list[name])];
      todo := todo - {name};
      done := done + {name};
    }
    assert R.Part(list, done) == list;
  }

  ghost predicate StatusWellNamed(st: ContainerStatus) {
    !R.CpuCollision(st.allocatedResources) && (st.resources.Some? ==> !R.CpuCollision(st.resources.value))
  }

  /** The API server refuses vcore as the name of a resource. */
  ghost predicate WellNamed(s: Sizing) {
    && (forall c :: c in s.containers + s.initContainers ==> !R.CpuCollision(c.requests))
    && (forall st :: st in s.containerStatuses + s.initContainerStatuses ==> StatusWellNamed(st))
    && (s.podLevel.Some? ==> !R.CpuCollision(s.podLevel.value))
    && (s.overhead.Some? ==> !R.CpuCollision(s.overhead.value))
  }

  /** Of two statuses with one name the later one counts. */
  method BuildStatuses(s: Sizing) returns (statuses: map<string, ContainerStatus>)
    ensures statuses == R.Statuses(s)
  {
    statuses := map[];
    var all := s.containerStatuses + s.initContainerStatuses;
    for i := 0 to |all|
      invariant statuses == R.StatusMap(all[..i])
    {
      assert all[..i + 1][..i] == all[..i];
      statuses := statuses[all[i].name := all[i]];
    }
    assert all[..|all|] == all;
  }

  lemma {:induction false} StatusMapMember(statuses: seq<ContainerStatus>, name: string)
    requires name in R.StatusMap(statuses)
    ensures R.StatusMap(statuses)[name] in statuses
  {
    if statuses[|statuses| - 1].name != name {
      StatusMapMember(statuses[..|statuses| - 1], name);
    }
  }

  // ---------------------------------------------------------------------------------------------
  // What sizes a pod can get, and when there is only one

  /** What the code can make of a container, entries being visited in any order. */
  ghost predicate CanRequire(s: Sizing, c: Container, v: R.Resource) {
    if c.name !in R.Statuses(s) then R.Resolves(c.requests, v)
    else
      var status := R.Statuses(s)[c.name];
      if status.resources.None? then CanMerge(c.requests, status.allocatedResources, v)
      else if s.resizeInfeasible then R.Resolves(status.resources.value, v)
      else exists given, held ::
        CanMerge(c.requests, status.allocatedResources, given) && R.Resolves(status.resources.value, held) && v == R.Max(given, held)
  }

  ghost predicate CanMerge(list: ResourceList, list': ResourceList, v: R.Resource) {
    exists a, b :: R.Resolves(list, a) && R.Resolves(list', b) && v == R.Max(a, b)
  }

  ghost predicate CanTotal(s: Sizing, cs: seq<Container>, v: R.Resource) {
    if cs == [] then v == R.ONE_POD
    else exists before, r :: CanTotal(s, cs[..|cs| - 1], before) && CanRequire(s, cs[|cs| - 1], r) && v == R.Sum(before, r)
  }

  /** m is the most in use while these init containers run, side what their sidecars keep using. */
  ghost predicate CanInit(s: Sizing, cs: seq<Container>, m: R.Resource, side: R.Resource) {
    if cs == [] then m == map[] && side == map[]
    else
      var c := cs[|cs| - 1];
      exists m0, side0, r ::
        && CanInit(s, cs[..|cs| - 1], m0, side0) && CanRequire(s, c, r)
        && m == R.Max(m0, R.Sum(r, side0)) && side == if c.sidecar then R.Sum(side0, r) else side0
  }

  ghost predicate CanContain(s: Sizing, v: R.Resource) {
    exists base, m, side ::
      CanTotal(s, s.containers, base) && CanInit(s, s.initContainers, m, side) && v == R.Max(R.Sum(base, side), m)
  }

  ghost predicate CanLevel(s: Sizing, v: R.Resource) {
    if s.podLevel.None? then CanContain(s, v)
    else exists base, level :: CanContain(s, base) && R.Resolves(R.Supported(s.podLevel.value), level) && v == base + level
  }

  ghost predicate CanSize(s: Sizing, v: R.Resource) {
    if s.overhead.None? then CanLevel(s, v)
    else exists base, over :: CanLevel(s, base) && R.Resolves(s.overhead.value, over) && v == R.Sum(base, over)
  }

  lemma Merged(list: ResourceList, list': ResourceList, a: R.Resource, b: R.Resource)
    requires R.Resolves(list, a) && R.Resolves(list', b)
    ensures CanMerge(list, list', R.Max(a, b))
  {
  }

  lemma OneRequired(s: Sizing, c: Container, v: R.Resource)
    requires WellNamed(s) && c in s.containers + s.initContainers && CanRequire(s, c, v)
    ensures v == R.Required(s, c)
  {
    if c.name in R.Statuses(s) {
      StatusMapMember(s.containerStatuses + s.initContainerStatuses, c.name);
      assert StatusWellNamed(R.Statuses(s)[c.name]);
    }
  }

  lemma ContainersStep(s: Sizing, cs: seq<Container>, i: nat)
    requires i < |cs|
    ensures R.SumAll(R.ONE_POD, R.RequiredAll(s, cs[..i + 1]))
         == R.Sum(R.SumAll(R.ONE_POD, R.RequiredAll(s, cs[..i])), R.Required(s, cs[i]))
  {
    assert cs[..i + 1][..i] == cs[..i];
    var rs, rs' := R.RequiredAll(s, cs[..i]), R.RequiredAll(s, cs[..i + 1]);
    assert rs'[..|rs'| - 1] == rs;
  }

  lemma InitsLast(s: Sizing, cs: seq<Container>)
    requires cs != []
    ensures var inits, last := R.InitsOf(s, cs[..|cs| - 1]), cs[|cs| - 1];
            && R.InitMax(R.InitsOf(s, cs)) == R.Max(R.InitMax(inits), R.Sum(R.Required(s, last), R.SidecarRequests(inits)))
            && R.SidecarRequests(R.InitsOf(s, cs))
            == if last.sidecar then R.Sum(R.SidecarRequests(inits), R.Required(s, last)) else R.SidecarRequests(inits)
  {
    assert cs[..|cs|] == cs;
    InitsStep(s, cs, |cs| - 1);
  }

  lemma InitsStep(s: Sizing, cs: seq<Container>, i: nat)
    requires i < |cs|
    ensures var inits, inits' := R.InitsOf(s, cs[..i]), R.InitsOf(s, cs[..i + 1]);
            && R.InitMax(inits') == R.Max(R.InitMax(inits), R.Sum(R.Required(s, cs[i]), R.SidecarRequests(inits)))
            && R.SidecarRequests(inits')
            == if cs[i].sidecar then R.Sum(R.SidecarRequests(inits), R.Required(s, cs[i])) else R.SidecarRequests(inits)
  {
    assert cs[..i + 1][..i] == cs[..i];
    var inits, inits' := R.InitsOf(s, cs[..i]), R.InitsOf(s, cs[..i + 1]);
    assert inits'[..|inits'| - 1] == inits;
  }

  lemma {:induction false} OneTotal(s: Sizing, cs: seq<Container>, v: R.Resource)
    requires WellNamed(s) && CanTotal(s, cs, v) && forall c :: c in cs ==> c in s.containers + s.initContainers
    ensures v == R.SumAll(R.ONE_POD, R.RequiredAll(s, cs))
  {
    if cs != [] {
      var init, last := cs[..|cs| - 1], cs[|cs| - 1];
      var before, r :| CanTotal(s, init, before) && CanRequire(s, last, r) && v == R.Sum(before, r);
      OneTotal(s, init, before);
      assert last in cs;
      OneRequired(s, last, r);
      ContainersStep(s, cs, |init|);
      assert cs[..|cs|] == cs;
    }
  }

  lemma {:induction false} OneInit(s: Sizing, cs: seq<Container>, m: R.Resource, side: R.Resource)
    requires WellNamed(s) && CanInit(s, cs, m, side) && forall c :: c in cs ==> c in s.containers + s.initContainers
    ensures m == R.InitMax(R.InitsOf(s, cs)) && side == R.SidecarRequests(R.InitsOf(s, cs))
  {
    if cs != [] {
      var init, last := cs[..|cs| - 1], cs[|cs| - 1];
      var m0, side0, r :|
        && CanInit(s, init, m0, side0) && CanRequire(s, last, r)
        && m == R.Max(m0, R.Sum(r, side0)) && side == if last.sidecar then R.Sum(side0, r) else side0;
      OneInit(s, init, m0, side0);
      assert last in cs;
      OneRequired(s, last, r);
      InitsLast(s, cs);
    }
  }

  lemma OneContainerSize(s: Sizing, v: R.Resource)
    requires WellNamed(s) && CanContain(s, v)
    ensures v == R.ContainerSize(s)
  {
    var base, m, side :|
      CanTotal(s, s.containers, base) && CanInit(s, s.initContainers, m, side) && v == R.Max(R.Sum(base, side), m);
    OneTotal(s, s.containers, base);
    OneInit(s, s.initContainers, m, side);
  }

  lemma OneLevel(s: Sizing, v: R.Resource)
    requires WellNamed(s) && CanLevel(s, v)
    ensures v == if s.podLevel.Some? then R.ContainerSize(s) + R.PodLevel(s.podLevel.value) else R.ContainerSize(s)
  {
    if s.podLevel.Some? {
      var base, stated :| CanContain(s, base) && R.Resolves(R.Supported(s.podLevel.value), stated) && v == base + stated;
      OneContainerSize(s, base);
    } else {
      OneContainerSize(s, v);
    }
  }

  /** Unless a list of the pod names both cpu and vcore, it has one size. */
  lemma OneSize(pod: Pod, v: R.Resource)
    requires WellNamed(pod.sizing) && CanSize(pod.sizing, v)
    ensures v == R.PodResource(pod)
  {
    var s := pod.sizing;
    if s.overhead.Some? {
      var base, over :| CanLevel(s, base) && R.Resolves(s.overhead.value, over) && v == R.Sum(base, over);
      OneLevel(s, base);
    } else {
      OneLevel(s, v);
    }
  }

  // ---------------------------------------------------------------------------------------------
  // The methods

  method MergeMax(combined: SiResource, list: ResourceList, ghost v: R.Resource) returns (ghost o: R.Resource)
    requires combined.Shows(v)
    modifies combined
    ensures R.Resolves(list, o) && combined.Shows(R.Max(v, o))
  {
    var other;
    other, o := GetResource(list);
    UpdateMax(combined, other, v, o);
  }

  lemma MaxOfNothing(v: R.Resource)
    ensures R.Max(map[], v) == v
  {
  }

  /** Raises what a container asks for to what it was given and, if that is known, to what it holds. */
  method MergeStatus(combined: SiResource, s: Sizing, c: Container, status: ContainerStatus, ghost asked: R.Resource)
    returns (ghost v: R.Resource)
    requires combined.Shows(asked) && R.Resolves(c.requests, asked)
    requires c.name in R.Statuses(s) && R.Statuses(s)[c.name] == status && !(s.resizeInfeasible && status.resources.Some?)
    modifies combined
    ensures combined.Shows(v) && CanRequire(s, c, v)
  {
    ghost var given := MergeMax(combined, status.allocatedResources, asked);
    v := R.Max(asked, given);
    Merged(c.requests, status.allocatedResources, asked, given);
    if status.resources.Some? {
      ghost var held := MergeMax(combined, status.resources.value, v);
      v := R.Max(v, held);
    }
  }

  method ComputeContainerResource(s: Sizing, c: Container, statuses: map<string, ContainerStatus>)
    returns (combined: SiResource, ghost v: R.Resource)
    requires statuses == R.Statuses(s)
    ensures fresh(combined) && combined.Shows(v) && CanRequire(s, c, v)
  {
    combined := new SiResource();
    v := MergeMax(combined, c.requests, map[]);
    MaxOfNothing(v);
    if c.name in statuses {
      var status := statuses[c.name];
      if s.resizeInfeasible && status.resources.Some? {
        combined, v := GetResource(status.resources.value);
        return;
      }
      v := MergeStatus(combined, s, c, status, v);
    }
  }

  /** One init container: it runs beside the sidecars started before it, and stays if it is a sidecar itself. */
  method RunInitContainer(s: Sizing, c: Container, statuses: map<string, ContainerStatus>,
                          initMax: SiResource, sidecars: SiResource?, ghost m: R.Resource, ghost v: R.Resource)
    returns (sidecars': SiResource?, ghost r: R.Resource)
    requires statuses == R.Statuses(s)
    requires initMax != sidecars && initMax.Shows(m) && Amounts(sidecars, v)
    modifies initMax
    ensures sidecars' == sidecars || fresh(sidecars')
    ensures initMax.Shows(R.Max(m, R.Sum(r, v))) && Amounts(sidecars', if c.sidecar then R.Sum(v, r) else v)
    ensures CanRequire(s, c, r)
  {
    var required;
    required, r := ComputeContainerResource(s, c, statuses);
    var currentIC := Add(required, sidecars, r, v);
    sidecars' := sidecars;
    if c.sidecar {
      sidecars' := Add(sidecars, required, v, r);
    }
    UpdateMax(initMax, currentIC, m, R.Sum(r, v));
  }

  lemma CanInitStep(s: Sizing, cs: seq<Container>, i: nat, m: R.Resource, side: R.Resource, r: R.Resource)
    requires i < |cs| && CanInit(s, cs[..i], m, side) && CanRequire(s, cs[i], r)
    ensures CanInit(s, cs[..i + 1], R.Max(m, R.Sum(r, side)), if cs[i].sidecar then R.Sum(side, r) else side)
  {
    assert cs[..i + 1][..i] == cs[..i];
  }

  method RunInitContainers(s: Sizing, statuses: map<string, ContainerStatus>)
    returns (initMax: SiResource, sidecars: SiResource?, ghost m: R.Resource, ghost side: R.Resource)
    requires statuses == R.Statuses(s)
    ensures fresh(initMax) && (sidecars != null ==> fresh(sidecars)) && initMax != sidecars
    ensures initMax.Shows(m) && Amounts(sidecars, side) && CanInit(s, s.initContainers, m, side)
  {
    initMax := new SiResource();
    sidecars := null; // what the sidecars started so far keep using
    var cs := s.initContainers;
    m, side := map[], map[];
    for i := 0 to |cs|
      invariant fresh(initMax) && (sidecars != null ==> fresh(sidecars)) && initMax != sidecars
      invariant initMax.Shows(m) && Amounts(sidecars, side) && CanInit(s, cs[..i], m, side)
    {
      ghost var r;
      sidecars, r := RunInitContainer(s, cs[i], statuses, initMax, sidecars, m, side);
      CanInitStep(s, cs, i, m, side, r);
      m, side := R.Max(m, R.Sum(r, side)), if cs[i].sidecar then R.Sum(side, r) else side;
    }
    assert cs[..|cs|] == cs;
  }

  method CheckInitContainerRequest(s: Sizing, containers: SiResource, statuses: map<string, ContainerStatus>,
                                   ghost v: R.Resource)
    returns (result: SiResource, ghost v': R.Resource)
    requires statuses == R.Statuses(s) && containers.Shows(v) && CanTotal(s, s.containers, v)
    ensures fresh(result) && result.Shows(v') && CanContain(s, v')
  {
    var initMax, sidecars, m, side := RunInitContainers(s, statuses);
    result := Add(containers, sidecars, v, side);
    UpdateMax(result, initMax, R.Sum(v, side), m);
    v' := R.Max(R.Sum(v, side), m);
  }

  lemma CanTotalStep(s: Sizing, cs: seq<Container>, i: nat, v: R.Resource, r: R.Resource)
    requires i < |cs| && CanTotal(s, cs[..i], v) && CanRequire(s, cs[i], r)
    ensures CanTotal(s, cs[..i + 1], R.Sum(v, r))
  {
    assert cs[..i + 1][..i] == cs[..i];
  }

  method AddContainers(s: Sizing, statuses: map<string, ContainerStatus>)
    returns (result: SiResource, ghost v: R.Resource)
    requires statuses == R.Statuses(s)
    ensures fresh(result) && result.Shows(v) && CanTotal(s, s.containers, v)
  {
    result := new SiResource();
    var one := new Quantity(1);
    result.resources := map["pods" := one];
    v := R.ONE_POD;
    var cs := s.containers;
    for i := 0 to |cs|
      invariant fresh(result) && result.Shows(v) && CanTotal(s, cs[..i], v)
    {
      var required, r := ComputeContainerResource(s, cs[i], statuses);
      CanTotalStep(s, cs, i, v, r);
      result := Add(result, required, v, r);
      v := R.Sum(v, r);
    }
    assert cs[..|cs|] == cs;
  }

  lemma NoInits(s: Sizing, v: R.Resource)
    requires s.initContainers == [] && CanTotal(s, s.containers, v)
    ensures CanContain(s, v)
  {
    assert CanInit(s, [], map[], map[]);
    assert R.Sum(v, map[]) == v;
    assert R.Max(v, map[]) == v;
  }

  /** What the containers and init containers ask for. */
  method SizeContainers(s: Sizing) returns (result: SiResource, ghost v: R.Resource)
    ensures fresh(result) && result.Shows(v) && CanContain(s, v)
  {
    var statuses := BuildStatuses(s);
    result, v := AddContainers(s, statuses);
    if |s.initContainers| > 0 {
      result, v := CheckInitContainerRequest(s, result, statuses, v);
    } else {
      NoInits(s, v);
    }
  }

  /** Requests stated for the pod as a whole replace those of its containers. */
  method UpdatePodLevel(result: SiResource, level: ResourceList, ghost v: R.Resource) returns (ghost o: R.Resource)
    requires result.Shows(v)
    modifies result
    ensures R.Resolves(R.Supported(level), o) && result.Shows(v + o)
  {
    var stated;
    stated, o := GetResource(R.Supported(level));
    result.resources := result.resources + stated.resources;
  }

  /** The size of a pod is one that it can get. */
  method GetPodResource(pod: Pod) returns (result: SiResource, ghost v: R.Resource)
    ensures fresh(result) && result.Shows(v) && CanSize(pod.sizing, v)
    ensures WellNamed(pod.sizing) ==> result.Shows(R.PodResource(pod))
  {
    var s := pod.sizing;
    result, v := SizeContainers(s);
    if s.podLevel.Some? {
      ghost var level := UpdatePodLevel(result, s.podLevel.value, v);
      v := v + level;
    }
    assert CanLevel(s, v);
    if s.overhead.Some? {
      var overhead, o := GetResource(s.overhead.value);
      result := Add(result, overhead, v, o);
      v := R.Sum(v, o);
    }
    if WellNamed(s) { OneSize(pod, v); }
  }
}
