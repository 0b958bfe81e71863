/**
 Gang scheduling: an application asks for placeholder pods group by group. The groups come from an
 annotation, so they are checked before anything is computed from them with 64-bit arithmetic.
 */
module TaskGroups {
  import opened Options
  import opened Kubernetes
  import opened R = Resources

  type Int32 = x: int | -0x8000_0000 <= x <= 0x7fff_ffff

  datatype TaskGroup = TaskGroup(name: string, minMember: Int32, minResource: Option<ResourceList>)

  // ---------------------------------------------------------------------------------------------
  // What a group asks for, on unbounded integers

  function Milli(name: string): int {
    if name == "cpu" then 1000 else 1
  }

  /** What the named entries of the group add to a resource. */
  function Share(members: int, list: ResourceList, names: set<string>, key: string): int
    requires names <= list.Keys
  {
    if key == "pods" then members
    else if key == "vcore" && "cpu" in names then members * Exact("cpu", list["cpu"])
    else if key in names && key != "cpu" then members * Exact(key, list[key])
    else 0
  }

  function GroupShare(g: TaskGroup, key: string): int {
    if g.minResource.None? then 0 else Share(g.minMember, g.minResource.value, g.minResource.value.Keys, key)
  }

  function Demand(groups: seq<TaskGroup>, key: string): int {
    if groups == [] then 0 else Demand(groups[..|groups| - 1], key) + GroupShare(groups[|groups| - 1], key)
  }

  // ---------------------------------------------------------------------------------------------
  // Which groups are accepted

  /** The check that keeps the product of members and amount within 64 bits. */
  predicate Scales(members: int, name: string, q: real)
    requires members > 0
  {
    q <= (MAX_INT64 / (members * Milli(name))) as real
  }

  /** The part of the check that does not depend on sizes. */
  ghost predicate Sane(g: TaskGroup) {
    && g.name != ""
    && g.minResource.Some?
    && g.minMember > 0
    && (forall name :: name in g.minResource.value ==> g.minResource.value[name] >= 0.0)
    && !CpuCollision(g.minResource.value)
    && "pods" !in g.minResource.value
  }

  ghost predicate Acceptable(g: TaskGroup) {
    Sane(g) && forall name :: name in g.minResource.value ==> Scales(g.minMember, name, g.minResource.value[name])
  }

  ghost predicate Accepted(groups: seq<TaskGroup>) {
    && (forall g :: g in groups ==> Acceptable(g))
    && (forall key :: Demand(groups, key) <= MAX_INT64)
  }

  lemma TimesMonotone(d: int, a: int, b: int)
    requires d > 0 && a <= b
    ensures d * a <= d * b
  {
  }

  lemma TimesQuotient(d: int, max: int)
    requires d > 0
    ensures d * (max / d) <= max < d * (max / d + 1)
  {
  }

  lemma FloorDivides(members: int, milli: int, v: int)
    requires members > 0 && milli > 0 && members * milli > 0 && 0 <= v <= MAX_INT64 / (members * milli)
    ensures members * (milli * v) <= MAX_INT64
  {
    TimesMonotone(members * milli, v, MAX_INT64 / (members * milli));
    TimesQuotient(members * milli, MAX_INT64);
    assert members * (milli * v) == members * milli * v;
  }

  lemma CeilBounds(name: string, q: real, bound: int)
    requires 0.0 <= q <= bound as real
    ensures 0 <= Exact(name, q) <= Milli(name) * bound
  {
  }

  lemma ProductFits(members: int, milli: int, bound: int, e: int)
    requires members > 0 && milli > 0 && bound >= 0 && 0 <= e <= milli * bound && members * (milli * bound) <= MAX_INT64
    ensures 0 <= members * e <= MAX_INT64 && e <= members * e
  {
  }

  /** The check covers both the accessor and the product. */
  lemma ScalesFits(members: int, name: string, q: real)
    requires members > 0 && q >= 0.0 && Scales(members, name, q)
    ensures 0 <= members * Exact(name, q) <= MAX_INT64
    ensures 0 <= Exact(name, q) <= MAX_INT64 && Amount(name, q) == Exact(name, q)
  {
    var bound := MAX_INT64 / (members * Milli(name));
    CeilBounds(name, q, bound);
    FloorDivides(members, Milli(name), bound);
    ProductFits(members, Milli(name), bound, Exact(name, q));
    WrapRange(Exact(name, q));
  }

  lemma NonNegative(a: int, b: int)
    requires a >= 0 && b >= 0
    ensures a * b >= 0
  {
  }

  lemma ShareBounds(g: TaskGroup, key: string)
    requires Sane(g)
    ensures 0 <= GroupShare(g, key)
    ensures Acceptable(g) ==> GroupShare(g, key) <= MAX_INT64
  {
    var list := g.minResource.value;
    if key == "vcore" && "cpu" in list {
      NonNegative(g.minMember, Exact("cpu", list["cpu"]));
      if Acceptable(g) { ScalesFits(g.minMember, "cpu", list["cpu"]); }
    } else if key in list {
      NonNegative(g.minMember, Exact(key, list[key]));
      if Acceptable(g) { ScalesFits(g.minMember, key, list[key]); }
    }
  }

  /** Demand only grows, so a total that fits has only parts that fit. */
  lemma {:induction false} DemandGrows(groups: seq<TaskGroup>, i: nat, key: string)
    requires i <= |groups| && forall g :: g in groups ==> Sane(g)
    ensures 0 <= Demand(groups[..i], key) <= Demand(groups, key)
  {
    if groups != [] {
      var init := groups[..|groups| - 1];
      ShareBounds(groups[|groups| - 1], key);
      if i == |groups| {
        assert groups[..i] == groups;
        DemandGrows(init, |init|, key);
        assert init[..|init|] == init;
      } else {
        assert groups[..i] == init[..i];
        DemandGrows(init, i, key);
      }
    }
  }

  lemma ShareInDemand(groups: seq<TaskGroup>, i: nat, key: string)
    requires i < |groups| && forall g :: g in groups ==> Sane(g)
    ensures 0 <= GroupShare(groups[i], key) <= Demand(groups, key)
  {
    assert groups[i] in groups;
    ShareBounds(groups[i], key);
    DemandGrows(groups, i + 1, key);
    DemandGrows(groups, i, key);
    assert groups[..i + 1][..i] == groups[..i];
  }

  // ---------------------------------------------------------------------------------------------
  // The check

  ghost predicate Room(totals: map<string, int>, g: TaskGroup, names: set<string>)
    requires g.minResource.Some? && names <= g.minResource.value.Keys
  {
    forall key :: Get(totals, key) + Share(g.minMember, g.minResource.value, names, key) <= MAX_INT64
  }

  ghost predicate Sums(totals: map<string, int>, before: map<string, int>, g: TaskGroup, names: set<string>)
    requires g.minResource.Some? && names <= g.minResource.value.Keys
  {
    forall key :: Get(totals, key) == Get(before, key) + Share(g.minMember, g.minResource.value, names, key)
  }

  lemma ShareStep(g: TaskGroup, names: set<string>, name: string, key: string)
    requires Sane(g) && names <= g.minResource.value.Keys && name in g.minResource.value.Keys - names
    ensures var list := g.minResource.value;
            Share(g.minMember, list, names + {name}, key)
            == Share(g.minMember, list, names, key) + if key == Canonical(name) then g.minMember * Exact(name, list[name]) else 0
  {
  }

  lemma ShareMonotone(g: TaskGroup, names: set<string>, key: string)
    requires Sane(g) && names <= g.minResource.value.Keys
    ensures Share(g.minMember, g.minResource.value, names, key) <= GroupShare(g, key)
  {
    var list := g.minResource.value;
    if key == "vcore" && "cpu" in list && "cpu" !in names {
      assert Exact("cpu", list["cpu"]) >= 0;
      assert g.minMember * Exact("cpu", list["cpu"]) >= 0;
    } else if key in list && key !in names {
      assert g.minMember * Exact(key, list[key]) >= 0;
    }
  }

  /** One entry of one group: checked, then added to the totals. */
  method ValidateEntry(g: TaskGroup, name: string, seen: set<string>, totals: map<string, int>)
    returns (ok: bool, totals': map<string, int>)
    requires g.minResource.Some? && name in g.minResource.value && g.minMember > 0
    requires forall key :: 0 <= Get(totals, key) <= MAX_INT64
    ensures var q, key := g.minResource.value[name], Canonical(name);
            ok <==> && q >= 0.0 && key !in seen && Scales(g.minMember, name, q)
                    && Get(totals, key) + g.minMember * Exact(name, q) <= MAX_INT64
    ensures var q, key := g.minResource.value[name], Canonical(name);
            ok ==> totals' == totals[key := Get(totals, key) + g.minMember * Exact(name, q)]
                   && 0 <= g.minMember * Exact(name, q)
  {
    ok, totals' := false, totals;
    var quantity := g.minResource.value[name];
    if quantity < 0.0 { return; }
    var canonical := Canonical(name);
    if canonical in seen { return; }
    if quantity > (MAX_INT64 / (g.minMember * Milli(name))) as real { return; }
    ScalesFits(g.minMember, name, quantity);
    var contribution := g.minMember * Amount(name, quantity);
    if Get(totals, canonical) > MAX_INT64 - contribution { return; }
    ok, totals' := true, totals[canonical := Get(totals, canonical) + contribution];
  }

  /** The entries of one group, in any order. */
  method ValidateTaskGroupResources(g: TaskGroup, totals: map<string, int>) returns (ok: bool, totals': map<string, int>)
    requires g.name != "" && g.minResource.Some? && g.minMember > 0
    requires forall key :: 0 <= Get(totals, key) <= MAX_INT64
    ensures ok <==> Acceptable(g) && Room(totals, g, g.minResource.value.Keys)
    ensures ok ==> Sums(totals', totals, g, g.minResource.value.Keys)
  {
    var list := g.minResource.value;
    ok, totals' := false, totals;
    if Get(totals, "pods") > MAX_INT64 - g.minMember {
      assert Share(g.minMember, list, list.Keys, "pods") == g.minMember;
      return;
    }
    totals' := totals["pods" := Get(totals, "pods") + g.minMember];
    var seen := {"pods"};
    var todo := list.Keys;
    ghost var done: set<string> := {};
    while todo != {}
      invariant todo <= list.Keys && done == list.Keys - todo
      invariant seen == {"pods"} + set name | name in done :: Canonical(name)
      invariant Passed(g, done)
      invariant Sums(totals', totals, g, done)
      invariant forall key :: 0 <= Get(totals', key) <= MAX_INT64
      decreases todo
    {
      var name :| name in todo;
      var entry, sum := ValidateEntry(g, name, seen, totals');
      if !entry {
        EntryRefused(g, done, name, totals, totals');
        return;
      }
      assert Canonical(name) !in seen;
      PassedStep(g, done, name);
      SumsStep(g, done, name, totals, totals', sum);
      seen := seen + {Canonical(name)};
      totals' := sum;
      todo := todo - {name};
      done := done + {name};
    }
    assert done == list.Keys;
    PassedAll(g);
    ok := true;
  }

  /** The entries seen so far satisfy the check. */
  ghost predicate Passed(g: TaskGroup, names: set<string>)
    requires g.minResource.Some? && names <= g.minResource.value.Keys && g.minMember > 0
  {
    var list := g.minResource.value;
    && (forall name :: name in names ==> list[name] >= 0.0 && Scales(g.minMember, name, list[name]))
    && !("cpu" in names && "vcore" in names)
    && "pods" !in names
  }

  lemma PassedStep(g: TaskGroup, names: set<string>, name: string)
    requires g.minResource.Some? && names <= g.minResource.value.Keys && g.minMember > 0 && name in g.minResource.value
    requires Passed(g, names) && g.minResource.value[name] >= 0.0 && Scales(g.minMember, name, g.minResource.value[name])
    requires Canonical(name) != "pods" && forall other :: other in names ==> Canonical(other) != Canonical(name)
    ensures Passed(g, names + {name})
  {
    assert "vcore" in names ==> Canonical("vcore") != Canonical(name);
    assert "cpu" in names ==> Canonical("cpu") != Canonical(name);
  }

  lemma PassedAll(g: TaskGroup)
    requires g.name != "" && g.minResource.Some? && g.minMember > 0 && Passed(g, g.minResource.value.Keys)
    ensures Acceptable(g)
  {
  }

  lemma SumsStep(g: TaskGroup, names: set<string>, name: string, before: map<string, int>, totals: map<string, int>,
                 sum: map<string, int>)
    requires g.minResource.Some? && names <= g.minResource.value.Keys && name in g.minResource.value.Keys - names
    requires g.minMember > 0 && Passed(g, names) && Passed(g, names + {name}) && Sums(totals, before, g, names)
    requires sum == totals[Canonical(name) := Get(totals, Canonical(name)) + g.minMember * Exact(name, g.minResource.value[name])]
    ensures Sums(sum, before, g, names + {name})
  {
  }

  /** An entry is refused only when the group as a whole must be. */
  lemma EntryRefused(g: TaskGroup, names: set<string>, name: string, before: map<string, int>, totals: map<string, int>)
    requires g.minResource.Some? && names <= g.minResource.value.Keys && name in g.minResource.value.Keys - names
    requires g.minMember > 0 && Sums(totals, before, g, names)
    requires var q, key := g.minResource.value[name], Canonical(name);
             || q < 0.0
             || key == "pods"
             || (exists other :: other in names && Canonical(other) == key)
             || !Scales(g.minMember, name, q)
             || Get(totals, key) + g.minMember * Exact(name, q) > MAX_INT64
    ensures !(Acceptable(g) && Room(before, g, g.minResource.value.Keys))
  {
    if Acceptable(g) {
      var key := Canonical(name);
      ShareStep(g, names, name, key);
      ShareMonotone(g, names + {name}, key);
    }
  }

  method GetTaskGroups(groups: seq<TaskGroup>) returns (ok: bool)
    ensures ok <==> Accepted(groups)
  {
    var totals: map<string, int> := map[];
    for i := 0 to |groups|
      invariant forall g :: g in groups[..i] ==> Acceptable(g)
      invariant forall key :: Get(totals, key) == Demand(groups[..i], key)
      invariant forall key :: 0 <= Get(totals, key) <= MAX_INT64
    {
      var g := groups[i];
      assert g in groups;
      if g.name == "" || g.minResource.None? || g.minMember <= 0 { return false; }
      assert groups[..i + 1] == groups[..i] + [g];
      assert groups[..i + 1][..i] == groups[..i];
      var fine, sums := ValidateTaskGroupResources(g, totals);
      if !fine {
        Overflows(groups, i, totals);
        return false;
      }
      Continues(g, totals, sums);
      totals := sums;
    }
    assert groups[..|groups|] == groups;
    return true;
  }

  lemma Overflows(groups: seq<TaskGroup>, i: nat, totals: map<string, int>)
    requires i < |groups| && groups[i].minResource.Some?
    requires forall key :: Get(totals, key) == Demand(groups[..i], key)
    requires !(Acceptable(groups[i]) && Room(totals, groups[i], groups[i].minResource.value.Keys))
    ensures !Accepted(groups)
  {
    var g := groups[i];
    assert g in groups;
    if Accepted(groups) {
      var key :| Get(totals, key) + Share(g.minMember, g.minResource.value, g.minResource.value.Keys, key) > MAX_INT64;
      assert groups[..i + 1][..i] == groups[..i];
      DemandGrows(groups, i + 1, key);
    }
  }

  lemma Continues(g: TaskGroup, totals: map<string, int>, sums: map<string, int>)
    requires Acceptable(g) && Room(totals, g, g.minResource.value.Keys) && Sums(sums, totals, g, g.minResource.value.Keys)
    requires forall key :: 0 <= Get(totals, key) <= MAX_INT64
    ensures forall key :: Get(sums, key) == Get(totals, key) + GroupShare(g, key) && 0 <= Get(sums, key) <= MAX_INT64
  {
    forall key ensures Get(sums, key) == Get(totals, key) + GroupShare(g, key) && 0 <= Get(sums, key) <= MAX_INT64 {
      ShareBounds(g, key);
    }
  }

  // ---------------------------------------------------------------------------------------------
  // What acceptance means

  function Scaled(r: Resource, members: int): Resource {
    map key | key in r :: Wrap(members * r[key])
  }

  function TGResource(list: ResourceList, members: int): Resource {
    map["pods" := members] + Scaled(FromList(list), members)
  }

  /** The placeholder ask of an application, in 64-bit arithmetic. */
  function Ask(groups: seq<TaskGroup>): Resource {
    if groups == [] then map[]
    else
      var g := groups[|groups| - 1];
      Sum(Ask(groups[..|groups| - 1]), TGResource(ListOf(g), g.minMember))
  }

  lemma ScaledStep(r: Resource, members: int, key: string, amount: int)
    ensures Scaled(r[key := amount], members) == Scaled(r, members)[key := Wrap(members * amount)]
  {
  }

  lemma OverrideStep(left: Resource, right: Resource, key: string, v: int)
    ensures left + right[key := v] == (left + right)[key := v]
  {
  }

  /** A list that names both cpu and vcore may give either. */
  ghost predicate CanGive(list: ResourceList, members: int, r: Resource) {
    exists v :: Resolves(list, v) && r == map["pods" := members] + Scaled(v, members)
  }

  lemma CanGiveStep(list: ResourceList, members: int, names: set<string>, name: string, r: Resource)
    requires name in list && name !in names && CanGive(Part(list, names), members, r)
    ensures CanGive(Part(list, names + {name}), members, r[Canonical(name) := Wrap(members * Amount(name, list[name]))])
  {
    var v :| Resolves(Part(list, names), v) && r == map["pods" := members] + Scaled(v, members);
    ResolvesStep(list, names, name, v);
    ScaledStep(v, members, Canonical(name), Amount(name, list[name]));
    OverrideStep(map["pods" := members], Scaled(v, members), Canonical(name), Wrap(members * Amount(name, list[name])));
  }

  /** Entries are visited in any order; unless the list names both cpu and vcore, the order does not matter. */
  method GetTGResource(list: ResourceList, members: int) returns (result: Resource)
    ensures CanGive(list, members, result)
    ensures !CpuCollision(list) ==> result == TGResource(list, members)
  {
    result := map["pods" := members];
    ghost var done: set<string> := {};
    var todo := list.Keys;
    assert Part(list, done) == map[] && Resolves(map[], map[]) && result == result + Scaled(map[], members);
    while todo != {}
      invariant todo <= list.Keys && done == list.Keys - todo
      invariant CanGive(Part(list, done), members, result)
      decreases todo
    {
      var name :| name in todo;
      CanGiveStep(list, members, done, name, result);
      result := result[Canonical(name) := Wrap(members * Amount(name, list[name]))];
      todo := todo - {name};
      done := done + {name};
    }
    assert Part(list, done) == list;
  }

  function ListOf(g: TaskGroup): ResourceList {
    if g.minResource.Some? then g.minResource.value else map[]
  }

  /** Every ask the groups can give. */
  ghost predicate CanAsk(groups: seq<TaskGroup>, r: Resource) {
    if groups == [] then r == map[]
    else
      var g := groups[|groups| - 1];
      exists before, added :: CanAsk(groups[..|groups| - 1], before) && CanGive(ListOf(g), g.minMember, added) && r == Sum(before, added)
  }

  lemma {:induction false} OneAsk(groups: seq<TaskGroup>, r: Resource)
    requires CanAsk(groups, r) && forall g :: g in groups ==> !CpuCollision(ListOf(g))
    ensures r == Ask(groups)
  {
    if groups != [] {
      var g := groups[|groups| - 1];
      var before, added :| CanAsk(groups[..|groups| - 1], before) && CanGive(ListOf(g), g.minMember, added) && r == Sum(before, added);
      OneAsk(groups[..|groups| - 1], before);
      assert g in groups;
    }
  }

  /** The ask of an application that had none before. */
  method SetTaskGroups(groups: seq<TaskGroup>) returns (placeholderAsk: Resource)
    ensures CanAsk(groups, placeholderAsk)
    ensures (forall g :: g in groups ==> !CpuCollision(ListOf(g))) ==> placeholderAsk == Ask(groups)
  {
    placeholderAsk := map[];
    for i := 0 to |groups|
      invariant CanAsk(groups[..i], placeholderAsk)
    {
      assert groups[..i + 1][..i] == groups[..i];
      var added := GetTGResource(ListOf(groups[i]), groups[i].minMember);
      placeholderAsk := Sum(placeholderAsk, added);
    }
    assert groups[..|groups|] == groups;
    if forall g :: g in groups ==> !CpuCollision(ListOf(g)) {
      OneAsk(groups, placeholderAsk);
    }
  }

  lemma TGResourceExact(g: TaskGroup, key: string)
    requires Acceptable(g)
    ensures InRange(TGResource(g.minResource.value, g.minMember))
    ensures Get(TGResource(g.minResource.value, g.minMember), key) == GroupShare(g, key)
  {
    var list := g.minResource.value;
    forall k | k in TGResource(list, g.minMember) ensures Fits(TGResource(list, g.minMember)[k]) {
      if k in FromList(list) { WrapRange(g.minMember * FromList(list)[k]); }
    }
    FromListAmount(list, key);
    var name := if key == "vcore" && "cpu" in list then "cpu" else key;
    if name in list {
      ScalesFits(g.minMember, name, list[name]);
      WrapRange(g.minMember * Exact(name, list[name]));
    }
  }

  lemma {:induction false} AskOfAccepted(groups: seq<TaskGroup>, key: string)
    requires Accepted(groups)
    ensures InRange(Ask(groups)) && Get(Ask(groups), key) == Demand(groups, key)
  {
    if groups != [] {
      var init, last := groups[..|groups| - 1], groups[|groups| - 1];
      forall k ensures Demand(init, k) <= MAX_INT64 { DemandGrows(groups, |init|, k); }
      AskOfAccepted(init, key);
      TGResourceExact(last, key);
      GetSum(Ask(init), TGResource(last.minResource.value, last.minMember), key);
      DemandGrows(groups, |groups|, key);
      assert groups[..|groups|] == groups;
    }
  }

  /** No step of computing what one entry asks for leaves 64 bits: not the accessor, and not the product. */
  ghost predicate EntryFits(members: int, name: string, q: real) {
    Amount(name, q) == Exact(name, q) && 0 <= Exact(name, q) <= MAX_INT64 && 0 <= members * Exact(name, q) <= MAX_INT64
  }

  ghost predicate EntriesFit(g: TaskGroup) {
    g.minResource.Some? && forall name :: name in g.minResource.value ==> EntryFits(g.minMember, name, g.minResource.value[name])
  }

  /** For accepted groups nothing wraps around on the way: every accessor and every product is exact, every partial sum
      is the exact demand of the groups so far, and none leaves the non-negative 64-bit integers. */
  lemma AskIsExact(groups: seq<TaskGroup>)
    requires Accepted(groups)
    ensures forall g :: g in groups ==> EntriesFit(g)
    ensures forall i, key :: 0 <= i <= |groups| ==>
              0 <= Demand(groups[..i], key) == Get(Ask(groups[..i]), key) <= MAX_INT64
    ensures forall key :: Get(Ask(groups), key) == Demand(groups, key)
  {
    forall g | g in groups ensures EntriesFit(g) {
      forall name | name in g.minResource.value ensures EntryFits(g.minMember, name, g.minResource.value[name]) {
        ScalesFits(g.minMember, name, g.minResource.value[name]);
      }
    }
    forall i, key | 0 <= i <= |groups|
      ensures 0 <= Demand(groups[..i], key) == Get(Ask(groups[..i]), key) <= MAX_INT64
    {
      PrefixAccepted(groups, i);
      DemandGrows(groups, i, key);
      AskOfAccepted(groups[..i], key);
    }
    assert groups[..|groups|] == groups;
  }

  lemma PrefixAccepted(groups: seq<TaskGroup>, i: nat)
    requires Accepted(groups) && i <= |groups|
    ensures Accepted(groups[..i])
  {
    forall key ensures Demand(groups[..i], key) <= MAX_INT64 { DemandGrows(groups, i, key); }
  }

  lemma ScalesUnlessCpu(members: int, q: real, name: string)
    requires members > 0 && q >= 0.0 && name != "cpu" && members * Exact(name, q) <= MAX_INT64
    ensures Scales(members, name, q)
  {
    var e := Exact(name, q);
    assert q <= e as real;
    TimesQuotient(members, MAX_INT64);
    if e >= MAX_INT64 / members + 1 {
      TimesMonotone(members, MAX_INT64 / members + 1, e);
    }
  }

  predicate CpuScales(g: TaskGroup) {
    g.minMember > 0 && g.minResource.Some? && "cpu" in g.minResource.value ==>
      Scales(g.minMember, "cpu", g.minResource.value["cpu"])
  }

  /** Groups are accepted exactly when they are sane and their demand fits 64 bits, except that cpu is
      compared in whole cores. */
  lemma AcceptedIff(groups: seq<TaskGroup>)
    requires forall g :: g in groups ==> Sane(g)
    requires forall key :: Demand(groups, key) <= MAX_INT64
    ensures Accepted(groups) <==> forall g :: g in groups ==> CpuScales(g)
  {
    if forall g :: g in groups ==> CpuScales(g) {
      forall i | 0 <= i < |groups| ensures Acceptable(groups[i]) {
        var g := groups[i];
        assert g in groups && Sane(g) && CpuScales(g);
        forall name | name in g.minResource.value ensures Scales(g.minMember, name, g.minResource.value[name]) {
          ShareInDemand(groups, i, name);
          if name != "cpu" { ScalesUnlessCpu(g.minMember, g.minResource.value[name], name); }
        }
      }
    }
  }

  /** The exception is real: this ask fits 64 bits and is refused. */
  lemma FractionOfCoreRefused()
    ensures var g := TaskGroup("g", 1, Some(map["cpu" := 9223372036854775.5]));
            Sane(g) && (forall key :: Demand([g], key) <= MAX_INT64) && !Accepted([g])
  {
    var g := TaskGroup("g", 1, Some(map["cpu" := 9223372036854775.5]));
    assert MAX_INT64 / 1000 == 9223372036854775;
    assert !Scales(1, "cpu", 9223372036854775.5);
    assert g in [g];
    assert !Acceptable(g) by { assert "cpu" in g.minResource.value; }
    assert Exact("cpu", 9223372036854775.5) == 9223372036854775500;
    forall key ensures Demand([g], key) <= MAX_INT64 {
      assert [g][..0] == [];
      assert Demand([g], key) == GroupShare(g, key);
    }
  }
}
