/**
 Placeholder pods reserve room for a gang: creating the missing ones, what they hold together, and
 deciding when the reservation is complete.
 */
module Placeholders {
  import opened Options
  import opened Kubernetes
  import opened R = Resources
  import opened TaskGroups

  // ---------------------------------------------------------------------------------------------
  // One placeholder

  /** The pod requests what one member of the group needs; an entry without a name is dropped. */
  function Requests(g: TaskGroup): ResourceList {
    if g.minResource.None? then map[]
    else map name | name in g.minResource.value && name != "" :: g.minResource.value[name]
  }

  datatype Placeholder = Placeholder(taskGroupName: string, pod: Pod)

  function NewPlaceholder(g: TaskGroup): Placeholder {
    Placeholder(g.name,
                Pod("", "", Pending, [], None, false,
                    Sizing([Container("pause", Requests(g), false)], [], [], [], false, None, None)))
  }

  lemma PlaceholderSize(g: TaskGroup)
    ensures PodResource(NewPlaceholder(g).pod) == Sum(ONE_POD, FromList(Requests(g)))
  {
    var s, r := NewPlaceholder(g).pod.sizing, FromList(Requests(g));
    assert Statuses(s) == map[];
    assert s.containers[..0] == [];
    assert RequiredAll(s, s.containers) == [r];
    SizedAlone(r);
  }

  lemma SizedAlone(r: Resource)
    ensures Sized(SumAll(ONE_POD, [r]), []) == Sum(ONE_POD, r)
  {
    assert [r][..0] == [];
    assert SumAll(ONE_POD, [r]) == Sum(SumAll(ONE_POD, []), r);
    var sum := Sum(ONE_POD, r);
    assert Sum(sum, map[]) == sum;
    assert Max(sum, map[]) == sum;
  }

  lemma RequestAmount(g: TaskGroup, key: string)
    requires Acceptable(g)
    ensures Get(Sum(ONE_POD, FromList(Requests(g))), key)
         == if key == "pods" then 1
            else if key == "vcore" && "cpu" in g.minResource.value then Exact("cpu", g.minResource.value["cpu"])
            else if key in g.minResource.value && key != "cpu" && key != "" then Exact(key, g.minResource.value[key])
            else 0
  {
    var list := g.minResource.value;
    var r := FromList(Requests(g));
    FromListAmount(Requests(g), key);
    FromListAmount(Requests(g), "pods");
    assert key != "pods" ==> Get(Sum(ONE_POD, r), key) == Get(r, key);
    assert "pods" !in r;
    assert Get(Sum(ONE_POD, r), "pods") == 1;
    var name := if key == "vcore" && "cpu" in list then "cpu" else key;
    if name in list { ScalesFits(g.minMember, name, list[name]); }
  }

  /** All placeholders of a group together hold what the group asks for, but for the entry without a name. */
  lemma PlaceholderShare(g: TaskGroup, key: string)
    requires Acceptable(g)
    ensures g.minMember * Get(PodResource(NewPlaceholder(g).pod), key) == if key == "" then 0 else GroupShare(g, key)
  {
    PlaceholderSize(g);
    RequestAmount(g, key);
  }

  // ---------------------------------------------------------------------------------------------
  // Creating the missing placeholders

  function Count(names: seq<string>, name: string): nat {
    if names == [] then 0
    else Count(names[..|names| - 1], name) + if names[|names| - 1] == name then 1 else 0
  }

  function Missing(g: TaskGroup, existing: seq<string>): nat {
    if Count(existing, g.name) < g.minMember then g.minMember - Count(existing, g.name) else 0
  }

  function Repeat<T>(x: T, n: nat): (r: seq<T>)
    ensures |r| == n && forall i :: 0 <= i < n ==> r[i] == x
  {
    seq(n, _ => x)
  }

  function Needed(groups: seq<TaskGroup>, existing: seq<string>): seq<Placeholder> {
    if groups == [] then []
    else
      var g := groups[|groups| - 1];
      Needed(groups[..|groups| - 1], existing) + Repeat(NewPlaceholder(g), Missing(g, existing))
  }

  lemma {:induction false} NeededPrefix(groups: seq<TaskGroup>, i: nat, existing: seq<string>)
    requires i <= |groups|
    ensures Needed(groups[..i], existing) <= Needed(groups, existing)
  {
    if i == |groups| {
      assert groups[..i] == groups;
    } else {
      var init := groups[..|groups| - 1];
      assert groups[..i] == init[..i];
      NeededPrefix(init, i, existing);
    }
  }

  method CountExisting(existing: seq<string>) returns (counts: map<string, nat>)
    ensures forall name :: (if name in counts then counts[name] else 0) == Count(existing, name)
  {
    counts := map[];
    for i := 0 to |existing|
      invariant forall name :: (if name in counts then counts[name] else 0) == Count(existing[..i], name)
    {
      assert existing[..i + 1][..i] == existing[..i];
      var name := existing[i];
      counts := counts[name := 1 + if name in counts then counts[name] else 0];
    }
    assert existing[..|existing|] == existing;
  }

  /** The API server accepts the given number of creations and fails the next one, which ends the work. */
  method CreateForGroup(g: TaskGroup, count: nat, created: seq<Placeholder>, accepts: nat)
    returns (created': seq<Placeholder>, ok: bool)
    requires |created| <= accepts
    ensures var n := if count < g.minMember then g.minMember - count else 0;
            && (ok <==> |created| + n <= accepts)
            && created' == created + Repeat(NewPlaceholder(g), if ok then n else accepts - |created|)
  {
    created', ok := created, true;
    var i: int := count;
    while i < g.minMember
      invariant count <= i && (i <= g.minMember || i == count)
      invariant created' == created + Repeat(NewPlaceholder(g), i - count) && |created'| <= accepts
    {
      if |created'| == accepts {
        ok := false;
        return;
      }
      created' := created' + [NewPlaceholder(g)];
      i := i + 1;
    }
  }

  lemma StoppedPrefix(groups: seq<TaskGroup>, i: nat, existing: seq<string>, created: seq<Placeholder>, accepts: nat)
    requires i < |groups| && created == Needed(groups[..i], existing) && |created| <= accepts
    requires accepts < |created| + Missing(groups[i], existing)
    ensures accepts < |Needed(groups, existing)|
    ensures created + Repeat(NewPlaceholder(groups[i]), accepts - |created|) == Needed(groups, existing)[..accepts]
  {
    NeededStep(groups, i, existing);
    NeededPrefix(groups, i + 1, existing);
  }

  lemma NeededStep(groups: seq<TaskGroup>, i: nat, existing: seq<string>)
    requires i < |groups|
    ensures Needed(groups[..i + 1], existing)
         == Needed(groups[..i], existing) + Repeat(NewPlaceholder(groups[i]), Missing(groups[i], existing))
  {
    assert groups[..i + 1][..i] == groups[..i];
  }

  method CreateAppPlaceholders(groups: seq<TaskGroup>, existing: seq<string>, accepts: nat)
    returns (created: seq<Placeholder>, ok: bool)
    ensures ok <==> |Needed(groups, existing)| <= accepts
    ensures created == if ok then Needed(groups, existing) else Needed(groups, existing)[..accepts]
  {
    var counts := CountExisting(existing);
    created, ok := [], true;
    for i := 0 to |groups|
      invariant ok && created == Needed(groups[..i], existing) && |created| <= accepts
    {
      var g := groups[i];
      ghost var before := created;
      created, ok := CreateForGroup(g, if g.name in counts then counts[g.name] else 0, created, accepts);
      if !ok {
        StoppedPrefix(groups, i, existing, before, accepts);
        return;
      }
      NeededStep(groups, i, existing);
    }
    assert groups[..|groups|] == groups;
  }

  // ---------------------------------------------------------------------------------------------
  // What the placeholders hold together

  function Sizes(list: seq<Placeholder>): seq<Resource> {
    seq(|list|, i requires 0 <= i < |list| => PodResource(list[i].pod))
  }

  function Held(list: seq<Placeholder>, key: string): int {
    Total(map[], Sizes(list), key)
  }

  lemma OneMore(n: int, x: int)
    ensures n * x == (n - 1) * x + x
  {
  }

  lemma {:induction false} TotalCopies(rs: seq<Resource>, r: Resource, n: nat, key: string)
    ensures Total(map[], rs + Repeat(r, n), key) == Total(map[], rs, key) + n * Get(r, key)
  {
    if n == 0 {
      assert rs + Repeat(r, 0) == rs;
    } else {
      var all := rs + Repeat(r, n);
      assert all[..|all| - 1] == rs + Repeat(r, n - 1);
      TotalCopies(rs, r, n - 1, key);
      OneMore(n, Get(r, key));
    }
  }

  lemma HeldCopies(list: seq<Placeholder>, p: Placeholder, n: nat, key: string)
    ensures Held(list + Repeat(p, n), key) == Held(list, key) + n * Get(PodResource(p.pod), key)
  {
    assert Sizes(list + Repeat(p, n)) == Sizes(list) + Repeat(PodResource(p.pod), n);
    TotalCopies(Sizes(list), PodResource(p.pod), n, key);
  }

  lemma {:induction false} HeldIsDemand(groups: seq<TaskGroup>, key: string)
    requires forall g :: g in groups ==> Acceptable(g)
    ensures Held(Needed(groups, []), key) == if key == "" then 0 else Demand(groups, key)
  {
    if groups != [] {
      var init, g := groups[..|groups| - 1], groups[|groups| - 1];
      assert g in groups;
      HeldIsDemand(init, key);
      HeldCopies(Needed(init, []), NewPlaceholder(g), g.minMember, key);
      PlaceholderShare(g, key);
    }
  }

  /** The group asks for some amount of a resource without a name. */
  predicate AsksForNameless(g: TaskGroup) {
    g.minResource.Some? && "" in g.minResource.value && g.minResource.value[""] > 0.0
  }

  lemma NamelessShare(g: TaskGroup)
    requires Sane(g)
    ensures GroupShare(g, "") > 0 <==> AsksForNameless(g)
  {
    if AsksForNameless(g) {
      assert Exact("", g.minResource.value[""]) > 0;
      assert g.minMember * Exact("", g.minResource.value[""]) > 0;
    } else if "" in g.minResource.value {
      assert Exact("", g.minResource.value[""]) == 0;
    }
  }

  lemma {:induction false} NamelessDemand(groups: seq<TaskGroup>)
    requires forall g :: g in groups ==> Acceptable(g)
    ensures Demand(groups, "") >= 0
    ensures Demand(groups, "") == 0 <==> forall g :: g in groups ==> !AsksForNameless(g)
  {
    if groups != [] {
      var init, g := groups[..|groups| - 1], groups[|groups| - 1];
      assert g in groups && groups == init + [g];
      NamelessDemand(init);
      NamelessShare(g);
      ShareBounds(g, "");
    }
  }

  /** The placeholders of a new application hold exactly what the application asks the core to reserve,
      exactly when no group asks for a resource without a name. */
  lemma PlaceholdersHoldTheAsk(groups: seq<TaskGroup>)
    requires Accepted(groups)
    ensures (forall key :: Held(Needed(groups, []), key) == Get(Ask(groups), key))
       <==> forall g :: g in groups ==> !AsksForNameless(g)
  {
    NamelessDemand(groups);
    forall key ensures Held(Needed(groups, []), key) == if key == "" then 0 else Demand(groups, key)
               ensures Get(Ask(groups), key) == Demand(groups, key)
    {
      HeldIsDemand(groups, key);
      AskOfAccepted(groups, key);
    }
    assert Held(Needed(groups, []), "") == Get(Ask(groups), "") <==> Demand(groups, "") == 0;
  }

  /** A resource without a name is accepted, and its placeholder does not hold it. */
  lemma NamelessIsNotHeld()
    ensures var groups := [TaskGroup("g", 1, Some(map["" := 1.0]))];
            Accepted(groups) && Get(Ask(groups), "") == 1 && Held(Needed(groups, []), "") == 0
  {
    var g := TaskGroup("g", 1, Some(map["" := 1.0]));
    var groups := [g];
    assert groups[..0] == [] && Ceil(1.0) == 1;
    forall key ensures Demand(groups, key) <= MAX_INT64 { assert Demand(groups, key) == GroupShare(g, key); }
    assert Scales(1, "", 1.0);
    assert Acceptable(g);
    AskOfAccepted(groups, "");
    HeldIsDemand(groups, "");
  }

  // ---------------------------------------------------------------------------------------------
  // Completing the reservation

  /** Of several groups with one name the last one counts. */
  function Desired(groups: seq<TaskGroup>): map<string, int> {
    if groups == [] then map[]
    else Desired(groups[..|groups| - 1])[groups[|groups| - 1].name := groups[|groups| - 1].minMember]
  }

  /** bound lists the group names of the bound placeholders. Tells whether the application moves on to run. */
  method OnReservationStateChange(groups: seq<TaskGroup>, bound: seq<string>) returns (run: bool)
    ensures run <==> Complete(groups, bound)
  {
    var desire: map<string, int> := map[];
    for i := 0 to |groups|
      invariant desire == Desired(groups[..i])
    {
      assert groups[..i + 1][..i] == groups[..i];
      desire := desire[groups[i].name := groups[i].minMember];
    }
    assert groups[..|groups|] == groups;
    for i := 0 to |bound|
      invariant desire.Keys == Desired(groups).Keys
      invariant forall name :: name in desire ==> desire[name] == Desired(groups)[name] - Count(bound[..i], name)
    {
      assert bound[..i + 1][..i] == bound[..i];
      if bound[i] in desire {
        desire := desire[bound[i] := desire[bound[i]] - 1];
      }
    }
    assert bound[..|bound|] == bound;
    var todo := desire.Keys;
    while todo != {}
      invariant todo <= desire.Keys
      invariant forall name :: name in desire && name !in todo ==> desire[name] <= 0
      decreases todo
    {
      var name :| name in todo;
      if desire[name] > 0 { return false; }
      todo := todo - {name};
    }
    return true;
  }

  /** Every group has all its members. */
  ghost predicate Reserved(groups: seq<TaskGroup>, bound: seq<string>) {
    forall i :: 0 <= i < |groups| ==> Count(bound, groups[i].name) >= groups[i].minMember
  }

  ghost predicate Complete(groups: seq<TaskGroup>, bound: seq<string>) {
    forall name :: name in Desired(groups) ==> Count(bound, name) >= Desired(groups)[name]
  }

  lemma {:induction false} DesiredNames(groups: seq<TaskGroup>)
    ensures forall i :: 0 <= i < |groups| ==> groups[i].name in Desired(groups)
    ensures forall name :: name in Desired(groups) ==>
              exists i :: 0 <= i < |groups| && groups[i].name == name && groups[i].minMember == Desired(groups)[name]
  {
    if groups != [] {
      var init, last := groups[..|groups| - 1], groups[|groups| - 1];
      DesiredNames(init);
      forall name | name in Desired(groups)
        ensures exists i :: 0 <= i < |groups| && groups[i].name == name && groups[i].minMember == Desired(groups)[name]
      {
        if name == last.name {
          assert groups[|groups| - 1].name == name;
        } else {
          var i :| 0 <= i < |init| && init[i].name == name && init[i].minMember == Desired(init)[name];
          assert groups[i].name == name;
        }
      }
    }
  }

  lemma {:induction false} CountCopies(names: seq<string>, name: string, n: nat, other: string)
    ensures Count(names + Repeat(name, n), other) == Count(names, other) + if other == name then n else 0
  {
    if n == 0 {
      assert names + Repeat(name, 0) == names;
    } else {
      var all := names + Repeat(name, n);
      assert all[..|all| - 1] == names + Repeat(name, n - 1);
      CountCopies(names, name, n - 1, other);
    }
  }

  function Wanted(desired: map<string, int>, name: string): nat {
    if name in desired && desired[name] > 0 then desired[name] else 0
  }

  lemma {:induction false} JustEnough(desired: map<string, int>) returns (bound: seq<string>)
    ensures forall name :: Count(bound, name) == Wanted(desired, name)
    decreases |desired|
  {
    if desired == map[] {
      bound := [];
    } else {
      var key :| key in desired;
      var rest := desired - {key};
      assert rest.Keys == desired.Keys - {key};
      var init := JustEnough(rest);
      bound := init + Repeat(key, Wanted(desired, key));
      forall name ensures Count(bound, name) == Wanted(desired, name) {
        CountCopies(init, key, Wanted(desired, key), name);
        assert Wanted(rest, name) == if name == key then 0 else Wanted(desired, name);
      }
    }
  }

  /** The application runs exactly when every group is reserved, for all bound placeholders, if and only
      if no group asks for more than the last group of its name. */
  lemma CompleteIffReserved(groups: seq<TaskGroup>)
    requires forall g :: g in groups ==> g.minMember > 0
    ensures (forall bound :: Complete(groups, bound) <==> Reserved(groups, bound))
       <==> forall i :: 0 <= i < |groups| ==>
              groups[i].name in Desired(groups) && groups[i].minMember <= Desired(groups)[groups[i].name]
  {
    DesiredNames(groups);
    if i :| 0 <= i < |groups| && groups[i].minMember > Desired(groups)[groups[i].name] {
      var bound := JustEnough(Desired(groups));
      assert Complete(groups, bound);
      assert groups[i] in groups;
      assert Count(bound, groups[i].name) == Wanted(Desired(groups), groups[i].name) < groups[i].minMember;
      assert !Reserved(groups, bound);
    } else {
      forall bound ensures Complete(groups, bound) <==> Reserved(groups, bound) {
        if Complete(groups, bound) {
          forall i | 0 <= i < |groups| ensures Count(bound, groups[i].name) >= groups[i].minMember {
            assert groups[i].name in Desired(groups);
          }
        }
        if Reserved(groups, bound) {
          forall name | name in Desired(groups) ensures Count(bound, name) >= Desired(groups)[name] {
            var i :| 0 <= i < |groups| && groups[i].name == name && groups[i].minMember == Desired(groups)[name];
          }
        }
      }
    }
  }

  lemma DesiredMore(groups: seq<TaskGroup>, g: TaskGroup)
    ensures Desired(groups + [g]) == Desired(groups)[g.name := g.minMember]
  {
    assert (groups + [g])[..|groups|] == groups;
  }

  lemma TwinsDemand(a: TaskGroup, b: TaskGroup, key: string)
    ensures Demand([a, b], key) == GroupShare(a, key) + GroupShare(b, key)
  {
    assert [a, b][..1] == [a] && [a][..0] == [];
    assert Demand([a], key) == GroupShare(a, key);
  }

  lemma TwinsDesired(a: TaskGroup, b: TaskGroup)
    requires a.name == b.name
    ensures Desired([a, b]) == map[b.name := b.minMember]
  {
    assert [a, b] == [a] + [b] && [a] == [] + [a];
    DesiredMore([], a);
    DesiredMore([a], b);
  }

  lemma CountOne(name: string)
    ensures Count([name], name) == 1
  {
    assert [name][..0] == [];
  }

  /** Of two groups with one name only the last one counts: this reservation is complete with one of two members missing. */
  lemma RepeatedNameIsShort()
    ensures var groups := [TaskGroup("g", 2, Some(map[])), TaskGroup("g", 1, Some(map[]))];
            Accepted(groups) && Complete(groups, ["g"]) && !Reserved(groups, ["g"])
  {
    var a, b := TaskGroup("g", 2, Some(map[])), TaskGroup("g", 1, Some(map[]));
    var groups := [a, b];
    TwinsDesired(a, b);
    CountOne("g");
    assert Count(["g"], groups[0].name) < groups[0].minMember;
    assert Acceptable(a) && Acceptable(b);
    forall key ensures Demand(groups, key) <= MAX_INT64 { TwinsDemand(a, b, key); }
  }

  function NamesOf(list: seq<Placeholder>): seq<string> {
    seq(|list|, i requires 0 <= i < |list| => list[i].taskGroupName)
  }

  lemma {:induction false} CountAppend(a: seq<string>, b: seq<string>, name: string)
    ensures Count(a + b, name) == Count(a, name) + Count(b, name)
  {
    if b == [] {
      assert a + b == a;
    } else {
      assert (a + b)[..|a + b| - 1] == a + b[..|b| - 1];
      CountAppend(a, b[..|b| - 1], name);
    }
  }

  lemma NamesAppend(list: seq<Placeholder>, p: Placeholder, n: nat, name: string)
    ensures Count(NamesOf(list + Repeat(p, n)), name)
         == Count(NamesOf(list), name) + if name == p.taskGroupName then n else 0
  {
    assert NamesOf(list + Repeat(p, n)) == NamesOf(list) + Repeat(p.taskGroupName, n);
    CountCopies(NamesOf(list), p.taskGroupName, n, name);
  }

  /** What the groups of one name lack together, each for itself. */
  function Lacking(groups: seq<TaskGroup>, existing: seq<string>, name: string): nat {
    if groups == [] then 0
    else
      var init, g := groups[..|groups| - 1], groups[|groups| - 1];
      Lacking(init, existing, name) + if g.name == name then Missing(g, existing) else 0
  }

  lemma {:induction false} CreatedIsLacking(groups: seq<TaskGroup>, existing: seq<string>, name: string)
    ensures Count(NamesOf(Needed(groups, existing)), name) == Lacking(groups, existing, name)
  {
    if groups != [] {
      var init, g := groups[..|groups| - 1], groups[|groups| - 1];
      CreatedIsLacking(init, existing, name);
      NamesAppend(Needed(init, existing), NewPlaceholder(g), Missing(g, existing), name);
    }
  }

  /** All groups of this name, but for one of them, have their members already. */
  ghost predicate OthersFull(groups: seq<TaskGroup>, existing: seq<string>, name: string, but: int) {
    forall j :: 0 <= j < |groups| && j != but && groups[j].name == name ==> groups[j].minMember <= Count(existing, name)
  }

  ghost predicate LastFull(groups: seq<TaskGroup>, existing: seq<string>, name: string, but: int)
    requires groups != []
  {
    var n := |groups| - 1;
    n != but && groups[n].name == name ==> groups[n].minMember <= Count(existing, name)
  }

  lemma OthersFullStep(groups: seq<TaskGroup>, existing: seq<string>, name: string, but: int)
    requires groups != []
    ensures OthersFull(groups, existing, name, but)
       <==> OthersFull(groups[..|groups| - 1], existing, name, but) && LastFull(groups, existing, name, but)
  {
    var n := |groups| - 1;
    if OthersFull(groups[..n], existing, name, but) && LastFull(groups, existing, name, but) {
      forall j | 0 <= j < |groups| && j != but && groups[j].name == name ensures groups[j].minMember <= Count(existing, name) {
        if j < n { assert groups[..n][j] == groups[j]; }
      }
    }
  }

  lemma {:induction false} LackingIff(groups: seq<TaskGroup>, existing: seq<string>, name: string, but: int)
    requires 0 <= but < |groups| ==> groups[but].name == name
    ensures var own := if 0 <= but < |groups| then Missing(groups[but], existing) else 0;
            Lacking(groups, existing, name) >= own && (Lacking(groups, existing, name) == own <==> OthersFull(groups, existing, name, but))
  {
    if groups != [] {
      LackingIff(groups[..|groups| - 1], existing, name, but);
      OthersFullStep(groups, existing, name, but);
    }
  }

  /** Each group is topped up: it then has its members, or what it had beyond that, and no more, exactly when every other
      group of its name was full before. */
  lemma PlaceholdersTopUp(groups: seq<TaskGroup>, existing: seq<string>, i: nat)
    requires i < |groups|
    ensures Count(existing + NamesOf(Needed(groups, existing)), groups[i].name)
         == Larger(groups[i].minMember, Count(existing, groups[i].name))
       <==> forall j :: 0 <= j < |groups| && j != i && groups[j].name == groups[i].name ==>
              groups[j].minMember <= Count(existing, groups[i].name)
  {
    var name := groups[i].name;
    CreatedIsLacking(groups, existing, name);
    LackingIff(groups, existing, name, i);
    CountAppend(existing, NamesOf(Needed(groups, existing)), name);
    assert OthersFull(groups, existing, name, i) <==> Lacking(groups, existing, name) == Missing(groups[i], existing);
  }

  /** With distinct names, exactly what a group lacks is created for it. */
  lemma CreatedPerGroup(groups: seq<TaskGroup>, existing: seq<string>, i: nat)
    requires i < |groups| && forall j, k :: 0 <= j < k < |groups| ==> groups[j].name != groups[k].name
    ensures Count(NamesOf(Needed(groups, existing)), groups[i].name)
         == Larger(0, groups[i].minMember - Count(existing, groups[i].name))
  {
    CreatedIsLacking(groups, existing, groups[i].name);
    LackingIff(groups, existing, groups[i].name, i);
    assert OthersFull(groups, existing, groups[i].name, i);
  }

  /** Creating the missing placeholders is enough: once they and the existing ones are bound, the
      reservation is complete, whatever placeholders there were and whether or not names repeat. */
  lemma {:induction false} CreatedSuffice(groups: seq<TaskGroup>, existing: seq<string>)
    ensures Reserved(groups, existing + NamesOf(Needed(groups, existing)))
    ensures Complete(groups, existing + NamesOf(Needed(groups, existing)))
  {
    var names := NamesOf(Needed(groups, existing));
    if groups != [] {
      var init, g := groups[..|groups| - 1], groups[|groups| - 1];
      var before := NamesOf(Needed(init, existing));
      CreatedSuffice(init, existing);
      var n := Missing(g, existing);
      assert names == before + Repeat(g.name, n);
      forall i | 0 <= i < |groups| ensures Count(existing + names, groups[i].name) >= groups[i].minMember {
        CountCopies(before, g.name, n, groups[i].name);
        CountAppend(existing, names, groups[i].name);
        CountAppend(existing, before, groups[i].name);
        if i < |init| { assert groups[i] == init[i]; }
      }
    }
    DesiredNames(groups);
  }
}
