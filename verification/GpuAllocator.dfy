/** Assignment of GPU devices to deployments, and the dispatcher calls that drive it. */
module GpuAllocation {
  import opened Sums
  import opened StaticAllocation

  type Held = map<string, seq<int>>

  // ----- what one Allocate call computes, as a function of the held map ---------

  function Range(n: nat): seq<int> { seq(n, i => i) }

  /** The device list after auto-filling an empty request. */
  function Requested(totalGPUs: int, desirable: seq<int>): seq<int>
  {
    if |desirable| == 0 && totalGPUs > 0 then Range(totalGPUs) else desirable
  }

  /** Every device of a host with n of them, once. */
  predicate EachOnce(gpus: seq<int>, n: nat)
  {
    |gpus| == n && (forall g :: 0 <= g < n ==> g in gpus) && forall g :: g in gpus ==> 0 <= g < n
  }

  /** What a caller with this list gets: the devices it names, all of them if it names none
      and their number is known, and otherwise none. */
  predicate Serves(totalGPUs: int, desirable: seq<int>, gpus: seq<int>)
  {
    if desirable != [] then multiset(gpus) == multiset(desirable)
    else if totalGPUs > 0 then EachOnce(gpus, totalGPUs)
    else gpus == []
  }

  lemma RequestGrants(totalGPUs: int, desirable: seq<int>, gpus: seq<int>)
    requires multiset(gpus) == multiset(Requested(totalGPUs, desirable))
    ensures Serves(totalGPUs, desirable, gpus)
  {
    var wanted := Requested(totalGPUs, desirable);
    assert |gpus| == |multiset(gpus)| == |multiset(wanted)| == |wanted|;
    if desirable == [] && totalGPUs > 0 {
      forall g ensures g in gpus <==> 0 <= g < totalGPUs {
        assert g in gpus <==> g in multiset(wanted);
        if 0 <= g < totalGPUs {
          assert wanted[g] == g;
        }
      }
    }
  }

  function FloorOf(held: Held): string -> Agent {
    (dep: string) => Agent(dep, if dep in held then |held[dep]| as real else 0.0)
  }

  function MapSeq<T, U>(f: T -> U, xs: seq<T>): seq<U> { seq(|xs|, i requires 0 <= i < |xs| => f(xs[i])) }

  /** The agents in the order the deployments are visited, the caller last. */
  function AgentsIn(order: seq<string>, held: Held, id: string, wanted: seq<int>): seq<Agent>
  {
    MapSeq(FloorOf(held), order) + [Agent(id, |wanted| as real)]
  }

  ghost function Others(held: Held, id: string): seq<string> { Enumerate(held.Keys - {id}) }

  ghost function AgentsOf(held: Held, id: string, wanted: seq<int>): (agents: seq<Agent>)
    ensures |agents| > 0
  {
    AgentsIn(Others(held, id), held, id, wanted)
  }

  predicate IsPoolMax(held: Held, wanted: seq<int>, top: int)
  {
    && top >= 0
    && (forall g :: g in wanted ==> g <= top)
    && (forall dep, g :: dep in held && g in held[dep] ==> g <= top)
    && (top == 0 || top in wanted || exists dep :: dep in held && top in held[dep])
  }

  ghost function Slots(held: Held, order: seq<string>): nat
    requires forall dep :: dep in order ==> dep in held
  {
    if |order| == 0 then 0 else Slots(held, order[..|order| - 1]) + |held[order[|order| - 1]]|
  }

  /** Admission, stated in whole devices: every other deployment's devices and the
      caller's together fit in the pool 0..top. */
  ghost predicate Admitted(held: Held, id: string, wanted: seq<int>, top: int)
  {
    Slots(held, Others(held, id)) + |wanted| <= top + 1
  }

  function LoadAt(loads: map<int, real>, g: int): real { if g in loads then loads[g] else 0.0 }

  function Spread(loads: map<int, real>, gpus: seq<int>, share: real): map<int, real>
  {
    if |gpus| == 0 then loads
    else
      var before := Spread(loads, gpus[..|gpus| - 1], share);
      var g := gpus[|gpus| - 1];
      before[g := LoadAt(before, g) + share]
  }

  /** The part of dep's share that each of its devices carries. */
  function GpuShare(held: Held, shares: Agent -> real, dep: string): real
    requires dep in held && |held[dep]| > 0
  {
    shares(FloorOf(held)(dep)) / |held[dep]| as real
  }

  function SpreadAll(held: Held, shares: Agent -> real, order: seq<string>): map<int, real>
    requires forall dep :: dep in order ==> dep in held && |held[dep]| > 0
  {
    if |order| == 0 then map[]
    else
      var dep := order[|order| - 1];
      Spread(SpreadAll(held, shares, order[..|order| - 1]), held[dep], GpuShare(held, shares, dep))
  }

  /** What deployment dep puts on device g. */
  function Contribution(held: Held, shares: Agent -> real, g: int): string -> real
  {
    (dep: string) =>
      if dep in held && |held[dep]| > 0
      then Times(multiset(held[dep])[g], GpuShare(held, shares, dep))
      else 0.0
  }

  ghost predicate NonEmpty(held: Held)
  {
    forall dep :: dep in held ==> |held[dep]| > 0
  }

  /** The per-device loads the request is sorted by: a function of the held map, the
      caller and the request, whatever order the map is walked in. */
  ghost function LoadsOf(held: Held, id: string, wanted: seq<int>, top: int): map<int, real>
    requires NonEmpty(held)
  {
    SpreadAll(held, Shares(AgentsOf(held, id, wanted), (top + 1) as real), Others(held, id))
  }

  predicate Ascending(loads: map<int, real>, gpus: seq<int>)
  {
    forall i, j :: 0 <= i < j < |gpus| ==> LoadAt(loads, gpus[i]) <= LoadAt(loads, gpus[j])
  }

  // ----- facts about the loads ---------------------------------------------------

  lemma SharesAddUp(held: Held, shares: Agent -> real, dep: string)
    requires dep in held && |held[dep]| > 0
    ensures Times(|held[dep]|, GpuShare(held, shares, dep)) == shares(FloorOf(held)(dep))
  {
    TimesIsProduct(|held[dep]|, GpuShare(held, shares, dep));
    QuotientTimes(shares(FloorOf(held)(dep)), |held[dep]| as real);
  }

  lemma {:induction false} SpreadTotal(loads: map<int, real>, gpus: seq<int>, share: real)
    ensures SumValues(Spread(loads, gpus, share)) == SumValues(loads) + Times(|gpus|, share)
  {
    if |gpus| > 0 {
      var n := |gpus| - 1;
      SpreadTotal(loads, gpus[..n], share);
      var before := Spread(loads, gpus[..n], share);
      SumValuesUpdate(before, gpus[n], LoadAt(before, gpus[n]) + share);
    }
  }

  lemma {:induction false} SpreadAt(loads: map<int, real>, gpus: seq<int>, share: real, g: int)
    ensures LoadAt(Spread(loads, gpus, share), g) == LoadAt(loads, g) + Times(multiset(gpus)[g], share)
  {
    if |gpus| > 0 {
      var n := |gpus| - 1;
      SpreadAt(loads, gpus[..n], share, g);
      assert gpus == gpus[..n] + [gpus[n]];
    }
  }

  lemma {:induction false} SpreadAllTotal(held: Held, shares: Agent -> real, order: seq<string>)
    requires forall dep :: dep in order ==> dep in held && |held[dep]| > 0
    ensures SumValues(SpreadAll(held, shares, order)) == Sum(shares, MapSeq(FloorOf(held), order))
  {
    if |order| > 0 {
      var n := |order| - 1;
      var dep := order[n];
      SpreadAllTotal(held, shares, order[..n]);
      SpreadTotal(SpreadAll(held, shares, order[..n]), held[dep], GpuShare(held, shares, dep));
      SharesAddUp(held, shares, dep);
      assert order == order[..n] + [dep];
      MapSeqSnoc(FloorOf(held), order[..n], dep);
      SumSnoc(shares, MapSeq(FloorOf(held), order[..n]), FloorOf(held)(dep));
    }
  }

  lemma {:induction false} SpreadAllAt(held: Held, shares: Agent -> real, order: seq<string>, g: int)
    requires forall dep :: dep in order ==> dep in held && |held[dep]| > 0
    ensures LoadAt(SpreadAll(held, shares, order), g) == Sum(Contribution(held, shares, g), order)
  {
    if |order| > 0 {
      var n := |order| - 1;
      SpreadAllAt(held, shares, order[..n], g);
      SpreadAt(SpreadAll(held, shares, order[..n]), held[order[n]], GpuShare(held, shares, order[n]), g);
    }
  }

  /** What dep puts on g: its share, divided over the devices it holds. */
  function Carried(held: Held, shares: Agent -> real, g: int): string -> real
  {
    (dep: string) =>
      if dep in held && |held[dep]| > 0
      then multiset(held[dep])[g] as real * (shares(Agent(dep, |held[dep]| as real)) / |held[dep]| as real)
      else 0.0
  }

  lemma ContributionIsCarried(held: Held, shares: Agent -> real, g: int, dep: string)
    ensures Contribution(held, shares, g)(dep) == Carried(held, shares, g)(dep)
  {
    if dep in held && |held[dep]| > 0 {
      TimesIsProduct(multiset(held[dep])[g], GpuShare(held, shares, dep));
    }
  }

  /** A device's load is what the other deployments put on it. */
  lemma LoadsAreShares(held: Held, id: string, wanted: seq<int>, top: int, g: int)
    requires NonEmpty(held)
    ensures LoadAt(LoadsOf(held, id, wanted, top), g)
         == Sum(Carried(held, Shares(AgentsOf(held, id, wanted), (top + 1) as real), g), Enumerate(held.Keys - {id}))
  {
    var shares := Shares(AgentsOf(held, id, wanted), (top + 1) as real);
    SpreadAllAt(held, shares, Others(held, id), g);
    forall dep ensures Contribution(held, shares, g)(dep) == Carried(held, shares, g)(dep) {
      ContributionIsCarried(held, shares, g, dep);
    }
    SumPointwise(Contribution(held, shares, g), Carried(held, shares, g), Others(held, id));
  }

  lemma MapSeqSnoc<T, U>(f: T -> U, xs: seq<T>, x: T)
    ensures MapSeq(f, xs + [x]) == MapSeq(f, xs) + [f(x)]
  {
  }

  lemma MapSeqPick<T, U>(f: T -> U, xs: seq<T>, k: nat)
    requires k < |xs|
    ensures multiset(xs) == multiset(xs[..k] + xs[k + 1..]) + multiset{xs[k]}
    ensures multiset(MapSeq(f, xs)) == multiset(MapSeq(f, xs[..k] + xs[k + 1..])) + multiset{f(xs[k])}
  {
    var ms := MapSeq(f, xs);
    assert xs == xs[..k] + [xs[k]] + xs[k + 1..];
    assert ms == ms[..k] + [f(xs[k])] + ms[k + 1..];
    assert MapSeq(f, xs[..k] + xs[k + 1..]) == ms[..k] + ms[k + 1..];
  }

  lemma {:induction false} MapSeqMultiset<T, U>(f: T -> U, xs: seq<T>, ys: seq<T>)
    requires multiset(xs) == multiset(ys)
    ensures multiset(MapSeq(f, xs)) == multiset(MapSeq(f, ys))
    decreases |xs|
  {
    if |xs| == 0 {
      assert |multiset(ys)| == 0;
    } else {
      assert xs[0] in multiset(ys);
      var k :| 0 <= k < |ys| && ys[k] == xs[0];
      MapSeqPick(f, xs, 0);
      MapSeqPick(f, ys, k);
      assert multiset(xs) - multiset{xs[0]} == multiset(xs[..0] + xs[1..]);
      assert multiset(xs) - multiset{xs[0]} == multiset(ys[..k] + ys[k + 1..]);
      MapSeqMultiset(f, xs[..0] + xs[1..], ys[..k] + ys[k + 1..]);
    }
  }

  /** Neither the admission test nor any share depends on the order in which the held
      map is iterated. */
  lemma AgentOrderIrrelevant(held: Held, id: string, wanted: seq<int>, capacity: real, order: seq<string>)
    requires Lists(order, held.Keys - {id})
    ensures var xs := AgentsIn(order, held, id, wanted);
            var ys := AgentsOf(held, id, wanted);
            && Sum(Floor(), xs) == Sum(Floor(), ys)
            && (forall a :: ShareOf(xs, capacity, a) == ShareOf(ys, capacity, a))
  {
    ListingsPermute(order, Others(held, id), held.Keys - {id});
    MapSeqMultiset(FloorOf(held), order, Others(held, id));
    var xs := AgentsIn(order, held, id, wanted);
    var ys := AgentsOf(held, id, wanted);
    assert multiset(xs) == multiset(ys);
    OrderIrrelevant(xs, ys, capacity);
  }

  /** Nor does any device's load. */
  lemma LoadOrderIrrelevant(held: Held, f: Agent -> real, h: Agent -> real,
                            order: seq<string>, again: seq<string>, g: int)
    requires multiset(order) == multiset(again)
    requires forall dep :: dep in order || dep in again ==> dep in held && |held[dep]| > 0
    requires forall a :: f(a) == h(a)
    ensures LoadAt(SpreadAll(held, f, order), g) == LoadAt(SpreadAll(held, h, again), g)
  {
    SpreadAllAt(held, f, order, g);
    SpreadAllAt(held, h, again, g);
    SumPermutation(Contribution(held, f, g), order, again);
    SumPointwise(Contribution(held, f, g), Contribution(held, h, g), again);
  }

  /** When admission succeeds the loads account for exactly the pool minus the
      caller's own share. */
  lemma LoadsAccountForPool(held: Held, id: string, wanted: seq<int>, top: int)
    requires NonEmpty(held) && top >= 0
    requires Sum(Floor(), AgentsOf(held, id, wanted)) <= (top + 1) as real
    ensures SumValues(LoadsOf(held, id, wanted, top))
         == (top + 1) as real - ShareOf(AgentsOf(held, id, wanted), (top + 1) as real, Agent(id, |wanted| as real))
  {
    var agents := AgentsOf(held, id, wanted);
    var others := Others(held, id);
    var shares := Shares(agents, (top + 1) as real);
    ExhaustsPool(agents, (top + 1) as real);
    SumSnoc(shares, MapSeq(FloorOf(held), others), Agent(id, |wanted| as real));
    SpreadAllTotal(held, shares, others);
  }

  lemma {:induction false} FloorSumIsSlots(held: Held, order: seq<string>)
    requires forall dep :: dep in order ==> dep in held
    ensures Sum(Floor(), MapSeq(FloorOf(held), order)) == Slots(held, order) as real
  {
    if |order| > 0 {
      var n := |order| - 1;
      FloorSumIsSlots(held, order[..n]);
      assert MapSeq(FloorOf(held), order) == MapSeq(FloorOf(held), order[..n]) + [FloorOf(held)(order[n])];
      SumSnoc(Floor(), MapSeq(FloorOf(held), order[..n]), FloorOf(held)(order[n]));
    }
  }

  /** The float comparison of floors against capacity is a count of devices. */
  lemma AdmissionCountsDevices(held: Held, id: string, wanted: seq<int>, top: int)
    ensures Admitted(held, id, wanted, top) <==> Sum(Floor(), AgentsOf(held, id, wanted)) <= (top + 1) as real
  {
    FloorSumIsSlots(held, Others(held, id));
    SumSnoc(Floor(), MapSeq(FloorOf(held), Others(held, id)), Agent(id, |wanted| as real));
  }

  lemma PoolMaxUnique(held: Held, wanted: seq<int>, t: int, u: int)
    requires IsPoolMax(held, wanted, t) && IsPoolMax(held, wanted, u)
    ensures t == u
  {
  }

  // ----- the allocator ---------------------------------------------------------------

  method InsertByLoad(loads: map<int, real>, sorted: seq<int>, g: int) returns (more: seq<int>)
    requires Ascending(loads, sorted)
    ensures multiset(more) == multiset(sorted) + multiset{g} && Ascending(loads, more)
  {
    var k := 0;
    while k < |sorted| && LoadAt(loads, sorted[k]) <= LoadAt(loads, g)
      invariant 0 <= k <= |sorted|
      invariant forall j :: 0 <= j < k ==> LoadAt(loads, sorted[j]) <= LoadAt(loads, g)
    {
      k := k + 1;
    }
    more := sorted[..k] + [g] + sorted[k..];
    AscendingInsert(loads, sorted, k, g);
    assert sorted == sorted[..k] + sorted[k..];
  }

  lemma AscendingInsert(loads: map<int, real>, xs: seq<int>, k: nat, g: int)
    requires k <= |xs| && Ascending(loads, xs)
    requires forall j :: 0 <= j < k ==> LoadAt(loads, xs[j]) <= LoadAt(loads, g)
    requires k < |xs| ==> LoadAt(loads, g) <= LoadAt(loads, xs[k])
    ensures Ascending(loads, xs[..k] + [g] + xs[k..])
  {
    var more := xs[..k] + [g] + xs[k..];
    forall i, j | 0 <= i < j < |more| ensures LoadAt(loads, more[i]) <= LoadAt(loads, more[j]) {
      if i == k {
        assert more[j] == xs[j - 1];
      } else if j == k {
        assert more[i] == xs[i];
      } else {
        assert more[i] == xs[if i < k then i else i - 1];
        assert more[j] == xs[if j < k then j else j - 1];
      }
    }
  }

  /** Stand-in for the library sort: some ascending permutation. */
  method SortByLoad(loads: map<int, real>, gpus: seq<int>) returns (sorted: seq<int>)
    ensures multiset(sorted) == multiset(gpus) && Ascending(loads, sorted)
  {
    sorted := [];
    for i := 0 to |gpus|
      invariant multiset(sorted) == multiset(gpus[..i]) && Ascending(loads, sorted)
    {
      sorted := InsertByLoad(loads, sorted, gpus[i]);
      assert gpus[..i + 1] == gpus[..i] + [gpus[i]];
    }
    assert gpus[..|gpus|] == gpus;
  }

  method AddLoads(before: map<int, real>, gpus: seq<int>, share: real) returns (loads: map<int, real>)
    requires |gpus| > 0
    ensures loads == Spread(before, gpus, share / |gpus| as real)
  {
    var gpuShare := share / |gpus| as real;
    loads := before;
    for i := 0 to |gpus|
      invariant loads == Spread(before, gpus[..i], gpuShare)
    {
      assert gpus[..i + 1][..i] == gpus[..i];
      loads := loads[gpus[i] := LoadAt(loads, gpus[i]) + gpuShare];
    }
    assert gpus[..|gpus|] == gpus;
  }

  /** The largest device index requested or held, at least 0. */
  method MaxIndex(held: Held, wanted: seq<int>) returns (top: int)
    ensures IsPoolMax(held, wanted, top)
  {
    top := 0;
    for i := 0 to |wanted|
      invariant top >= 0 && (forall k :: 0 <= k < i ==> wanted[k] <= top)
      invariant top == 0 || top in wanted
    {
      if wanted[i] > top {
        top := wanted[i];
      }
    }
    var todo := held.Keys;
    while todo != {}
      invariant todo <= held.Keys && top >= 0
      invariant forall g :: g in wanted ==> g <= top
      invariant forall dep, g :: dep in held && dep !in todo && g in held[dep] ==> g <= top
      invariant top == 0 || top in wanted || exists dep :: dep in held && top in held[dep]
    {
      var dep :| dep in todo;
      var gpus := held[dep];
      for i := 0 to |gpus|
        invariant top >= 0 && (forall g :: g in wanted ==> g <= top)
        invariant forall d, g :: d in held && d !in todo && g in held[d] ==> g <= top
        invariant forall k :: 0 <= k < i ==> gpus[k] <= top
        invariant top == 0 || top in wanted || exists d :: d in held && top in held[d]
      {
        if gpus[i] > top {
          top := gpus[i];
        }
      }
      todo := todo - {dep};
    }
  }

  /** The agents, visited in an arbitrary order that is returned alongside. */
  method BuildAgents(held: Held, id: string, wanted: seq<int>) returns (agents: seq<Agent>, ghost order: seq<string>)
    ensures Lists(order, held.Keys - {id})
    ensures agents == AgentsIn(order, held, id, wanted)
  {
    agents, order := [], [];
    var todo := held.Keys;
    ghost var seen := {};
    while todo != {}
      invariant todo <= held.Keys && seen == held.Keys - {id} - todo
      invariant Lists(order, seen)
      invariant agents == MapSeq(FloorOf(held), order)
    {
      var dep :| dep in todo;
      todo := todo - {dep};
      if dep != id {
        agents := agents + [Agent(dep, |held[dep]| as real)];
        ListsSnoc(order, seen, dep);
        MapSeqSnoc(FloorOf(held), order, dep);
        order, seen := order + [dep], seen + {dep};
      }
    }
    assert seen == held.Keys - {id};
    agents := agents + [Agent(id, |wanted| as real)];
  }

  /** Per-device loads of the other deployments under the given allocations. */
  method BuildLoads(held: Held, id: string, allocations: map<string, real>, ghost shares: Agent -> real)
    returns (loads: map<int, real>, ghost order: seq<string>)
    requires NonEmpty(held)
    requires forall dep :: dep in held && dep != id ==>
               dep in allocations && allocations[dep] == shares(FloorOf(held)(dep))
    ensures Lists(order, held.Keys - {id})
    ensures forall dep :: dep in order ==> dep in held
    ensures loads == SpreadAll(held, shares, order)
  {
    loads, order := map[], [];
    var todo := held.Keys;
    ghost var seen := {};
    while todo != {}
      invariant todo <= held.Keys && seen == held.Keys - {id} - todo
      invariant Lists(order, seen)
      invariant forall dep :: dep in order ==> dep in held
      invariant loads == SpreadAll(held, shares, order)
    {
      var dep :| dep in todo;
      todo := todo - {dep};
      if dep != id {
        loads := AddLoads(loads, held[dep], allocations[dep]);
        assert (order + [dep])[..|order|] == order;
        ListsSnoc(order, seen, dep);
        order, seen := order + [dep], seen + {dep};
      }
    }
    assert seen == held.Keys - {id};
  }

  ghost predicate Chosen(held: Held, id: string, wanted: seq<int>, top: int, selected: seq<int>)
    requires NonEmpty(held)
  {
    if Admitted(held, id, wanted, top)
    then Ascending(LoadsOf(held, id, wanted, top), selected)
    else selected == wanted
  }

  /** The admission test and device choice inside Allocate. */
  method ChooseDevices(held: Held, id: string, wanted: seq<int>) returns (selected: seq<int>, ghost top: int)
    requires NonEmpty(held)
    ensures IsPoolMax(held, wanted, top)
    ensures multiset(selected) == multiset(wanted) && Chosen(held, id, wanted, top, selected)
  {
    var agents, order := BuildAgents(held, id, wanted);
    var maxIdx := MaxIndex(held, wanted);
    top := maxIdx;
    var capacity := (maxIdx + 1) as real;
    if capacity < 1.0 {
      capacity := 1.0;
    }
    AgentOrderIrrelevant(held, id, wanted, capacity, order);
    AdmissionCountsDevices(held, id, wanted, top);
    var plan := AllocateStatic(agents, capacity);
    if plan.AdmissionFailed? {
      return wanted, top;
    }
    PlannedShares(held, id, wanted, capacity, order);
    ghost var again;
    selected, again := ChooseByLoad(held, id, wanted, plan.allocations, Shares(agents, capacity));
    LoadsMatch(held, id, wanted, top, order, again);
  }

  method ChooseByLoad(held: Held, id: string, wanted: seq<int>, allocations: map<string, real>,
                      ghost shares: Agent -> real)
    returns (selected: seq<int>, ghost order: seq<string>)
    requires NonEmpty(held)
    requires forall dep :: dep in held && dep != id ==>
               dep in allocations && allocations[dep] == shares(FloorOf(held)(dep))
    ensures Lists(order, held.Keys - {id}) && (forall dep :: dep in order ==> dep in held)
    ensures multiset(selected) == multiset(wanted)
    ensures Ascending(SpreadAll(held, shares, order), selected)
  {
    var loads;
    loads, order := BuildLoads(held, id, allocations, shares);
    selected := SortByLoad(loads, wanted);
  }

  /** What one allocation gives: a permutation of the request, in load order when admitted;
      it becomes what id holds, and nothing else changes. */
  ghost predicate Given(held: Held, id: string, wanted: seq<int>, gpus: seq<int>, held': Held)
    requires NonEmpty(held)
  {
    && multiset(gpus) == multiset(wanted)
    && held' == (if |wanted| == 0 then held else held[id := gpus])
    && (|wanted| > 0 ==> forall top :: IsPoolMax(held, wanted, top) ==> Chosen(held, id, wanted, top, gpus))
  }

  /** Every holder has the same devices, in whatever order. */
  predicate SameDevices(held: Held, held': Held)
  {
    held.Keys == held'.Keys && forall dep :: dep in held ==> multiset(held[dep]) == multiset(held'[dep])
  }

  /** Nothing is asked for, or id already holds just these devices. */
  predicate GrantIsIdle(held: Held, id: string, wanted: seq<int>)
  {
    |wanted| == 0 || (id in held && multiset(held[id]) == multiset(wanted))
  }

  lemma IdleIff(held: Held, id: string, wanted: seq<int>, gpus: seq<int>, held': Held)
    requires NonEmpty(held) && Given(held, id, wanted, gpus, held')
    ensures SameDevices(held, held') <==> GrantIsIdle(held, id, wanted)
  {
    if |wanted| > 0 {
      assert id in held' && held'[id] == gpus;
    }
  }

  class GPUAllocator {
    var held: Held
    const totalGPUs: int

    ghost predicate Valid()
      reads this
    {
      NonEmpty(held)
    }

    constructor (totalGPUs: int)
      ensures Valid() && held == map[] && this.totalGPUs == totalGPUs
    {
      held := map[];
      this.totalGPUs := totalGPUs;
    }

    /** Allocate. The caller gets a permutation of its (auto-filled) request; when the
        floors fit the pool that permutation is ascending by the load the others put on
        each device, otherwise it is the request itself. */
    method Allocate(id: string, desirable: seq<int>) returns (selected: seq<int>)
      requires Valid()
      modifies this
      ensures Valid()
      ensures Given(old(held), id, Requested(totalGPUs, desirable), selected, held)
      ensures Serves(totalGPUs, desirable, selected)
    {
      var wanted := desirable;
      if |wanted| == 0 {
        if totalGPUs > 0 {
          wanted := Range(totalGPUs);
        } else {
          return desirable;
        }
      }
      ghost var top;
      selected, top := ChooseDevices(held, id, wanted);
      forall t | IsPoolMax(held, wanted, t) ensures t == top {
        PoolMaxUnique(held, wanted, t, top);
      }
      assert |selected| == |multiset(selected)| == |multiset(wanted)| == |wanted|;
      RequestGrants(totalGPUs, desirable, selected);
      held := held[id := selected];
    }

    /** Release. */
    method Release(id: string)
      requires Valid()
      modifies this
      ensures Valid() && held == old(held) - {id}
    {
      held := held - {id};
    }

    /** Used: every held device, once, in increasing order. */
    method Used() returns (out: seq<int>)
      ensures forall i, j :: 0 <= i < j < |out| ==> out[i] < out[j]
      ensures forall g :: g in out <==> exists dep :: dep in held && g in held[dep]
    {
      out := [];
      var todo := held.Keys;
      while todo != {}
        invariant todo <= held.Keys
        invariant forall i, j :: 0 <= i < j < |out| ==> out[i] < out[j]
        invariant forall g :: g in out <==> exists dep :: dep in held && dep !in todo && g in held[dep]
      {
        var dep :| dep in todo;
        var gpus := held[dep];
        ghost var before := out;
        for i := 0 to |gpus|
          invariant forall i, j :: 0 <= i < j < |out| ==> out[i] < out[j]
          invariant forall g :: g in out <==> g in before || g in gpus[..i]
        {
          assert gpus[..i + 1] == gpus[..i] + [gpus[i]];
          out := InsertSorted(out, gpus[i]);
        }
        assert gpus[..|gpus|] == gpus;
        todo := todo - {dep};
      }
    }
  }

  /** Adds g to a strictly increasing list unless it is already there. */
  method InsertSorted(xs: seq<int>, g: int) returns (ys: seq<int>)
    requires forall i, j :: 0 <= i < j < |xs| ==> xs[i] < xs[j]
    ensures forall i, j :: 0 <= i < j < |ys| ==> ys[i] < ys[j]
    ensures forall x :: x in ys <==> x in xs || x == g
  {
    var k := 0;
    while k < |xs| && xs[k] < g
      invariant 0 <= k <= |xs|
      invariant forall j :: 0 <= j < k ==> xs[j] < g
    {
      k := k + 1;
    }
    if k < |xs| && xs[k] == g {
      return xs;
    }
    assert xs == xs[..k] + xs[k..];
    ys := xs[..k] + [g] + xs[k..];
  }

  lemma AgentsDistinct(held: Held, id: string, wanted: seq<int>, order: seq<string>)
    requires Lists(order, held.Keys - {id})
    ensures DistinctNames(AgentsIn(order, held, id, wanted))
    ensures forall dep :: dep in held && dep != id ==>
              FloorOf(held)(dep) in AgentsIn(order, held, id, wanted)
  {
    var agents := AgentsIn(order, held, id, wanted);
    forall i, j | 0 <= i < j < |agents| ensures agents[i].name != agents[j].name {
      assert agents[i].name == order[i] && order[i] in order;
    }
    forall dep | dep in held && dep != id ensures FloorOf(held)(dep) in agents {
      assert dep in order;
      var i :| 0 <= i < |order| && order[i] == dep;
      assert agents[i] == FloorOf(held)(dep);
    }
  }

  lemma PlannedShares(held: Held, id: string, wanted: seq<int>, capacity: real, order: seq<string>)
    requires Lists(order, held.Keys - {id})
    ensures var agents := AgentsIn(order, held, id, wanted);
            var shares := Shares(agents, capacity);
            forall dep :: dep in held && dep != id ==>
              dep in Assigned(agents, shares) && Assigned(agents, shares)[dep] == shares(FloorOf(held)(dep))
  {
    var agents := AgentsIn(order, held, id, wanted);
    var shares := Shares(agents, capacity);
    AgentsDistinct(held, id, wanted, order);
    forall dep | dep in held && dep != id
      ensures dep in Assigned(agents, shares) && Assigned(agents, shares)[dep] == shares(FloorOf(held)(dep))
    {
      AssignedAt(agents, shares, FloorOf(held)(dep));
      assert FloorOf(held)(dep).name == dep;
    }
  }

  lemma LoadsMatch(held: Held, id: string, wanted: seq<int>, top: int, order: seq<string>, again: seq<string>)
    requires NonEmpty(held) && Lists(order, held.Keys - {id}) && Lists(again, held.Keys - {id})
    requires forall dep :: dep in again ==> dep in held
    ensures var agents := AgentsIn(order, held, id, wanted);
            forall g :: LoadAt(SpreadAll(held, Shares(agents, (top + 1) as real), again), g)
                     == LoadAt(LoadsOf(held, id, wanted, top), g)
  {
    var capacity := (top + 1) as real;
    var f := Shares(AgentsIn(order, held, id, wanted), capacity);
    var h := Shares(AgentsOf(held, id, wanted), capacity);
    AgentOrderIrrelevant(held, id, wanted, capacity, order);
    ListingsPermute(again, Others(held, id), held.Keys - {id});
    forall g ensures LoadAt(SpreadAll(held, f, again), g) == LoadAt(SpreadAll(held, h, Others(held, id)), g) {
      LoadOrderIrrelevant(held, f, h, again, Others(held, id), g);
    }
  }

  // ----- the dispatcher's use of the allocator ------------------------------------

  ghost predicate InRange(held: Held, totalGPUs: int)
  {
    forall dep, g :: dep in held && g in held[dep] ==> 0 <= g < totalGPUs
  }

  predicate AllValid(indices: seq<int>, totalGPUs: int)
  {
    totalGPUs <= 0 || forall g :: g in indices ==> 0 <= g < totalGPUs
  }

  /** validateGPUIndices: without GPU information everything passes. */
  method ValidateGPUIndices(indices: seq<int>, totalGPUs: int) returns (ok: bool)
    ensures ok <==> AllValid(indices, totalGPUs)
  {
    if totalGPUs <= 0 {
      return true;
    }
    for i := 0 to |indices|
      invariant forall k :: 0 <= k < i ==> 0 <= indices[k] < totalGPUs
    {
      if indices[i] < 0 || indices[i] >= totalGPUs {
        assert indices[i] in indices;
        return false;
      }
    }
    return true;
  }

  /** The parts of a LoadModel body that decide about devices. */
  datatype LoadRequest = LoadRequest(id: string, gpuIndices: seq<int>, prefillReplicas: int,
                                     prefillIndices: seq<int>, decodeIndices: seq<int>)
  {
    function Prefill(): seq<int> { if |prefillIndices| == 0 then gpuIndices else prefillIndices }

    function Decode(): seq<int> { if |decodeIndices| == 0 then gpuIndices else decodeIndices }
  }

  /** A role's own list if it has one, else the shared one, stays within range. */
  ghost predicate RoleValid(totalGPUs: int, own: seq<int>, shared: seq<int>)
  {
    totalGPUs <= 0 || forall g :: g in own || (own == [] && g in shared) ==> 0 <= g < totalGPUs
  }

  /** The role has the devices of its own list; without one those of the shared list; without
      either all of them. */
  predicate RoleGranted(totalGPUs: int, own: seq<int>, shared: seq<int>, gpus: seq<int>)
  {
    && (own != [] ==> multiset(gpus) == multiset(own))
    && (own == [] && shared != [] ==> multiset(gpus) == multiset(shared))
    && (own == [] && shared == [] && totalGPUs > 0 ==> EachOnce(gpus, totalGPUs))
  }

  /** The single-container path: rejected indices change nothing. */
  ghost predicate SingleOutcome(held: Held, totalGPUs: int, rq: LoadRequest, gpus: seq<int>, held': Held)
    requires NonEmpty(held)
  {
    if AllValid(rq.gpuIndices, totalGPUs)
    then Given(held, rq.id, Requested(totalGPUs, rq.gpuIndices), gpus, held')
    else held' == held
  }

  /** The group path: both lists are checked before either role is given devices. */
  ghost predicate GroupOutcome(held: Held, totalGPUs: int, rq: LoadRequest, prefill: seq<int>, decode: seq<int>,
                               held': Held)
    requires NonEmpty(held)
  {
    if AllValid(rq.Prefill(), totalGPUs) && AllValid(rq.Decode(), totalGPUs) then
      var between := if |Requested(totalGPUs, rq.Prefill())| == 0 then held else held[rq.id + "/prefill" := prefill];
      && Given(held, rq.id + "/prefill", Requested(totalGPUs, rq.Prefill()), prefill, between)
      && NonEmpty(between)
      && Given(between, rq.id + "/decode", Requested(totalGPUs, rq.Decode()), decode, held')
    else held' == held
  }

  /** A single request that gives id no other devices than it has. */
  predicate SingleIsIdle(held: Held, totalGPUs: int, rq: LoadRequest)
  {
    !AllValid(rq.gpuIndices, totalGPUs) || GrantIsIdle(held, rq.id, Requested(totalGPUs, rq.gpuIndices))
  }

  /** A group request that gives neither role other devices than it has. */
  predicate GroupIsIdle(held: Held, totalGPUs: int, rq: LoadRequest)
  {
    || !AllValid(rq.Prefill(), totalGPUs) || !AllValid(rq.Decode(), totalGPUs)
    || (GrantIsIdle(held, rq.id + "/prefill", Requested(totalGPUs, rq.Prefill()))
        && GrantIsIdle(held, rq.id + "/decode", Requested(totalGPUs, rq.Decode())))
  }

  lemma RolesDiffer(id: string)
    ensures id + "/prefill" != id + "/decode" && id != id + "/prefill" && id != id + "/decode"
  {
    assert (id + "/prefill")[|id| + 1] != (id + "/decode")[|id| + 1];
    assert |id + "/prefill"| > |id| && |id + "/decode"| > |id|;
  }

  lemma SingleIdleIff(held: Held, totalGPUs: int, rq: LoadRequest, gpus: seq<int>, held': Held)
    requires NonEmpty(held) && SingleOutcome(held, totalGPUs, rq, gpus, held')
    ensures SameDevices(held, held') <==> SingleIsIdle(held, totalGPUs, rq)
  {
    if AllValid(rq.gpuIndices, totalGPUs) {
      IdleIff(held, rq.id, Requested(totalGPUs, rq.gpuIndices), gpus, held');
    }
  }

  lemma GroupIdleIff(held: Held, totalGPUs: int, rq: LoadRequest, prefill: seq<int>, decode: seq<int>, held': Held)
    requires NonEmpty(held) && GroupOutcome(held, totalGPUs, rq, prefill, decode, held')
    ensures SameDevices(held, held') <==> GroupIsIdle(held, totalGPUs, rq)
  {
    if AllValid(rq.Prefill(), totalGPUs) && AllValid(rq.Decode(), totalGPUs) {
      var p, d := rq.id + "/prefill", rq.id + "/decode";
      var wantedP, wantedD := Requested(totalGPUs, rq.Prefill()), Requested(totalGPUs, rq.Decode());
      var between := if |wantedP| == 0 then held else held[p := prefill];
      RolesDiffer(rq.id);
      IdleIff(held, p, wantedP, prefill, between);
      IdleIff(between, d, wantedD, decode, held');
      assert (p in held' <==> p in between) && (p in between ==> held'[p] == between[p]);
      assert (d in between <==> d in held) && (d in held ==> between[d] == held[d]);
    }
  }

  class Dispatcher {
    const totalGPUs: int
    const allocator: GPUAllocator

    ghost predicate Valid()
      reads this, allocator
    {
      && allocator.Valid() && allocator.totalGPUs == totalGPUs
      && (totalGPUs > 0 ==> InRange(allocator.held, totalGPUs))
    }

    constructor (totalGPUs: int)
      ensures Valid() && fresh(allocator) && allocator.held == map[] && this.totalGPUs == totalGPUs
    {
      this.totalGPUs := totalGPUs;
      allocator := new GPUAllocator(totalGPUs);
    }

    /** LoadModel: prefill replicas select the group path. recipeKnown, planOk and loadOk
        stand for the recipe table's, the recipe's and the runtime's answers. gpus are the
        devices of the single path or of prefill, more those of decode. After a failed load
        every holder has the devices it had exactly when the recipe is unknown or the request
        is idle. */
    method LoadModel(rq: LoadRequest, recipeKnown: bool, planOk: bool, loadOk: bool)
      returns (ok: bool, gpus: seq<int>, more: seq<int>)
      requires Valid()
      modifies allocator
      ensures Valid()
      ensures !recipeKnown ==> !ok && allocator.held == old(allocator.held)
      ensures recipeKnown && rq.prefillReplicas <= 0 ==>
                && SingleOutcome(old(allocator.held), totalGPUs, rq, gpus, allocator.held)
                && (ok <==> AllValid(rq.gpuIndices, totalGPUs) && planOk && loadOk)
                && (ok ==> Serves(totalGPUs, rq.gpuIndices, gpus))
                && (!ok ==> (SameDevices(old(allocator.held), allocator.held) <==>
                      SingleIsIdle(old(allocator.held), totalGPUs, rq)))
      ensures recipeKnown && rq.prefillReplicas > 0 ==>
                && GroupOutcome(old(allocator.held), totalGPUs, rq, gpus, more, allocator.held)
                && (ok <==> RoleValid(totalGPUs, rq.prefillIndices, rq.gpuIndices)
                            && RoleValid(totalGPUs, rq.decodeIndices, rq.gpuIndices) && planOk && loadOk)
                && (ok ==> RoleGranted(totalGPUs, rq.prefillIndices, rq.gpuIndices, gpus)
                           && RoleGranted(totalGPUs, rq.decodeIndices, rq.gpuIndices, more))
                && (!ok ==> (SameDevices(old(allocator.held), allocator.held) <==>
                      GroupIsIdle(old(allocator.held), totalGPUs, rq)))
    {
      gpus, more := [], [];
      if !recipeKnown {
        return false, gpus, more;
      }
      ghost var held := allocator.held;
      if rq.prefillReplicas > 0 {
        ok, gpus, more := LoadDeploymentGroup(rq, planOk, loadOk);
        GroupIdleIff(held, totalGPUs, rq, gpus, more, allocator.held);
      } else {
        ok, gpus := LoadSingle(rq, planOk, loadOk);
        SingleIdleIff(held, totalGPUs, rq, gpus, allocator.held);
      }
    }

    /** The single-container part of LoadModel. */
    method LoadSingle(rq: LoadRequest, planOk: bool, loadOk: bool) returns (ok: bool, gpus: seq<int>)
      requires Valid()
      modifies allocator
      ensures Valid() && SingleOutcome(old(allocator.held), totalGPUs, rq, gpus, allocator.held)
      ensures ok <==> AllValid(rq.gpuIndices, totalGPUs) && planOk && loadOk
      ensures ok ==> Serves(totalGPUs, rq.gpuIndices, gpus)
    {
      gpus := [];
      ok := ValidateGPUIndices(rq.gpuIndices, totalGPUs);
      if !ok {
        return;
      }
      gpus := allocator.Allocate(rq.id, rq.gpuIndices);
      StaysInRange(old(allocator.held), rq.id, rq.gpuIndices, gpus, totalGPUs);
      ok := planOk && loadOk;
    }

    /** loadDeploymentGroup. */
    method LoadDeploymentGroup(rq: LoadRequest, planOk: bool, loadOk: bool)
      returns (ok: bool, prefill: seq<int>, decode: seq<int>)
      requires Valid()
      modifies allocator
      ensures Valid() && GroupOutcome(old(allocator.held), totalGPUs, rq, prefill, decode, allocator.held)
      ensures ok <==> AllValid(rq.Prefill(), totalGPUs) && AllValid(rq.Decode(), totalGPUs) && planOk && loadOk
      ensures ok ==> Serves(totalGPUs, rq.Prefill(), prefill) && Serves(totalGPUs, rq.Decode(), decode)
    {
      prefill, decode := [], [];
      ok := ValidateGPUIndices(rq.Prefill(), totalGPUs);
      if !ok {
        return;
      }
      ok := ValidateGPUIndices(rq.Decode(), totalGPUs);
      if !ok {
        return;
      }
      prefill := allocator.Allocate(rq.id + "/prefill", rq.Prefill());
      StaysInRange(old(allocator.held), rq.id + "/prefill", rq.Prefill(), prefill, totalGPUs);
      ghost var between := allocator.held;
      decode := allocator.Allocate(rq.id + "/decode", rq.Decode());
      StaysInRange(between, rq.id + "/decode", rq.Decode(), decode, totalGPUs);
      ok := planOk && loadOk;
    }

    /** The releases of UnloadModel: the deployment and both its roles give back their
        devices, before the runtime is asked to unload anything. */
    method ReleaseAll(id: string)
      requires Valid()
      modifies allocator
      ensures Valid()
      ensures allocator.held == old(allocator.held) - {id, id + "/prefill", id + "/decode"}
    {
      allocator.Release(id);
      allocator.Release(id + "/prefill");
      allocator.Release(id + "/decode");
    }
  }

  /** Two failed loads on a host with two devices: each keeps what it was given. */
  method FailedLoadsKeepDevices() returns (single: bool, grouped: bool, held: Held)
    ensures !single && !grouped
    ensures held.Keys == {"a", "b/prefill", "b/decode"}
    ensures forall dep :: dep in held ==> multiset(held[dep]) == multiset{0, 1}
  {
    var d := new Dispatcher(2);
    var g, h;
    single, g, h := d.LoadModel(LoadRequest("a", [], 0, [], []), true, true, false);
    assert Requested(2, []) == [0, 1];
    assert d.allocator.held.Keys == {"a"} && multiset(d.allocator.held["a"]) == multiset{0, 1};
    grouped := FailedGroupLoad(d);
    held := d.allocator.held;
  }

  /** The second of them: the recipe fails after both roles got their devices. */
  method FailedGroupLoad(d: Dispatcher) returns (ok: bool)
    requires d.Valid() && d.totalGPUs == 2
    modifies d.allocator
    ensures !ok && d.allocator.held.Keys == old(d.allocator.held.Keys) + {"b/prefill", "b/decode"}
    ensures forall dep :: dep in d.allocator.held ==>
              if dep == "b/prefill" || dep == "b/decode" then multiset(d.allocator.held[dep]) == multiset{0, 1}
              else d.allocator.held[dep] == old(d.allocator.held)[dep]
  {
    RolesDiffer("b");
    assert "b" + "/prefill" == "b/prefill" && "b" + "/decode" == "b/decode";
    var g, h;
    ok, g, h := d.LoadModel(LoadRequest("b", [0, 1], 1, [], []), true, false, true);
  }

  lemma StaysInRange(held: Held, id: string, desirable: seq<int>, selected: seq<int>, totalGPUs: int)
    requires AllValid(desirable, totalGPUs)
    requires totalGPUs > 0 ==> InRange(held, totalGPUs)
    requires multiset(selected) == multiset(Requested(totalGPUs, desirable))
    ensures totalGPUs > 0 ==> InRange(held[id := selected], totalGPUs)
  {
    forall g | g in selected ensures g in Requested(totalGPUs, desirable) {
      assert g in multiset(selected);
    }
  }
}
