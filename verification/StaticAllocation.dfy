/** The share computation behind GPU admission: hard floors first, then an equal
    split, then the remaining slack split over the agents below the equal share.
    Resources are reals; the source computes with float64. */
module StaticAllocation {
  import opened Sums

  datatype Agent = Agent(name: string, minResource: real)

  datatype Outcome =
    | Planned(allocations: map<string, real>, totalUsed: real)
    | AdmissionFailed

  function Max(x: real, y: real): real { if x > y then x else y }

  // The four per-agent quantities the allocator sums.

  function Floor(): Agent -> real { (a: Agent) => a.minResource }

  function AtLeast(share: real): Agent -> real { (a: Agent) => Max(share, a.minResource) }

  function Receives(share: real): Agent -> real { (a: Agent) => if share > a.minResource then 1.0 else 0.0 }

  function Granted(share: real, slack: real): Agent -> real {
    (a: Agent) => if share > a.minResource then a.minResource + slack else a.minResource
  }

  /** What only the slack receivers get. */
  function GrantedToReceivers(share: real, slack: real): Agent -> real {
    (a: Agent) => if share > a.minResource then a.minResource + slack else 0.0
  }

  function EqualShare(agents: seq<Agent>, capacity: real): real
    requires |agents| > 0
  {
    capacity / |agents| as real
  }

  predicate Overflows(agents: seq<Agent>, capacity: real)
    requires |agents| > 0
  {
    Sum(AtLeast(EqualShare(agents, capacity)), agents) > capacity
  }

  function SlackShare(agents: seq<Agent>, capacity: real): real
    requires |agents| > 0
  {
    var receivers := Sum(Receives(EqualShare(agents, capacity)), agents);
    if receivers == 0.0 then 0.0 else (capacity - Sum(Floor(), agents)) / receivers
  }

  /** The amount agent a ends up with. */
  function ShareOf(agents: seq<Agent>, capacity: real, a: Agent): real
    requires |agents| > 0
  {
    var equal := EqualShare(agents, capacity);
    if Overflows(agents, capacity) then Granted(equal, SlackShare(agents, capacity))(a)
    else AtLeast(equal)(a)
  }

  function Shares(agents: seq<Agent>, capacity: real): Agent -> real
    requires |agents| > 0
  {
    (a: Agent) => ShareOf(agents, capacity, a)
  }

  function Names(agents: seq<Agent>): set<string>
  {
    set a | a in agents :: a.name
  }

  // ----- linear facts about the sums --------------------------------------------

  lemma {:induction false} GrantedTotal(agents: seq<Agent>, share: real, slack: real)
    ensures Sum(Granted(share, slack), agents) == Sum(Floor(), agents) + slack * Sum(Receives(share), agents)
  {
    if |agents| > 0 {
      GrantedTotal(agents[..|agents| - 1], share, slack);
    }
  }

  lemma {:induction false} AtLeastBounds(agents: seq<Agent>, share: real)
    ensures Sum(AtLeast(share), agents) >= share * |agents| as real
    ensures Sum(AtLeast(share), agents) >= Sum(Floor(), agents)
    ensures Sum(Receives(share), agents) >= 0.0
    ensures Sum(Receives(share), agents) == 0.0 ==> Sum(AtLeast(share), agents) == Sum(Floor(), agents)
  {
    if |agents| > 0 {
      AtLeastBounds(agents[..|agents| - 1], share);
    }
  }

  lemma {:induction false} ReceiverExcess(agents: seq<Agent>, share: real, slack: real)
    ensures Sum(Granted(share, slack), agents) - Sum(GrantedToReceivers(share, slack), agents)
         == Sum(AtLeast(share), agents) - share * Sum(Receives(share), agents)
  {
    if |agents| > 0 {
      ReceiverExcess(agents[..|agents| - 1], share, slack);
    }
  }

  lemma EqualShareTimesCount(agents: seq<Agent>, capacity: real)
    requires |agents| > 0
    ensures EqualShare(agents, capacity) * |agents| as real == capacity
  {
  }

  // ----- the allocator's guarantees --------------------------------------------

  /** Redistribution never divides by zero, and it really is a cut: the receivers
      together get strictly less than an equal share each. */
  lemma OverflowHasReceivers(agents: seq<Agent>, capacity: real)
    requires |agents| > 0
    requires Sum(Floor(), agents) <= capacity
    requires Overflows(agents, capacity)
    ensures var equal := EqualShare(agents, capacity);
            var receivers := Sum(Receives(equal), agents);
            && receivers > 0.0
            && Sum(GrantedToReceivers(equal, SlackShare(agents, capacity)), agents) < receivers * equal
  {
    var equal := EqualShare(agents, capacity);
    var slack := SlackShare(agents, capacity);
    AtLeastBounds(agents, equal);
    SlackTimesReceivers(agents, capacity);
    GrantedTotal(agents, equal, slack);
    ReceiverExcess(agents, equal, slack);
  }

  lemma SlackTimesReceivers(agents: seq<Agent>, capacity: real)
    requires |agents| > 0
    requires Sum(Floor(), agents) <= capacity
    requires Sum(Receives(EqualShare(agents, capacity)), agents) > 0.0
    ensures SlackShare(agents, capacity) * Sum(Receives(EqualShare(agents, capacity)), agents)
         == capacity - Sum(Floor(), agents)
    ensures SlackShare(agents, capacity) >= 0.0
  {
    var receivers := Sum(Receives(EqualShare(agents, capacity)), agents);
    var remaining := capacity - Sum(Floor(), agents);
    QuotientTimes(remaining, receivers);
  }

  lemma QuotientTimes(x: real, y: real)
    requires y > 0.0
    ensures x / y * y == x
    ensures x >= 0.0 ==> x / y >= 0.0
  {
  }

  /** Admitted plans hand out the pool exactly. */
  lemma ExhaustsPool(agents: seq<Agent>, capacity: real)
    requires |agents| > 0
    requires Sum(Floor(), agents) <= capacity
    ensures Sum(Shares(agents, capacity), agents) == capacity
  {
    if Overflows(agents, capacity) {
      OverflowExhausts(agents, capacity);
    } else {
      EqualSplitExhausts(agents, capacity);
    }
  }

  /** Nobody is pushed below its floor. */
  lemma FloorsKept(agents: seq<Agent>, capacity: real, a: Agent)
    requires |agents| > 0
    requires Sum(Floor(), agents) <= capacity
    ensures ShareOf(agents, capacity, a) >= a.minResource
  {
    if Overflows(agents, capacity) {
      OverflowExhausts(agents, capacity);
    }
  }

  lemma EqualSplitExhausts(agents: seq<Agent>, capacity: real)
    requires |agents| > 0
    requires !Overflows(agents, capacity)
    ensures Sum(AtLeast(EqualShare(agents, capacity)), agents) == capacity
    ensures Sum(Shares(agents, capacity), agents) == capacity
  {
    var equal := EqualShare(agents, capacity);
    EqualShareTimesCount(agents, capacity);
    AtLeastBounds(agents, equal);
    SumPointwise(Shares(agents, capacity), AtLeast(equal), agents);
  }

  lemma OverflowExhausts(agents: seq<Agent>, capacity: real)
    requires |agents| > 0
    requires Sum(Floor(), agents) <= capacity
    requires Overflows(agents, capacity)
    ensures var grant := Granted(EqualShare(agents, capacity), SlackShare(agents, capacity));
            && Sum(grant, agents) == capacity
            && Sum(Shares(agents, capacity), agents) == capacity
    ensures SlackShare(agents, capacity) >= 0.0
  {
    var equal := EqualShare(agents, capacity);
    var slack := SlackShare(agents, capacity);
    OverflowHasReceivers(agents, capacity);
    SlackTimesReceivers(agents, capacity);
    GrantedTotal(agents, equal, slack);
    SumPointwise(Shares(agents, capacity), Granted(equal, slack), agents);
  }

  function Times(n: nat, x: real): real { if n == 0 then 0.0 else Times(n - 1, x) + x }

  lemma {:induction false} TimesIsProduct(n: nat, x: real)
    ensures Times(n, x) == n as real * x
  {
    if n > 0 {
      TimesIsProduct(n - 1, x);
    }
  }

  // ----- what each agent gets, from the floors alone --------------------------------

  function Below(agents: seq<Agent>, share: real): set<Agent>
  {
    set a | a in agents && a.minResource < share
  }

  /** When every floor fits the equal share, everyone gets just that. Otherwise floors at or
      above it are met exactly, and the others get their floor and an equal part of what the
      floors leave over. */
  ghost predicate SharedOut(agents: seq<Agent>, equal: real, left: real, m: map<string, real>)
  {
    && m.Keys == Names(agents)
    && if forall a :: a in agents ==> a.minResource <= equal
       then forall a :: a in agents ==> m[a.name] == equal
       else forall a :: a in agents ==>
              m[a.name] == a.minResource
                           + if a.minResource < equal then EqualPart(left, Below(agents, equal)) else 0.0
  }

  function EqualPart(left: real, among: set<Agent>): real
  {
    if |among| == 0 then 0.0 else left / |among| as real
  }

  lemma {:induction false} NoExcess(agents: seq<Agent>, share: real)
    requires forall a :: a in agents ==> a.minResource <= share
    ensures Sum(AtLeast(share), agents) == Times(|agents|, share)
  {
    if |agents| > 0 {
      NoExcess(agents[..|agents| - 1], share);
    }
  }

  lemma {:induction false} AtLeastTimes(agents: seq<Agent>, share: real)
    ensures Sum(AtLeast(share), agents) >= Times(|agents|, share)
  {
    if |agents| > 0 {
      AtLeastTimes(agents[..|agents| - 1], share);
    }
  }

  lemma {:induction false} SomeExcess(agents: seq<Agent>, share: real, k: nat)
    requires k < |agents| && agents[k].minResource > share
    ensures Sum(AtLeast(share), agents) > Times(|agents|, share)
  {
    var n := |agents| - 1;
    if k < n {
      SomeExcess(agents[..n], share, k);
    } else {
      AtLeastTimes(agents[..n], share);
    }
  }

  /** Equal shares are too much for the pool exactly when some floor exceeds them. */
  lemma OverflowsIff(agents: seq<Agent>, capacity: real)
    requires |agents| > 0
    ensures Overflows(agents, capacity)
       <==> exists a :: a in agents && a.minResource > EqualShare(agents, capacity)
  {
    var equal := EqualShare(agents, capacity);
    EqualShareTimesCount(agents, capacity);
    TimesIsProduct(|agents|, equal);
    if k :| 0 <= k < |agents| && agents[k].minResource > equal {
      SomeExcess(agents, equal, k);
    } else {
      NoExcess(agents, equal);
    }
  }

  lemma BelowSnoc(agents: seq<Agent>, a: Agent, share: real)
    requires a !in agents
    ensures |Below(agents + [a], share)| == |Below(agents, share)| + if a.minResource < share then 1 else 0
  {
    var more := agents + [a];
    assert a in more;
    forall b ensures b in more <==> b in agents || b == a {
      if b in agents {
        var k :| 0 <= k < |agents| && agents[k] == b;
        assert more[k] == b;
      }
    }
    assert Below(more, share) == Below(agents, share) + if a.minResource < share then {a} else {};
  }

  lemma {:induction false} ReceiversAreBelow(agents: seq<Agent>, share: real)
    requires DistinctNames(agents)
    ensures Sum(Receives(share), agents) == |Below(agents, share)| as real
  {
    if |agents| > 0 {
      var n := |agents| - 1;
      ReceiversAreBelow(agents[..n], share);
      assert agents[..n] + [agents[n]] == agents;
      BelowSnoc(agents[..n], agents[n], share);
    }
  }

  lemma SlackIsEqualPart(agents: seq<Agent>, capacity: real)
    requires |agents| > 0 && DistinctNames(agents)
    ensures SlackShare(agents, capacity)
         == EqualPart(capacity - Sum(Floor(), agents), Below(agents, EqualShare(agents, capacity)))
  {
    ReceiversAreBelow(agents, EqualShare(agents, capacity));
  }

  /** What agent a gets, from the quantities the allocator works with. */
  function GrantFor(equal: real, slack: real, overflows: bool, a: Agent): real
  {
    if overflows then Granted(equal, slack)(a) else AtLeast(equal)(a)
  }

  lemma ReadsBack(agents: seq<Agent>, capacity: real, a: Agent)
    requires |agents| > 0 && DistinctNames(agents) && a in agents
    ensures Assigned(agents, Shares(agents, capacity))[a.name]
         == GrantFor(EqualShare(agents, capacity), SlackShare(agents, capacity), Overflows(agents, capacity), a)
  {
    AssignedAt(agents, Shares(agents, capacity), a);
  }

  lemma AllReadBack(agents: seq<Agent>, capacity: real, equal: real, slack: real, overflows: bool, m: map<string, real>)
    requires |agents| > 0 && DistinctNames(agents) && m == Assigned(agents, Shares(agents, capacity))
    requires equal == EqualShare(agents, capacity) && slack == SlackShare(agents, capacity)
    requires overflows == Overflows(agents, capacity)
    ensures forall a :: a in agents ==> m[a.name] == GrantFor(equal, slack, overflows, a)
  {
    forall a | a in agents ensures m[a.name] == GrantFor(equal, slack, overflows, a) {
      ReadsBack(agents, capacity, a);
    }
  }

  lemma SlackOf(agents: seq<Agent>, capacity: real, equal: real, slack: real, left: real)
    requires |agents| > 0 && DistinctNames(agents) && left == capacity - Sum(Floor(), agents)
    requires equal == EqualShare(agents, capacity) && slack == SlackShare(agents, capacity)
    ensures slack == EqualPart(left, Below(agents, equal))
  {
    SlackIsEqualPart(agents, capacity);
  }

  lemma OverflowOf(agents: seq<Agent>, capacity: real, equal: real, overflows: bool)
    requires |agents| > 0 && equal == EqualShare(agents, capacity) && overflows == Overflows(agents, capacity)
    ensures overflows <==> exists a :: a in agents && a.minResource > equal
  {
    OverflowsIff(agents, capacity);
  }

  /** The quantities behind the shares, as the floors and the pool determine them. */
  lemma Quantities(agents: seq<Agent>, capacity: real, equal: real, left: real, m: map<string, real>)
    returns (slack: real, overflows: bool)
    requires |agents| > 0 && DistinctNames(agents) && m == Assigned(agents, Shares(agents, capacity))
    requires equal == EqualShare(agents, capacity) && left == capacity - Sum(Floor(), agents)
    ensures m.Keys == Names(agents) && slack == EqualPart(left, Below(agents, equal))
    ensures overflows <==> exists a :: a in agents && a.minResource > equal
    ensures forall a :: a in agents ==> m[a.name] == GrantFor(equal, slack, overflows, a)
  {
    slack, overflows := SlackShare(agents, capacity), Overflows(agents, capacity);
    SlackOf(agents, capacity, equal, slack, left);
    OverflowOf(agents, capacity, equal, overflows);
    AllReadBack(agents, capacity, equal, slack, overflows, m);
  }

  lemma SharesAreFair(agents: seq<Agent>, capacity: real, equal: real, left: real, m: map<string, real>)
    requires |agents| > 0 && DistinctNames(agents) && m == Assigned(agents, Shares(agents, capacity))
    requires equal == EqualShare(agents, capacity) && left == capacity - Sum(Floor(), agents)
    ensures SharedOut(agents, equal, left, m)
  {
    var slack, overflows := Quantities(agents, capacity, equal, left, m);
    FromGrants(agents, equal, slack, left, overflows, m);
  }

  lemma FromGrants(agents: seq<Agent>, equal: real, slack: real, left: real, overflows: bool, m: map<string, real>)
    requires m.Keys == Names(agents) && slack == EqualPart(left, Below(agents, equal))
    requires overflows <==> exists a :: a in agents && a.minResource > equal
    requires forall a :: a in agents ==> m[a.name] == GrantFor(equal, slack, overflows, a)
    ensures SharedOut(agents, equal, left, m)
  {
  }

  /** The order in which the agents are listed is irrelevant. */
  lemma OrderIrrelevant(xs: seq<Agent>, ys: seq<Agent>, capacity: real)
    requires |xs| > 0 && multiset(xs) == multiset(ys)
    ensures |xs| == |ys|
    ensures Sum(Floor(), xs) == Sum(Floor(), ys)
    ensures forall a :: ShareOf(xs, capacity, a) == ShareOf(ys, capacity, a)
  {
    assert |xs| == |multiset(xs)| == |multiset(ys)| == |ys|;
    var equal := EqualShare(xs, capacity);
    SumPermutation(Floor(), xs, ys);
    SumPermutation(AtLeast(equal), xs, ys);
    SumPermutation(Receives(equal), xs, ys);
  }

  /** AllocateStatic. With a repeated name the later entry overwrites the earlier
      one, exactly as the map assignment does. */
  method AllocateStatic(agents: seq<Agent>, capacity: real) returns (plan: Outcome)
    ensures agents == [] ==> plan == Planned(map[], 0.0)
    ensures agents != [] ==> (plan.AdmissionFailed? <==> Sum(Floor(), agents) > capacity)
    ensures agents != [] && plan.Planned? ==>
              && plan.totalUsed == capacity
              && plan.allocations == Assigned(agents, Shares(agents, capacity))
              && (DistinctNames(agents) ==>
                    SharedOut(agents, capacity / |agents| as real, capacity - Sum(Floor(), agents), plan.allocations))
  {
    var n := |agents|;
    if n == 0 {
      return Planned(map[], 0.0);
    }
    var minSum := 0.0;
    for i := 0 to n
      invariant minSum == Sum(Floor(), agents[..i])
    {
      SumSnoc(Floor(), agents[..i], agents[i]);
      assert agents[..i] + [agents[i]] == agents[..i + 1];
      minSum := minSum + agents[i].minResource;
    }
    assert agents[..n] == agents;
    if minSum > capacity {
      return AdmissionFailed;
    }
    var equalShare := capacity / n as real;
    var total := 0.0;
    var temp: seq<real> := [];
    for i := 0 to n
      invariant |temp| == i && forall k :: 0 <= k < i ==> temp[k] == AtLeast(equalShare)(agents[k])
      invariant total == Sum(AtLeast(equalShare), agents[..i])
    {
      SumSnoc(AtLeast(equalShare), agents[..i], agents[i]);
      assert agents[..i] + [agents[i]] == agents[..i + 1];
      temp := temp + [Max(equalShare, agents[i].minResource)];
      total := total + temp[i];
    }
    if total > capacity {
      plan := RedistributeSlack(agents, capacity, minSum, equalShare);
      AssignedPointwise(agents, Granted(equalShare, SlackShare(agents, capacity)), Shares(agents, capacity));
    } else {
      EqualSplitExhausts(agents, capacity);
      var allocations := GrantTemporary(agents, equalShare, temp);
      plan := Planned(allocations, total);
      AssignedPointwise(agents, AtLeast(equalShare), Shares(agents, capacity));
    }
    if DistinctNames(agents) {
      SharesAreFair(agents, capacity, equalShare, capacity - minSum, plan.allocations);
    }
  }

  /** The branch of AllocateStatic in which the temporary shares stand. */
  method GrantTemporary(agents: seq<Agent>, equalShare: real, temp: seq<real>) returns (allocations: map<string, real>)
    requires |temp| == |agents| && forall k :: 0 <= k < |agents| ==> temp[k] == AtLeast(equalShare)(agents[k])
    ensures allocations == Assigned(agents, AtLeast(equalShare))
  {
    allocations := map[];
    for i := 0 to |agents|
      invariant allocations == Assigned(agents[..i], AtLeast(equalShare))
    {
      assert agents[..i + 1][..i] == agents[..i];
      allocations := allocations[agents[i].name := temp[i]];
    }
    assert agents[..|agents|] == agents;
  }

  /** The overflow branch of AllocateStatic. */
  method RedistributeSlack(agents: seq<Agent>, capacity: real, minSum: real, equalShare: real)
    returns (plan: Outcome)
    requires |agents| > 0 && minSum == Sum(Floor(), agents) <= capacity
    requires equalShare == EqualShare(agents, capacity) && Overflows(agents, capacity)
    ensures plan.Planned? && plan.totalUsed == capacity
    ensures plan.allocations == Assigned(agents, Granted(equalShare, SlackShare(agents, capacity)))
  {
    var remaining := capacity - minSum;
    var receivers := 0;
    for i := 0 to |agents|
      invariant receivers as real == Sum(Receives(equalShare), agents[..i])
    {
      SumSnoc(Receives(equalShare), agents[..i], agents[i]);
      assert agents[..i] + [agents[i]] == agents[..i + 1];
      if equalShare > agents[i].minResource {
        receivers := receivers + 1;
      }
    }
    assert agents[..|agents|] == agents;
    OverflowHasReceivers(agents, capacity);
    var slackShare := 0.0;
    if receivers > 0 {
      slackShare := remaining / receivers as real;
    }
    assert slackShare == SlackShare(agents, capacity);
    var allocations, total := GrantAll(agents, equalShare, slackShare);
    OverflowExhausts(agents, capacity);
    plan := Planned(allocations, total);
  }

  method GrantAll(agents: seq<Agent>, equalShare: real, slackShare: real)
    returns (allocations: map<string, real>, total: real)
    ensures total == Sum(Granted(equalShare, slackShare), agents)
    ensures allocations == Assigned(agents, Granted(equalShare, slackShare))
  {
    allocations, total := map[], 0.0;
    for i := 0 to |agents|
      invariant total == Sum(Granted(equalShare, slackShare), agents[..i])
      invariant allocations == Assigned(agents[..i], Granted(equalShare, slackShare))
    {
      SumSnoc(Granted(equalShare, slackShare), agents[..i], agents[i]);
      assert agents[..i] + [agents[i]] == agents[..i + 1];
      assert agents[..i + 1][..i] == agents[..i];
      if equalShare > agents[i].minResource {
        allocations := allocations[agents[i].name := agents[i].minResource + slackShare];
      } else {
        allocations := allocations[agents[i].name := agents[i].minResource];
      }
      total := total + allocations[agents[i].name];
    }
    assert agents[..|agents|] == agents;
  }

  /** The map after assigning f to the first n agents in order. */
  ghost function Assigned(agents: seq<Agent>, f: Agent -> real): (m: map<string, real>)
    ensures m.Keys == Names(agents)
  {
    if |agents| == 0 then map[]
    else
      var n := |agents| - 1;
      assert agents == agents[..n] + [agents[n]];
      Assigned(agents[..n], f)[agents[n].name := f(agents[n])]
  }

  lemma AssignedPointwise(agents: seq<Agent>, f: Agent -> real, g: Agent -> real)
    requires forall a :: f(a) == g(a)
    ensures Assigned(agents, f) == Assigned(agents, g)
  {
  }

  /** With distinct names, every agent reads back its own value. */
  lemma {:induction false} AssignedAt(agents: seq<Agent>, f: Agent -> real, a: Agent)
    requires DistinctNames(agents)
    requires a in agents
    ensures Assigned(agents, f)[a.name] == f(a)
  {
    var n := |agents| - 1;
    if a != agents[n] {
      assert a in agents[..n];
      AssignedAt(agents[..n], f, a);
    }
  }

  predicate DistinctNames(agents: seq<Agent>)
  {
    forall i, j :: 0 <= i < j < |agents| ==> agents[i].name != agents[j].name
  }

  /** For distinct names the whole plan is a function of the set of agents: any two
      listings get the same allocations map. */
  lemma PlanOrderIrrelevant(xs: seq<Agent>, ys: seq<Agent>, capacity: real)
    requires |xs| > 0 && multiset(xs) == multiset(ys)
    requires DistinctNames(xs) && DistinctNames(ys)
    ensures |ys| > 0 && Assigned(xs, Shares(xs, capacity)) == Assigned(ys, Shares(ys, capacity))
  {
    OrderIrrelevant(xs, ys, capacity);
    forall a ensures a in xs <==> a in ys {
      assert a in xs <==> a in multiset(xs);
    }
    assert Names(xs) == Names(ys);
    forall name | name in Names(xs)
      ensures Assigned(xs, Shares(xs, capacity))[name] == Assigned(ys, Shares(ys, capacity))[name]
    {
      var a :| a in xs && a.name == name;
      AssignedAt(xs, Shares(xs, capacity), a);
      AssignedAt(ys, Shares(ys, capacity), a);
    }
  }
}
