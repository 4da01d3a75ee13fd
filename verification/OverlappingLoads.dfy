/** Overlapping LoadModel calls for one deployment id, interleaved at every access to
    shared state. Docker's cleanup calls succeed here and nobody unloads. */
module OverlappingLoads {
  import opened DockerEngine
  import opened Deployment
  import opened Agreement
  import opened Options

  datatype Result = Loaded(endpoint: Endpoint) | NoPort | Failed

  /** Where a call stands. From CheckState to Dropping it holds its record's lock. */
  datatype Call =
    | Idle
    | Waiting(rec: nat)
    | CheckState(rec: nat)
    | CheckEndpoint(rec: nat)
    | Answer(rec: nat)
    | Allocate(rec: nat)
    | SetPulling(rec: nat, port: int)
    | Pull(rec: nat, port: int)
    | Create(rec: nat, port: int)
    | SetID(rec: nat, port: int, cid: ContainerID)
    | Start(rec: nat, port: int, cid: ContainerID)
    | Ready(rec: nat, port: int, cid: ContainerID)
    | Fill(rec: nat, port: int, cid: ContainerID)
    | SetRunning(rec: nat, port: int, cid: ContainerID)
    | Dropping(rec: nat)
    | Done(result: Result)
  {
    /** The call got its record and has not returned. */
    predicate Holds() { !Idle? && !Done? }

    predicate Locked() { Holds() && !Waiting? }

    /** The container this call has created and not yet torn down. */
    predicate HasContainer() { SetID? || Start? || Ready? || Fill? || SetRunning? }
  }

  datatype Record = Record(state: State, endpoint: Endpoint, containerID: ContainerID, locked: bool)

  /** entry is what the deployments map holds for the id; records are all records ever
      made for it. live are the containers under the deployment's name. */
  datatype System = System(calls: seq<Call>, records: seq<Record>, entry: Option<nat>,
                           live: set<ContainerID>, creates: nat, tornDown: nat)

  /** One step of one call: ok says whether the attempted operation succeeds, port is
      the allocator's answer. */
  datatype Event = Event(call: nat, ok: bool, port: int)

  // setState and setContainerID go through the deployments map, not through the record
  // the call holds.

  function UpdateEntry(s: System, f: Record -> Record): System
  {
    if s.entry.Some? && s.entry.value < |s.records|
    then s.(records := s.records[s.entry.value := f(s.records[s.entry.value])])
    else s
  }

  function At(s: System, c: nat, to: Call): System
    requires c < |s.calls|
  {
    s.(calls := s.calls[c := to])
  }

  function Unlock(s: System, rec: nat): System
  {
    if rec < |s.records| then s.(records := s.records[rec := s.records[rec].(locked := false)]) else s
  }

  function Return(s: System, c: nat, rec: nat, result: Result): System
    requires c < |s.calls|
  {
    Unlock(At(s, c, Done(result)), rec)
  }

  function StatusOf(s: System): State
  {
    if s.entry.Some? && s.entry.value < |s.records| then s.records[s.entry.value].state else Absent
  }

  function EndpointOf(s: System): Endpoint
  {
    if s.entry.Some? && s.entry.value < |s.records| then s.records[s.entry.value].endpoint else NoEndpoint
  }

  function IDOf(s: System): ContainerID
  {
    if s.entry.Some? && s.entry.value < |s.records| then s.records[s.entry.value].containerID else 0
  }

  /** Failure after Create: Stop and Remove, then forget the record. */
  function TearDown(s: System, cid: ContainerID): System
  {
    s.(live := s.live - {cid}, tornDown := s.tornDown + 1)
  }

  function Next(s: System, e: Event): (s': System)
    ensures |s'.calls| == |s.calls|
  {
    if e.call >= |s.calls| then s else
    var c := e.call;
    match s.calls[c]
    case Idle =>
      if s.entry.Some? then At(s, c, Waiting(s.entry.value))
      else At(s.(records := s.records + [Record(Absent, NoEndpoint, 0, false)], entry := Some(|s.records|)),
              c, Waiting(|s.records|))
    case Waiting(r) =>
      if r < |s.records| && !s.records[r].locked
      then At(s.(records := s.records[r := s.records[r].(locked := true)]), c, CheckState(r))
      else s
    case CheckState(r) => At(s, c, if StatusOf(s) == Running then CheckEndpoint(r) else Allocate(r))
    case CheckEndpoint(r) => At(s, c, if EndpointOf(s) != NoEndpoint then Answer(r) else Allocate(r))
    case Answer(r) => Return(s, c, r, Loaded(EndpointOf(s)))
    case Allocate(r) => if e.ok then At(s, c, SetPulling(r, e.port)) else Return(s, c, r, NoPort)
    case SetPulling(r, p) => At(UpdateEntry(s, (d: Record) => d.(state := Pulling)), c, Pull(r, p))
    case Pull(r, p) => At(s, c, if e.ok then Create(r, p) else Dropping(r))
    case Create(r, p) =>
      // RemoveByName first clears any container under the name.
      if e.ok
      then At(s.(live := {s.creates + 1}, creates := s.creates + 1), c, SetID(r, p, s.creates + 1))
      else At(s.(live := {}), c, Dropping(r))
    case SetID(r, p, cid) =>
      At(UpdateEntry(s, (d: Record) => d.(containerID := cid, state := Starting)), c, Start(r, p, cid))
    case Start(r, p, cid) => if e.ok then At(s, c, Ready(r, p, cid)) else At(TearDown(s, cid), c, Dropping(r))
    case Ready(r, p, cid) => if e.ok then At(s, c, Fill(r, p, cid)) else At(TearDown(s, cid), c, Dropping(r))
    case Fill(r, p, cid) =>
      if r < |s.records|
      then At(s.(records := s.records[r := s.records[r].(containerID := cid, endpoint := Local(p))]), c,
              SetRunning(r, p, cid))
      else s
    case SetRunning(r, p, cid) =>
      Return(UpdateEntry(s, (d: Record) => d.(state := Running)), c, r, Loaded(Local(p)))
    case Dropping(r) => Return(s.(entry := None), c, r, Result.Failed)
    case Done(_) => s
  }

  function Initial(n: nat): System { System(seq(n, _ => Idle), [], None, {}, 0, 0) }

  /** The states of a run, one more than its events. */
  ghost predicate IsRun(n: nat, states: seq<System>, events: seq<Event>)
  {
    && |states| == |events| + 1 && states[0] == Initial(n)
    && (forall k :: 0 <= k < |states| ==> |states[k].calls| == n)
    && (forall k :: 0 <= k < |events| ==> IsStep(states[k], events[k], states[k + 1]))
  }

  predicate IsStep(s: System, e: Event, s': System) { s' == Next(s, e) }

  /** Every event sequence has a run. */
  function States(n: nat, events: seq<Event>): (states: seq<System>)
    ensures IsRun(n, states, events)
  {
    if events == [] then [Initial(n)]
    else
      var m := |events| - 1;
      var states := States(n, events[..m]);
      LongerRun(n, states, events, Next(states[m], events[m]));
      states + [Next(states[m], events[m])]
  }

  lemma LongerRun(n: nat, states: seq<System>, events: seq<Event>, s: System)
    requires |events| > 0 && IsRun(n, states, events[..|events| - 1])
    requires IsStep(states[|events| - 1], events[|events| - 1], s) && |s.calls| == n
    ensures IsRun(n, states + [s], events)
  {
    var more, m := states + [s], |events| - 1;
    forall k | 0 <= k < |events| ensures IsStep(more[k], events[k], more[k + 1]) {
      assert more[k] == states[k];
      if k < m {
        assert IsStep(states[k], events[..m][k], states[k + 1]) && more[k + 1] == states[k + 1];
      }
    }
  }

  /** No call other than c holds a record. */
  predicate Alone(s: System, c: nat)
  {
    forall d :: 0 <= d < |s.calls| && d != c ==> !s.calls[d].Holds()
  }

  /** A call that failed past port allocation forgets the record unobserved. */
  predicate Unobserved(s: System, e: Event)
  {
    e.call < |s.calls| && s.calls[e.call].Dropping? ==> Alone(s, e.call)
  }

  predicate AllUnobserved(states: seq<System>, events: seq<Event>)
    requires |states| == |events| + 1
  {
    forall k :: 0 <= k < |events| ==> Unobserved(states[k], events[k])
  }

  /** Only port allocation may fail. */
  predicate Succeeds(s: System, e: Event)
  {
    e.ok || (e.call < |s.calls| && s.calls[e.call].Allocate?)
  }

  predicate NoFailure(states: seq<System>, events: seq<Event>)
    requires |states| == |events| + 1
  {
    forall k :: 0 <= k < |events| ==> Succeeds(states[k], events[k])
  }

  // ----- the invariant -----------------------------------------------------------------

  /** Every call that holds a record holds the one in the map. */
  ghost predicate HoldersTracked(s: System)
  {
    forall c :: 0 <= c < |s.calls| && s.calls[c].Holds() ==> s.entry == Some(s.calls[c].rec)
  }

  /** At most one call is inside its critical section, and then the record is locked. */
  ghost predicate Exclusive(s: System)
  {
    && (forall c, d :: 0 <= c < d < |s.calls| ==> !(s.calls[c].Locked() && s.calls[d].Locked()))
    && (forall c :: 0 <= c < |s.calls| && s.calls[c].Locked() ==> EntryLocked(s))
  }

  predicate EntryLocked(s: System)
  {
    s.entry.Some? && s.entry.value < |s.records| && s.records[s.entry.value].locked
  }

  /** The map's record, the live container and the call in progress agree. */
  ghost predicate Consistent(s: System, c: nat)
    requires c < |s.calls|
  {
    var call := s.calls[c];
    match call
    case Idle => true
    case Waiting(_) => true
    case Done(Loaded(e)) => StatusOf(s) == Running && EndpointOf(s) == e
    case Done(_) => true
    case CheckState(_) => true
    case CheckEndpoint(_) => StatusOf(s) == Running
    case Answer(_) => StatusOf(s) == Running
    case Allocate(_) => StatusOf(s) != Running && s.live == {}
    case SetPulling(_, _) => StatusOf(s) != Running && s.live == {}
    case Pull(_, _) => StatusOf(s) == Pulling && s.live == {}
    case Create(_, _) => StatusOf(s) == Pulling && s.live == {}
    case SetID(_, _, cid) => StatusOf(s) == Pulling && s.live == {cid}
    case Start(_, _, cid) => StatusOf(s) == Starting && IDOf(s) == cid && s.live == {cid}
    case Ready(_, _, cid) => StatusOf(s) == Starting && IDOf(s) == cid && s.live == {cid}
    case Fill(_, _, cid) => StatusOf(s) == Starting && IDOf(s) == cid && s.live == {cid}
    case SetRunning(_, p, cid) =>
      StatusOf(s) == Starting && IDOf(s) == cid && s.live == {cid} && EndpointOf(s) == Local(p)
    case Dropping(_) => StatusOf(s) != Running && s.live == {}
  }

  /** Every container made is torn down or live, and only the running record or the call
      in progress has one. */
  ghost predicate Accounted(s: System)
  {
    && s.creates == s.tornDown + |s.live|
    && (s.entry.Some? && StatusOf(s) == Running ==>
          && s.entry.value < |s.records| && EndpointOf(s) != NoEndpoint
          && s.live == {s.records[s.entry.value].containerID})
    && (StatusOf(s) != Running && s.live != {} ==> exists c :: 0 <= c < |s.calls| && s.calls[c].HasContainer())
  }

  ghost predicate Inv(s: System)
  {
    && (s.entry.Some? ==> s.entry.value < |s.records|)
    && HoldersTracked(s) && Exclusive(s) && Accounted(s)
    && (forall c :: 0 <= c < |s.calls| ==> Consistent(s, c))
  }

  lemma StepKeepsHolders(s: System, e: Event)
    requires Inv(s) && Unobserved(s, e)
    ensures HoldersTracked(Next(s, e))
  {
    if e.call < |s.calls| && Next(s, e).calls[e.call].Holds() {
      OwnHolder(s, e);
    }
  }

  lemma OwnHolder(s: System, e: Event)
    requires HoldersTracked(s) && e.call < |s.calls| && Next(s, e).calls[e.call].Holds()
    ensures Next(s, e).entry == Some(Next(s, e).calls[e.call].rec)
  {
  }

  lemma StepKeepsEntry(s: System, e: Event)
    requires Inv(s)
    ensures Next(s, e).entry.Some? ==> Next(s, e).entry.value < |Next(s, e).records|
  {
  }

  lemma StepKeepsLock(s: System, e: Event, d: nat)
    requires Inv(s) && Unobserved(s, e) && d < |s.calls| && Next(s, e).calls[d].Locked()
    ensures EntryLocked(Next(s, e))
    ensures s.calls[d].Locked() || !EntryLocked(s)
  {
  }

  lemma StepKeepsExclusion(s: System, e: Event)
    requires Inv(s) && Unobserved(s, e)
    ensures Exclusive(Next(s, e))
  {
    var s' := Next(s, e);
    forall c, d | 0 <= c < d < |s.calls| ensures !(s'.calls[c].Locked() && s'.calls[d].Locked()) {
      if s'.calls[c].Locked() && s'.calls[d].Locked() {
        StepKeepsLock(s, e, c);
        StepKeepsLock(s, e, d);
      }
    }
    forall d | 0 <= d < |s.calls| && s'.calls[d].Locked() ensures EntryLocked(s') {
      StepKeepsLock(s, e, d);
    }
  }

  lemma StepKeepsAccounts(s: System, e: Event)
    requires Inv(s) && Unobserved(s, e)
    ensures Accounted(Next(s, e))
  {
    var s' := Next(s, e);
    if e.call < |s.calls| {
      assert Consistent(s, e.call);
      if StatusOf(s') != Running && s'.live != {} && !s'.calls[e.call].HasContainer() {
        var c :| 0 <= c < |s.calls| && s.calls[c].HasContainer();
        assert s'.calls[c].HasContainer();
      }
    }
  }

  lemma StepKeepsOwn(s: System, e: Event)
    requires Inv(s) && Unobserved(s, e) && e.call < |s.calls|
    ensures Consistent(Next(s, e), e.call)
  {
    assert Consistent(s, e.call);
  }

  lemma StepKeepsOthers(s: System, e: Event, d: nat)
    requires Inv(s) && Unobserved(s, e) && d < |s.calls| && d != e.call
    ensures Next(s, e).calls[d] == s.calls[d] && Consistent(Next(s, e), d)
  {
    assert Consistent(s, d);
    if e.call < |s.calls| {
      assert Consistent(s, e.call);
    }
  }

  lemma StepKeepsInv(s: System, e: Event)
    requires Inv(s) && Unobserved(s, e)
    ensures Inv(Next(s, e))
  {
    StepKeepsEntry(s, e);
    StepKeepsHolders(s, e);
    StepKeepsExclusion(s, e);
    StepKeepsAccounts(s, e);
    forall c | 0 <= c < |s.calls| ensures Consistent(Next(s, e), c) {
      if c == e.call {
        StepKeepsOwn(s, e);
      } else {
        StepKeepsOthers(s, e, c);
      }
    }
  }

  // ----- whole runs --------------------------------------------------------------------

  lemma {:induction false} RunKeepsInv(n: nat, states: seq<System>, events: seq<Event>, k: nat)
    requires IsRun(n, states, events) && AllUnobserved(states, events) && k < |states|
    ensures Inv(states[k])
  {
    if k > 0 {
      RunKeepsInv(n, states, events, k - 1);
      StepKeepsInv(states[k - 1], events[k - 1]);
      assert IsStep(states[k - 1], events[k - 1], states[k]);
    } else {
      InitialInv(n);
    }
  }

  lemma InitialInv(n: nat)
    ensures Inv(Initial(n))
  {
  }

  predicate HasLoaded(c: Call) { c.Done? && c.result.Loaded? }

  /** However the calls interleave: as long as every failing call forgets its record
      unobserved, at any moment each completed load is the deployment the map holds,
      running in the only live container, and all answers agree. */
  lemma LoadsAgree(n: nat, states: seq<System>, events: seq<Event>, k: nat, c: nat, d: nat)
    requires IsRun(n, states, events) && AllUnobserved(states, events)
    requires k < |states| && c < n && d < n && HasLoaded(states[k].calls[c])
    ensures var s := states[k];
            && s.entry.Some? && s.entry.value < |s.records|
            && s.records[s.entry.value].state == Running
            && s.calls[c].result.endpoint == s.records[s.entry.value].endpoint != NoEndpoint
            && s.live == {s.records[s.entry.value].containerID}
            && (HasLoaded(s.calls[d]) ==> s.calls[d].result == s.calls[c].result)
  {
    RunKeepsInv(n, states, events, k);
    assert Consistent(states[k], c) && Consistent(states[k], d);
  }

  /** Meanwhile the deployment's status shows where the call at work stands, and the map's
      record names its container. */
  lemma StatusShowsStage(n: nat, states: seq<System>, events: seq<Event>, k: nat, c: nat)
    requires IsRun(n, states, events) && AllUnobserved(states, events) && k < |states| && c < n
    ensures var s, call := states[k], states[k].calls[c];
            && (call.Pull? || call.Create? ==> StatusOf(s) == Pulling && s.live == {})
            && (call.Start? || call.Ready? || call.Fill? || call.SetRunning? ==>
                  StatusOf(s) == Starting && IDOf(s) == call.cid && s.live == {call.cid})
            && (HasLoaded(call) ==> StatusOf(s) == Running && s.live == {IDOf(s)})
  {
    RunKeepsInv(n, states, events, k);
    assert Consistent(states[k], c);
  }

  /** No call has failed past port allocation. */
  ghost predicate Clean(s: System)
  {
    && s.tornDown == 0
    && (forall c :: 0 <= c < |s.calls| ==> !s.calls[c].Dropping? && s.calls[c] != Done(Result.Failed))
  }

  lemma CleanStep(s: System, e: Event)
    requires Clean(s) && Succeeds(s, e)
    ensures Clean(Next(s, e)) && Unobserved(s, e)
  {
  }

  lemma {:induction false} StaysClean(n: nat, states: seq<System>, events: seq<Event>, k: nat)
    requires IsRun(n, states, events) && NoFailure(states, events) && k < |states|
    ensures Clean(states[k])
  {
    if k > 0 {
      StaysClean(n, states, events, k - 1);
      assert Succeeds(states[k - 1], events[k - 1]);
      CleanStep(states[k - 1], events[k - 1]);
      assert IsStep(states[k - 1], events[k - 1], states[k]);
    }
  }

  /** If nothing fails past port allocation, at most one container is ever created, and
      exactly one once any call has loaded; no call reports a failure but a missing port. */
  lemma CreatesOnce(n: nat, states: seq<System>, events: seq<Event>, k: nat)
    requires IsRun(n, states, events) && NoFailure(states, events) && k < |states|
    ensures states[k].creates <= 1
    ensures (exists c :: 0 <= c < n && HasLoaded(states[k].calls[c])) ==> states[k].creates == 1
    ensures forall c :: 0 <= c < n ==> states[k].calls[c] != Done(Result.Failed)
  {
    forall j | 0 <= j < |events| ensures Unobserved(states[j], events[j]) {
      StaysClean(n, states, events, j);
      assert Succeeds(states[j], events[j]);
      CleanStep(states[j], events[j]);
    }
    RunKeepsInv(n, states, events, k);
    StaysClean(n, states, events, k);
    OneLiveContainer(states[k]);
  }

  lemma OneLiveContainer(s: System)
    requires Inv(s)
    ensures |s.live| <= 1
    ensures (exists c :: 0 <= c < |s.calls| && HasLoaded(s.calls[c])) ==> |s.live| == 1
  {
    if s.live != {} && StatusOf(s) != Running {
      var c :| 0 <= c < |s.calls| && s.calls[c].HasContainer();
      assert Consistent(s, c);
    }
    if c :| 0 <= c < |s.calls| && HasLoaded(s.calls[c]) {
      assert Consistent(s, c);
    }
  }

  // ----- why a call answers what it does -------------------------------------------------

  /** A step of call c before the k-th state found that the attempted operation failed while
      the call stood where `at` says. */
  ghost predicate Tripped(states: seq<System>, events: seq<Event>, k: nat, c: nat, at: Call -> bool)
    requires |states| == |events| + 1 && k <= |events|
  {
    exists j :: 0 <= j < k && TripsAt(states[j], events[j], c, at)
  }

  predicate TripsAt(s: System, e: Event, c: nat, at: Call -> bool)
  {
    e.call == c && !e.ok && c < |s.calls| && at(s.calls[c])
  }

  function AtPort(): Call -> bool { (d: Call) => d.Allocate? }

  function PastPort(): Call -> bool { (d: Call) => d.Pull? || d.Create? || d.Start? || d.Ready? }

  predicate GaveUp(c: Call) { c.Dropping? || c == Done(Result.Failed) }

  lemma NoPortStep(s: System, e: Event, c: nat)
    requires c < |s.calls|
    ensures Next(s, e).calls[c] == Done(NoPort) <==> s.calls[c] == Done(NoPort) || TripsAt(s, e, c, AtPort())
  {
  }

  lemma GaveUpStep(s: System, e: Event, c: nat)
    requires c < |s.calls|
    ensures GaveUp(Next(s, e).calls[c]) <==> GaveUp(s.calls[c]) || TripsAt(s, e, c, PastPort())
  {
  }

  lemma {:induction false} CausesUpTo(n: nat, states: seq<System>, events: seq<Event>, k: nat, c: nat)
    requires IsRun(n, states, events) && k < |states| && c < n
    ensures states[k].calls[c] == Done(NoPort) <==> Tripped(states, events, k, c, AtPort())
    ensures GaveUp(states[k].calls[c]) <==> Tripped(states, events, k, c, PastPort())
  {
    if k > 0 {
      CausesUpTo(n, states, events, k - 1, c);
      assert IsStep(states[k - 1], events[k - 1], states[k]);
      NoPortStep(states[k - 1], events[k - 1], c);
      GaveUpStep(states[k - 1], events[k - 1], c);
      TrippedStep(states, events, k, c, AtPort());
      TrippedStep(states, events, k, c, PastPort());
    }
  }

  /** Under every interleaving a call that has returned reports a missing port exactly when
      the allocator refused it one, a failure exactly when one of its own operations past the
      port failed, and otherwise that it has loaded. */
  lemma AnswersHaveCauses(n: nat, states: seq<System>, events: seq<Event>, k: nat, c: nat)
    requires IsRun(n, states, events) && k < |states| && c < n && states[k].calls[c].Done?
    ensures match states[k].calls[c].result
            case NoPort => Tripped(states, events, k, c, AtPort()) && !Tripped(states, events, k, c, PastPort())
            case Failed => !Tripped(states, events, k, c, AtPort()) && Tripped(states, events, k, c, PastPort())
            case Loaded(_) => !Tripped(states, events, k, c, AtPort()) && !Tripped(states, events, k, c, PastPort())
  {
    CausesUpTo(n, states, events, k, c);
  }

  lemma TrippedStep(states: seq<System>, events: seq<Event>, k: nat, c: nat, at: Call -> bool)
    requires |states| == |events| + 1 && 0 < k <= |events|
    ensures Tripped(states, events, k, c, at)
       <==> Tripped(states, events, k - 1, c, at) || TripsAt(states[k - 1], events[k - 1], c, at)
  {
  }

  /** If nothing at all fails, every call that has returned has loaded, all with the same
      endpoint. */
  lemma AllLoadAlike(n: nat, states: seq<System>, events: seq<Event>, k: nat, c: nat, d: nat)
    requires IsRun(n, states, events) && k < |states| && c < n && d < n
    requires forall j :: 0 <= j < |events| ==> events[j].ok
    requires states[k].calls[c].Done? && states[k].calls[d].Done?
    ensures HasLoaded(states[k].calls[c]) && states[k].calls[d] == states[k].calls[c]
  {
    AnswersHaveCauses(n, states, events, k, c);
    AnswersHaveCauses(n, states, events, k, d);
    forall j | 0 <= j < |events| ensures Unobserved(states[j], events[j]) {
      StaysClean(n, states, events, j);
      assert Succeeds(states[j], events[j]);
      CleanStep(states[j], events[j]);
    }
    LoadsAgree(n, states, events, k, c, d);
  }

  /** A step of call c before the k-th state succeeded while the call stood at `at`. */
  ghost predicate Passed(states: seq<System>, events: seq<Event>, k: nat, c: nat, at: Call -> bool)
    requires |states| == |events| + 1 && k <= |events|
  {
    exists j :: 0 <= j < k && PassesAt(states[j], events[j], c, at)
  }

  predicate PassesAt(s: System, e: Event, c: nat, at: Call -> bool)
  {
    e.call == c && e.ok && c < |s.calls| && at(s.calls[c])
  }

  function AtPull(): Call -> bool { (d: Call) => d.Pull? }
  function AtCreate(): Call -> bool { (d: Call) => d.Create? }
  function AtStart(): Call -> bool { (d: Call) => d.Start? }
  function AtReady(): Call -> bool { (d: Call) => d.Ready? }

  lemma PassedStep(states: seq<System>, events: seq<Event>, k: nat, c: nat, at: Call -> bool)
    requires |states| == |events| + 1 && 0 < k <= |events|
    ensures Passed(states, events, k, c, at)
       <==> Passed(states, events, k - 1, c, at) || PassesAt(states[k - 1], events[k - 1], c, at)
  {
  }

  lemma StageStep(s: System, e: Event, c: nat)
    requires c < |s.calls|
    ensures var from, to := s.calls[c], Next(s, e).calls[c];
            && (to.Create? ==> from.Create? || PassesAt(s, e, c, AtPull()))
            && (to.SetID? ==> from.SetID? || PassesAt(s, e, c, AtCreate()))
  {
  }

  lemma LaterStageStep(s: System, e: Event, c: nat)
    requires c < |s.calls|
    ensures var from, to := s.calls[c], Next(s, e).calls[c];
            && (to.Start? ==> from.Start? || from.SetID?)
            && (to.Ready? ==> from.Ready? || PassesAt(s, e, c, AtStart()))
  {
  }

  lemma LastStageStep(s: System, e: Event, c: nat)
    requires c < |s.calls|
    ensures var from, to := s.calls[c], Next(s, e).calls[c];
            && (to.Fill? ==> from.Fill? || PassesAt(s, e, c, AtReady()))
            && (to.SetRunning? ==> from.SetRunning? || from.Fill?)
  {
  }

  /** No call skips a step: its container is created only after its pull has succeeded, and
      it is about to mark the deployment running only if its create, its start and its
      readiness probe have too. */
  lemma {:induction false} StagesInOrder(n: nat, states: seq<System>, events: seq<Event>, k: nat, c: nat)
    requires IsRun(n, states, events) && k < |states| && c < n
    ensures var call := states[k].calls[c];
            && (call.Create? || call.HasContainer() ==> Passed(states, events, k, c, AtPull()))
            && (call.HasContainer() ==> Passed(states, events, k, c, AtCreate()))
            && (call.Ready? || call.Fill? || call.SetRunning? ==> Passed(states, events, k, c, AtStart()))
            && (call.Fill? || call.SetRunning? ==> Passed(states, events, k, c, AtReady()))
  {
    if k > 0 {
      StagesInOrder(n, states, events, k - 1, c);
      assert IsStep(states[k - 1], events[k - 1], states[k]);
      StageStep(states[k - 1], events[k - 1], c);
      LaterStageStep(states[k - 1], events[k - 1], c);
      LastStageStep(states[k - 1], events[k - 1], c);
      PassedStep(states, events, k, c, AtPull());
      PassedStep(states, events, k, c, AtCreate());
      PassedStep(states, events, k, c, AtStart());
      PassedStep(states, events, k, c, AtReady());
    }
  }

  // ----- every call returns --------------------------------------------------------------

  /** How many steps of its own a call has left at most. */
  function Left(c: Call): nat
  {
    match c
    case Idle => 14
    case Waiting(_) => 13
    case CheckState(_) => 12
    case CheckEndpoint(_) => 11
    case Answer(_) => 1
    case Allocate(_) => 10
    case SetPulling(_, _) => 9
    case Pull(_, _) => 8
    case Create(_, _) => 7
    case SetID(_, _, _) => 6
    case Start(_, _, _) => 5
    case Ready(_, _, _) => 4
    case Fill(_, _, _) => 3
    case SetRunning(_, _, _) => 2
    case Dropping(_) => 1
    case Done(_) => 0
  }

  /** Records that calls hold exist, and a locked one is held by a call past the lock. */
  ghost predicate LocksHeld(s: System)
  {
    && (s.entry.Some? ==> s.entry.value < |s.records|)
    && (forall c :: 0 <= c < |s.calls| && s.calls[c].Holds() ==> s.calls[c].rec < |s.records|)
    && (forall r :: 0 <= r < |s.records| && s.records[r].locked ==> SomeHolder(s, r))
  }

  ghost predicate SomeHolder(s: System, r: nat)
  {
    exists c :: 0 <= c < |s.calls| && s.calls[c].Locked() && s.calls[c].rec == r
  }

  predicate Blocked(s: System, c: nat)
    requires c < |s.calls|
  {
    s.calls[c].Waiting? && s.calls[c].rec < |s.records| && s.records[s.calls[c].rec].locked
  }

  /** A step of an unblocked call brings it nearer to its return, whatever the outcome, and
      leaves the other calls where they are. */
  lemma StepsAdvance(s: System, e: Event)
    requires LocksHeld(s) && e.call < |s.calls| && !s.calls[e.call].Done? && !Blocked(s, e.call)
    ensures Left(Next(s, e).calls[e.call]) < Left(s.calls[e.call])
    ensures forall d :: 0 <= d < |s.calls| && d != e.call ==> Next(s, e).calls[d] == s.calls[d]
  {
  }

  /** What a step does to locks and to where calls stand. */
  ghost predicate LockStep(s: System, c: nat, s': System)
    requires c < |s.calls| == |s'.calls|
  {
    && |s.records| <= |s'.records| && (s'.entry.Some? ==> s'.entry.value < |s'.records|)
    && (forall d :: 0 <= d < |s.calls| && d != c ==> s'.calls[d] == s.calls[d])
    && (s'.calls[c].Holds() ==> s'.calls[c].rec < |s'.records|)
    && (forall r :: 0 <= r < |s'.records| && s'.records[r].locked ==>
          (s'.calls[c].Locked() && s'.calls[c].rec == r)
          || (r < |s.records| && s.records[r].locked && !(s.calls[c].Locked() && s.calls[c].rec == r)))
  }

  lemma LockedAfter(s: System, e: Event, r: nat)
    requires LocksHeld(s) && e.call < |s.calls| && r < |Next(s, e).records| && Next(s, e).records[r].locked
    requires !(Next(s, e).calls[e.call].Locked() && Next(s, e).calls[e.call].rec == r)
    ensures r < |s.records| && s.records[r].locked && !(s.calls[e.call].Locked() && s.calls[e.call].rec == r)
  {
  }

  lemma StepIsLockStep(s: System, e: Event)
    requires LocksHeld(s) && e.call < |s.calls|
    ensures LockStep(s, e.call, Next(s, e))
  {
    forall r | 0 <= r < |Next(s, e).records| && Next(s, e).records[r].locked
             && !(Next(s, e).calls[e.call].Locked() && Next(s, e).calls[e.call].rec == r)
      ensures r < |s.records| && s.records[r].locked && !(s.calls[e.call].Locked() && s.calls[e.call].rec == r)
    {
      LockedAfter(s, e, r);
    }
  }

  lemma LockStepKeepsLocks(s: System, c: nat, s': System)
    requires LocksHeld(s) && c < |s.calls| == |s'.calls| && LockStep(s, c, s')
    ensures LocksHeld(s')
  {
    forall r | 0 <= r < |s'.records| && s'.records[r].locked ensures SomeHolder(s', r) {
      if !(s'.calls[c].Locked() && s'.calls[c].rec == r) {
        var d :| 0 <= d < |s.calls| && s.calls[d].Locked() && s.calls[d].rec == r;
        assert s'.calls[d] == s.calls[d];
      }
    }
  }

  lemma StepKeepsLocks(s: System, e: Event)
    requires LocksHeld(s)
    ensures LocksHeld(Next(s, e))
  {
    if e.call < |s.calls| {
      StepIsLockStep(s, e);
      LockStepKeepsLocks(s, e.call, Next(s, e));
    }
  }

  lemma {:induction false} RunKeepsLocks(n: nat, states: seq<System>, events: seq<Event>, k: nat)
    requires IsRun(n, states, events) && k < |states|
    ensures LocksHeld(states[k])
  {
    if k > 0 {
      RunKeepsLocks(n, states, events, k - 1);
      assert IsStep(states[k - 1], events[k - 1], states[k]);
      StepKeepsLocks(states[k - 1], events[k - 1]);
    }
  }

  /** Under every interleaving, failures observed or not: while some call has not returned,
      one of them can take a step that brings it nearer to its return. */
  lemma NobodyIsStuck(n: nat, states: seq<System>, events: seq<Event>, k: nat, ok: bool, port: int)
    requires IsRun(n, states, events) && k < |states|
    requires exists c :: 0 <= c < n && !states[k].calls[c].Done?
    ensures exists c :: 0 <= c < n && !states[k].calls[c].Done?
              && Left(Next(states[k], Event(c, ok, port)).calls[c]) < Left(states[k].calls[c])
  {
    RunKeepsLocks(n, states, events, k);
    var s := states[k];
    var c :| 0 <= c < n && !s.calls[c].Done?;
    if Blocked(s, c) {
      assert SomeHolder(s, s.calls[c].rec);
      var d :| 0 <= d < |s.calls| && s.calls[d].Locked() && s.calls[d].rec == s.calls[c].rec;
      StepsAdvance(s, Event(d, ok, port));
    } else {
      StepsAdvance(s, Event(c, ok, port));
    }
  }

  // ----- what an observed failure does -------------------------------------------------

  /** Where a call stands after k undisturbed, successful steps on a forgotten record. */
  function StaleCall(rec: nat, port: int, cid: ContainerID, k: nat): Call
  {
    match k
    case 0 => Waiting(rec)
    case 1 => CheckState(rec)
    case 2 => Allocate(rec)
    case 3 => SetPulling(rec, port)
    case 4 => Pull(rec, port)
    case 5 => Create(rec, port)
    case 6 => SetID(rec, port, cid)
    case 7 => Start(rec, port, cid)
    case 8 => Ready(rec, port, cid)
    case 9 => Fill(rec, port, cid)
    case 10 => SetRunning(rec, port, cid)
    case _ => Done(Loaded(Local(port)))
  }

  predicate StaleAt(s: System, c: nat, rec: nat, port: int, cid: ContainerID, k: nat)
  {
    && c < |s.calls| && rec < |s.records| && s.entry == None
    && s.calls[c] == StaleCall(rec, port, cid, k)
    && (k == 0 ==> !s.records[rec].locked)
    && if k <= 5 then s.creates + 1 == cid else s.creates == cid && s.live == {cid}
  }

  lemma StaleStep(s: System, c: nat, rec: nat, port: int, cid: ContainerID, k: nat)
    requires StaleAt(s, c, rec, port, cid, k) && k <= 10
    ensures StaleAt(Next(s, Event(c, true, port)), c, rec, port, cid, k + 1)
    ensures forall d :: 0 <= d < |s.calls| && d != c ==> Next(s, Event(c, true, port)).calls[d] == s.calls[d]
  {
  }

  /** Any call still waiting for a record that has been forgotten goes on to load: left to
      itself it reports success for a container that no record mentions. */
  lemma {:induction false} StaleWaiterLeaks(states: seq<System>, c: nat, port: int, k: nat)
    requires |states| == 12 && k <= 11
    requires forall j :: 0 <= j < 11 ==> IsStep(states[j], Event(c, true, port), states[j + 1])
    requires c < |states[0].calls| && states[0].calls[c].Waiting? && states[0].entry == None
    requires states[0].calls[c].rec < |states[0].records| && !states[0].records[states[0].calls[c].rec].locked
    ensures StaleAt(states[k], c, states[0].calls[c].rec, port, states[0].creates + 1, k)
    ensures |states[k].calls| == |states[0].calls|
    ensures forall d :: 0 <= d < |states[0].calls| && d != c ==> states[k].calls[d] == states[0].calls[d]
    ensures k == 11 ==>
              && states[k].calls[c] == Done(Loaded(Local(port))) && states[k].entry == None
              && states[k].live == {states[0].creates + 1}
  {
    if k > 0 {
      StaleWaiterLeaks(states, c, port, k - 1);
      StaleStep(states[k - 1], c, states[0].calls[c].rec, port, states[0].creates + 1, k - 1);
      assert IsStep(states[k - 1], Event(c, true, port), states[k]);
    }
  }

  /** A continuation of s in which later failing calls forget their records unobserved. */
  ghost predicate Continues(s: System, states: seq<System>, events: seq<Event>)
  {
    && |states| == |events| + 1 && states[0] == s
    && (forall k :: 0 <= k < |events| ==> IsStep(states[k], events[k], states[k + 1]))
    && AllUnobserved(states, events)
  }

  /** Every completed load is the running record the map holds, with the only live
      container. */
  ghost predicate LoadsTracked(s: System)
  {
    forall c :: 0 <= c < |s.calls| && HasLoaded(s.calls[c]) ==>
      && s.entry.Some? && s.entry.value < |s.records|
      && s.records[s.entry.value].state == Running
      && s.records[s.entry.value].endpoint == s.calls[c].result.endpoint
      && s.live == {s.records[s.entry.value].containerID}
  }

  ghost predicate Safe(s: System)
  {
    forall states: seq<System>, events: seq<Event> ::
      Continues(s, states, events) ==> LoadsTracked(states[|events|])
  }

  lemma {:induction false} ContinuationKeepsInv(s: System, states: seq<System>, events: seq<Event>, k: nat)
    requires Inv(s) && Continues(s, states, events) && k <= |events|
    ensures Inv(states[k])
  {
    if k > 0 {
      ContinuationKeepsInv(s, states, events, k - 1);
      StepKeepsInv(states[k - 1], events[k - 1]);
      assert IsStep(states[k - 1], events[k - 1], states[k]);
    }
  }

  lemma InvIsSafe(s: System)
    requires Inv(s)
    ensures Safe(s)
  {
    forall states: seq<System>, events: seq<Event> | Continues(s, states, events)
      ensures LoadsTracked(states[|events|])
    {
      ContinuationKeepsInv(s, states, events, |events|);
      InvTracksLoads(states[|events|]);
    }
  }

  lemma InvTracksLoads(s: System)
    requires Inv(s)
    ensures LoadsTracked(s)
  {
    forall c | 0 <= c < |s.calls| && HasLoaded(s.calls[c])
      ensures StatusOf(s) == Running && EndpointOf(s) == s.calls[c].result.endpoint
    {
      assert Consistent(s, c);
    }
  }

  /** The states of s under n successful steps of call c. */
  function SoloStates(s: System, c: nat, port: int, n: nat): (states: seq<System>)
    ensures |states| == n + 1 && states[0] == s
    ensures forall j :: 0 <= j < n ==> IsStep(states[j], Event(c, true, port), states[j + 1])
  {
    if n == 0 then [s]
    else
      var states := SoloStates(s, c, port, n - 1);
      states + [Next(states[n - 1], Event(c, true, port))]
  }

  lemma StaleWaiterIsUnsafe(s: System, c: nat)
    requires c < |s.calls| && s.calls[c].Waiting? && s.entry == None
    requires s.calls[c].rec < |s.records| && !s.records[s.calls[c].rec].locked
    ensures !Safe(s)
  {
    var states, events := SoloStates(s, c, 1, 11), seq(11, _ => Event(c, true, 1));
    forall k | 0 <= k < 11 ensures Unobserved(states[k], events[k]) {
      StaleWaiterLeaks(states, c, 1, k);
    }
    forall k | 0 <= k < 11 ensures IsStep(states[k], events[k], states[k + 1]) {
    }
    StaleWaiterLeaks(states, c, 1, 11);
    assert Continues(s, states, events) && !LoadsTracked(states[11]);
  }

  /** A failing call about to forget its record: whatever happens afterwards, every load
      reported as successful is tracked, exactly when no other call holds the record at
      that moment. */
  lemma DropSafeIffAlone(s: System, e: Event)
    requires Inv(s) && e.call < |s.calls| && s.calls[e.call].Dropping?
    ensures Safe(Next(s, e)) <==> Alone(s, e.call)
  {
    if Alone(s, e.call) {
      StepKeepsInv(s, e);
      InvIsSafe(Next(s, e));
    } else {
      var d :| 0 <= d < |s.calls| && d != e.call && s.calls[d].Holds();
      WaiterGoesStale(s, e, d);
      StaleWaiterIsUnsafe(Next(s, e), d);
    }
  }

  lemma WaiterGoesStale(s: System, e: Event, d: nat)
    requires Inv(s) && e.call < |s.calls| && s.calls[e.call].Dropping?
    requires d < |s.calls| && d != e.call && s.calls[d].Holds()
    ensures var s' := Next(s, e);
            && s'.entry == None && s'.calls[d] == s.calls[d] && s'.calls[d].Waiting?
            && s'.calls[d].rec < |s'.records| && !s'.records[s'.calls[d].rec].locked
  {
  }

  /** Call 0 takes the record, call 1 waits for it, and the pull of call 0 fails. */
  function FirstCallFails(port: int): seq<Event>
  {
    var ok0 := Event(0, true, port);
    [ok0, ok0, Event(1, true, port), ok0, ok0, ok0, Event(0, false, port), ok0]
  }

  lemma FirstCallFailed(states: seq<System>, port: int)
    requires |states| == 9 && states[0] == Initial(2)
    requires forall k :: 0 <= k < 8 ==> IsStep(states[k], FirstCallFails(port)[k], states[k + 1])
    ensures states[8].calls == [Done(Result.Failed), Waiting(0)] && states[8].entry == None && states[8].creates == 0
    ensures |states[8].records| == 1 && !states[8].records[0].locked
  {
    var es := FirstCallFails(port);
    var d := Record(Absent, NoEndpoint, 0, true);
    var i := Initial(2).(entry := Some(0), records := [d]);
    assert IsStep(states[0], es[0], states[1]);
    assert states[1] == i.(calls := [Waiting(0), Idle], records := [d.(locked := false)]);
    assert IsStep(states[1], es[1], states[2]);
    assert states[2] == i.(calls := [CheckState(0), Idle]);
    assert IsStep(states[2], es[2], states[3]);
    assert states[3] == i.(calls := [CheckState(0), Waiting(0)]);
    assert IsStep(states[3], es[3], states[4]);
    assert states[4] == i.(calls := [Allocate(0), Waiting(0)]);
    assert IsStep(states[4], es[4], states[5]);
    assert states[5] == i.(calls := [SetPulling(0, port), Waiting(0)]);
    assert IsStep(states[5], es[5], states[6]);
    assert states[6] == i.(calls := [Pull(0, port), Waiting(0)], records := [d.(state := Pulling)]);
    assert IsStep(states[6], es[6], states[7]);
    assert states[7] == i.(calls := [Dropping(0), Waiting(0)], records := [d.(state := Pulling)]);
    assert IsStep(states[7], es[7], states[8]);
  }

  /** The overlap of a failing first call with a second one, from the start: the second
      call reports success, and its running container is in no record. */
  lemma ObservedFailureLeaks(states: seq<System>, events: seq<Event>, port: int)
    requires IsRun(2, states, events)
    requires events == FirstCallFails(port) + seq(11, _ => Event(1, true, port))
    ensures states[19].calls == [Done(Result.Failed), Done(Loaded(Local(port)))]
    ensures states[19].entry == None && states[19].live == {1}
  {
    forall k | 0 <= k < 8 ensures IsStep(states[..9][k], FirstCallFails(port)[k], states[..9][k + 1]) {
      assert IsStep(states[k], events[k], states[k + 1]);
    }
    FirstCallFailed(states[..9], port);
    forall k | 0 <= k < 11 ensures IsStep(states[8..][k], Event(1, true, port), states[8..][k + 1]) {
      assert IsStep(states[8 + k], events[8 + k], states[8 + k + 1]);
    }
    StaleWaiterLeaks(states[8..], 1, port, 11);
  }
}
