/** Launching and unloading the container groups of disaggregated deployments. */
module GroupRuntime {
  import opened DockerEngine
  import opened Ports
  import opened Deployment
  import opened Sums

  /** One replica to launch: its plan fields and the name built for it. */
  datatype ReplicaPlan = ReplicaPlan(image: string, name: Name, containerPort: int, replicaIdx: int)

  datatype GroupPlan = GroupPlan(id: DeploymentID, model: string, prefill: seq<ReplicaPlan>, decode: seq<ReplicaPlan>)

  function IdsOf(infos: seq<ContainerInfo>): set<ContainerID>
  {
    set k | 0 <= k < |infos| :: infos[k].containerID
  }

  predicate DistinctIds(infos: seq<ContainerInfo>)
  {
    forall j, k :: 0 <= j < k < |infos| ==> infos[j].containerID != infos[k].containerID
  }

  function PortsOf(infos: seq<ContainerInfo>): seq<int>
  {
    seq(|infos|, k requires 0 <= k < |infos| => infos[k].hostPort)
  }

  // ----- when a launch is possible ---------------------------------------------------------

  function NamesOf(plans: seq<ReplicaPlan>): set<Name>
  {
    set k | 0 <= k < |plans| :: plans[k].name
  }

  /** BuildContainerSpec accepts the replica on a positive port. */
  predicate ReplicaOK(p: ReplicaPlan) { p.image != "" && p.name != 0 && p.containerPort > 0 }

  /** Each replica has a valid spec and a name of its own. */
  predicate RoleNamed(plans: seq<ReplicaPlan>, taken: set<Name>)
  {
    && (forall k :: 0 <= k < |plans| ==> ReplicaOK(plans[k]) && plans[k].name !in taken)
    && (forall j, k :: 0 <= j < k < |plans| ==> plans[j].name != plans[k].name)
  }

  /** And there are ports for all of them. */
  predicate RoleLaunchable(plans: seq<ReplicaPlan>, taken: set<Name>, pool: Pool)
  {
    PortsFor(pool, |plans|) && RoleNamed(plans, taken)
  }

  predicate Launchable(plan: GroupPlan, taken: set<Name>, prefillPool: Pool, decodePool: Pool)
  {
    && RoleLaunchable(plan.prefill, taken, prefillPool)
    && RoleLaunchable(plan.decode, taken + NamesOf(plan.prefill), decodePool)
  }

  /** The role's replicas so far, from a situation with these names and this pool. */
  predicate RoleSoFar(plans: seq<ReplicaPlan>, done: nat, taken: set<Name>, pool: Pool, names: set<Name>, pool': Pool)
  {
    && done <= |plans| && RoleLaunchable(plans[..done], taken, pool)
    && names == taken + NamesOf(plans[..done])
    && pool'.range == pool.range && pool'.Free() <= pool.Free() && |pool'.Free()| == |pool.Free()| - done
  }

  /** Why a role was not launched: a call failed, or it could not be. */
  predicate Refused(plans: seq<ReplicaPlan>, taken: set<Name>, pool: Pool, f: Failures, f': Failures)
  {
    BesidesCleanup(f') == BesidesCleanup(f) ==> !RoleLaunchable(plans, taken, pool)
  }

  predicate GroupAnswer(ok: bool, plan: GroupPlan, taken: set<Name>, prefillPool: Pool, decodePool: Pool,
                        f: Failures, f': Failures)
  {
    && (ok <==> Launchable(plan, taken, prefillPool, decodePool) && BesidesCleanup(f') == BesidesCleanup(f))
    && (ok ==> f' == f)
  }

  /** The image was pulled, and every replica has answered its readiness probe. */
  predicate GroupPrepared(plan: GroupPlan, prefill: seq<ContainerInfo>, decode: seq<ContainerInfo>, d: Successes)
    requires |plan.prefill| > 0
  {
    plan.prefill[0].image in d.images && IdsOf(prefill) + IdsOf(decode) <= d.probed
  }

  lemma RoleStarts(plans: seq<ReplicaPlan>, taken: set<Name>, pool: Pool)
    ensures RoleSoFar(plans, 0, taken, pool, taken, pool)
  {
    assert NamesOf(plans[..0]) == {};
  }

  /** One more replica on the smallest free port. */
  lemma RoleGrows(plans: seq<ReplicaPlan>, done: nat, taken: set<Name>, pool: Pool, names: set<Name>, pool': Pool,
                  port: int)
    requires RoleSoFar(plans, done, taken, pool, names, pool') && done < |plans|
    requires ReplicaOK(plans[done]) && plans[done].name !in names && port > 0
    requires pool'.range.Has(port) && port !in pool'.used
    requires forall p :: pool'.range.lo <= p < port ==> p in pool'.used
    ensures RoleSoFar(plans, done + 1, taken, pool, names + {plans[done].name}, pool'.(used := pool'.used + {port}))
  {
    FreeAfter(pool', port);
    var more := plans[..done + 1];
    assert more == plans[..done] + [plans[done]];
    assert NamesOf(more) == NamesOf(plans[..done]) + {plans[done].name} by {
      NamesSnoc(plans[..done], plans[done]);
    }
    forall j, k | 0 <= j < k < |more| ensures more[j].name != more[k].name {
      if k == done {
        assert plans[..done][j].name in NamesOf(plans[..done]);
      } else {
        assert plans[..done][j].name != plans[..done][k].name;
      }
    }
    forall k | 0 <= k < |more| ensures ReplicaOK(more[k]) && more[k].name !in taken {
      if k < done {
        assert plans[..done][k] == more[k];
      }
    }
    if done == 0 {
      assert pool'.Free() == pool.Free() by {
        SameSize(pool'.Free(), pool.Free());
      }
    }
  }

  lemma SameSize(xs: set<int>, ys: set<int>)
    requires xs <= ys && |xs| == |ys|
    ensures xs == ys
  {
    assert ys == xs + (ys - xs);
  }

  lemma NamesSnoc(plans: seq<ReplicaPlan>, p: ReplicaPlan)
    ensures NamesOf(plans + [p]) == NamesOf(plans) + {p.name}
  {
    var more := plans + [p];
    forall n | n in NamesOf(plans) + {p.name} ensures n in NamesOf(more) {
      if n == p.name {
        assert more[|plans|].name == n;
      } else {
        var k :| 0 <= k < |plans| && plans[k].name == n;
        assert more[k].name == n;
      }
    }
  }

  /** A replica that is refused without any call failing makes the role unlaunchable. */
  lemma RoleRefused(plans: seq<ReplicaPlan>, done: nat, taken: set<Name>, pool: Pool, names: set<Name>, pool': Pool)
    requires RoleSoFar(plans, done, taken, pool, names, pool') && done < |plans|
    requires pool'.Free() == {} || (exists p :: p in pool'.Free() && p <= 0)
             || !ReplicaOK(plans[done]) || plans[done].name in names
    ensures !RoleLaunchable(plans, taken, pool)
  {
    if plans[done].name in names && plans[done].name !in taken {
      var k :| 0 <= k < |plans[..done]| && plans[..done][k].name == plans[done].name;
      assert plans[k].name == plans[done].name;
    }
  }

  /** From v to w Docker gained exactly the running containers ids, plus new containers it
      refused to remove and has stopped unless it refused that too; whatever existed at v is
      as it was. */
  ghost predicate Grown(v: View, ids: set<ContainerID>, w: View)
  {
    && v.nameOf.Keys <= w.nameOf.Keys && (forall c :: c in v.nameOf ==> w.nameOf[c] == v.nameOf[c])
    && v.stopFailed <= w.stopFailed && v.removeFailed <= w.removeFailed
    && (forall c :: c in ids ==> c !in v.nameOf && c in w.nameOf && c in w.containers && w.containers[c])
    && (forall c :: c in v.containers ==> c in w.containers && w.containers[c] == v.containers[c])
    && (forall c :: c in w.containers && c !in v.containers ==>
          c !in v.nameOf && (c in ids || (c in w.removeFailed && (w.containers[c] ==> c in w.stopFailed))))
    && (forall c :: c in w.removeFailed && c !in v.removeFailed ==> c !in v.nameOf && c in w.containers && c !in ids)
    && (forall c :: c in w.stopFailed && c !in v.stopFailed ==> c !in v.nameOf)
  }

  predicate WellFormed(v: View)
  {
    v.containers.Keys <= v.nameOf.Keys && v.removeFailed <= v.nameOf.Keys && v.stopFailed <= v.nameOf.Keys
  }

  /** With nothing launched, the container set is back to exactly what it was if and
      only if no Remove failed. */
  lemma RolledBack(v: View, w: View)
    requires WellFormed(v) && Grown(v, {}, w)
    ensures w.containers == v.containers <==> w.removeFailed == v.removeFailed
  {
    if w.removeFailed == v.removeFailed {
      ExactlyAdded(v, {}, w);
      assert w.containers.Keys == v.containers.Keys;
      assert forall c :: c in w.containers ==> w.containers[c] == v.containers[c];
      assert w.containers == v.containers;
    }
    if w.containers == v.containers {
      forall c ensures c in w.removeFailed <==> c in v.removeFailed {
      }
      assert w.removeFailed == v.removeFailed;
    }
  }

  /** A failed launch: nothing new but what Docker refused to remove, so the container set is
      what it was exactly when no Remove failed. */
  ghost predicate FailedLaunch(v: View, w: View)
  {
    && Grown(v, {}, w)
    && (w.containers == v.containers <==> w.removeFailed == v.removeFailed)
  }

  /** From any situation there is such a launch that leaves a container behind: the replica
      is created, does not start, and its Remove fails. */
  lemma RefusedRemovalLeaves(v: View, cid: ContainerID, name: Name) returns (w: View, x: View)
    requires WellFormed(v) && cid != 0 && cid !in v.nameOf
    ensures OneMore(v, cid, name, false, w) && TornDown(w, cid, x)
    ensures FailedLaunch(v, x) && cid in x.containers && x.containers != v.containers
  {
    w := v.(containers := v.containers[cid := false],
            names := if name != 0 then v.names[name := cid] else v.names,
            nameOf := v.nameOf[cid := name]);
    x := w.(removeFailed := w.removeFailed + {cid});
    GrownTrivially(v);
    CreatedAndTornDown(v, {}, v, cid, name, false, w, x);
    RolledBack(v, x);
  }

  /** A completed launch without removals added exactly ids. */
  lemma ExactlyAdded(v: View, ids: set<ContainerID>, w: View)
    requires WellFormed(v) && Grown(v, ids, w) && w.removeFailed == v.removeFailed
    ensures w.containers.Keys == v.containers.Keys + ids
  {
    forall c ensures c in w.containers <==> c in v.containers || c in ids {
    }
  }

  // ----- single Docker steps ----------------------------------------------------------

  /** One more container was created and is running. */
  predicate OneMore(v: View, cid: ContainerID, name: Name, running: bool, w: View)
  {
    && cid != 0 && cid !in v.nameOf
    && w == v.(containers := v.containers[cid := running],
               names := if name != 0 then v.names[name := cid] else v.names,
               nameOf := v.nameOf[cid := name])
  }

  lemma GrownByOne(v0: View, ids: set<ContainerID>, v: View, cid: ContainerID, name: Name, w: View)
    requires WellFormed(v0) && WellFormed(v) && Grown(v0, ids, v) && OneMore(v, cid, name, true, w)
    ensures Grown(v0, ids + {cid}, w) && cid !in ids
  {
  }

  lemma CreatedAndTornDown(v0: View, ids: set<ContainerID>, v: View, cid: ContainerID, name: Name, running: bool,
                           w: View, x: View)
    requires WellFormed(v0) && WellFormed(v) && Grown(v0, ids, v)
    requires OneMore(v, cid, name, running, w) && TornDown(w, cid, x)
    ensures Grown(v0, ids, x)
  {
    var up := w.(containers := w.containers[cid := true]);
    assert up.containers == v.containers[cid := true] && up.containers - {cid} == w.containers - {cid};
    GrownByOne(v0, ids, v, cid, name, up);
    LaunchedAndTornDown(v0, ids + {cid}, up, cid, x);
    assert ids + {cid} - {cid} == ids;
  }

  lemma LaunchedAndTornDown(v0: View, ids: set<ContainerID>, v: View, cid: ContainerID, x: View)
    requires WellFormed(v0) && WellFormed(v) && Grown(v0, ids, v) && cid in ids && TornDown(v, cid, x)
    ensures Grown(v0, ids - {cid}, x)
  {
    TornDownElsewhere(v, cid, x);
  }

  lemma IdsSnoc(infos: seq<ContainerInfo>, info: ContainerInfo)
    ensures IdsOf(infos + [info]) == IdsOf(infos) + {info.containerID}
    ensures DistinctIds(infos) && info.containerID !in IdsOf(infos) ==> DistinctIds(infos + [info])
  {
    var more := infos + [info];
    forall c | c in IdsOf(infos) + {info.containerID} ensures c in IdsOf(more) {
      if c == info.containerID {
        assert more[|infos|].containerID == c;
      } else {
        var k :| 0 <= k < |infos| && infos[k].containerID == c;
        assert more[k].containerID == c;
      }
    }
  }

  lemma GrownTrivially(v: View)
    requires WellFormed(v)
    ensures Grown(v, {}, v)
  {
  }

  class GroupTable {
    const docker: Docker
    const prefillPorts: PortAllocator
    const decodePorts: PortAllocator
    var groups: map<DeploymentID, DeploymentGroup>
    /** The containers of each recorded group. */
    ghost var members: map<DeploymentID, set<ContainerID>>
    /** Every host port ever recorded in a group. */
    ghost var recordedPorts: seq<int>

    ghost predicate PortsValid()
      reads this, prefillPorts, decodePorts
    {
      && prefillPorts != decodePorts
      && prefillPorts.used == prefillPorts.issued && decodePorts.used == decodePorts.issued
      && (forall p :: p in prefillPorts.issued ==> prefillPorts.range.Has(p))
      && (forall p :: p in decodePorts.issued ==> decodePorts.range.Has(p))
      && (Apart(prefillPorts.range, decodePorts.range) ==> Distinct(recordedPorts))
      && (forall p :: p in recordedPorts ==> p in prefillPorts.issued || p in decodePorts.issued)
    }

    /** members lists the containers of every recorded group. */
    ghost predicate Recorded()
      reads this, groups.Values, (set g | g in groups.Values :: g.prefill), (set g | g in groups.Values :: g.decode)
    {
      && members.Keys == groups.Keys
      && (forall id :: id in groups ==> members[id] == IdsOf(groups[id].prefill[..]) + IdsOf(groups[id].decode[..]))
    }

    ghost predicate Known()
      reads this, docker
    {
      forall id, c :: id in members && c in members[id] ==> c in docker.nameOf
    }

    ghost predicate Valid()
      reads this, docker, prefillPorts, decodePorts, groups.Values,
            (set g | g in groups.Values :: g.prefill), (set g | g in groups.Values :: g.decode)
    {
      docker.Valid() && PortsValid() && Recorded() && Known()
    }

    constructor (docker: Docker, prefillRange: Range, decodeRange: Range)
      requires docker.Valid()
      ensures Valid() && fresh(prefillPorts) && fresh(decodePorts)
      ensures prefillPorts.Now() == Pool(prefillRange, {}) && decodePorts.Now() == Pool(decodeRange, {})
      ensures this.docker == docker && groups == map[] && members == map[] && recordedPorts == []
    {
      this.docker := docker;
      prefillPorts := new PortAllocator(prefillRange);
      decodePorts := new PortAllocator(decodeRange);
      groups, members, recordedPorts := map[], map[], [];
    }

    /** Every port issued since p0 is marked as taken and in range. */
    ghost predicate Issuing(ports: PortAllocator, p0: set<int>)
      reads ports
    {
      && ports.used == ports.issued && p0 <= ports.issued
      && (forall p :: p in ports.issued && p !in p0 ==> ports.range.Has(p))
    }

    /** createAndStartContainer. */
    method CreateAndStart(p: ReplicaPlan, hostPort: int, ghost v0: View, ghost ids: set<ContainerID>)
      returns (ok: bool, cid: ContainerID)
      requires docker.Valid() && WellFormed(v0) && Grown(v0, ids, docker.Now())
      modifies docker
      ensures docker.Valid() && NamesAdded(old(docker.nameOf), docker.nameOf, {p.name})
      ensures ok ==> cid != 0 && cid !in ids && cid !in old(docker.nameOf) && Grown(v0, ids + {cid}, docker.Now())
      ensures ok ==> docker.removeFailed == old(docker.removeFailed)
      ensures ok ==> docker.nameOf == old(docker.nameOf)[cid := p.name]
      ensures ok ==> p.name !in old(docker.names) && docker.names.Keys == old(docker.names.Keys) + {p.name}
      ensures !ok ==> Grown(v0, ids, docker.Now())
      ensures ok ==> ReplicaOK(p) && hostPort > 0 && docker.failures == old(docker.failures)
      ensures ok ==> cid in docker.done.probed
      ensures !ok && BesidesCleanup(docker.failures) == BesidesCleanup(old(docker.failures)) ==>
                !ReplicaOK(p) || hostPort <= 0 || p.name in old(docker.names)
      ensures docker.Later()
    {
      if p.image == "" || p.name == 0 || p.containerPort <= 0 || hostPort <= 0 {
        return false, 0;
      }
      ghost var v := docker.Now();
      ok, cid := docker.Create(p.name);
      if !ok {
        return;
      }
      ghost var w := docker.Now();
      ok := BringUp(cid);
      if ok {
        GrownByOne(v0, ids, v, cid, p.name, docker.Now());
      } else {
        CreatedAndTornDown(v0, ids, v, cid, p.name, false, w, docker.Now());
      }
    }

    /** The created container is started and probed, or torn down. */
    method BringUp(cid: ContainerID) returns (ok: bool)
      requires docker.Valid() && cid in docker.containers && !docker.containers[cid]
      modifies docker
      ensures docker.Valid()
      ensures ok ==>
                && docker.Now() == old(docker.Now()).(containers := old(docker.containers)[cid := true])
                && docker.failures == old(docker.failures) && cid in docker.done.probed
      ensures docker.Later()
      ensures !ok ==>
                && TornDown(old(docker.Now()), cid, docker.Now())
                && BesidesCleanup(docker.failures) != BesidesCleanup(old(docker.failures))
    {
      ok := StartOrRemove(docker, cid);
      if ok {
        ok := docker.WaitReady(cid);
        if !ok {
          TearDown(docker, cid);
        }
      }
    }

    /** One round of a replica loop: replica number done goes up, or nothing is left of it and
        a call has failed or the role could not be launched. */
    method LaunchReplica(infos: array<ContainerInfo>, done: nat, plans: seq<ReplicaPlan>, ports: PortAllocator,
                         ghost p0: set<int>, ghost v0: View, ghost before: set<ContainerID>, ghost taken: set<Name>,
                         ghost pool: Pool) returns (ok: bool)
      requires done < infos.Length == |plans| && ports in {prefillPorts, decodePorts}
      requires docker.Valid() && WellFormed(v0) && Issuing(ports, p0) && v0.names.Keys <= docker.names.Keys
      requires LaunchedSoFar(infos[..done], plans, v0, before, docker.Now())
      requires NewPorts(PortsOf(infos[..done]), p0, ports.issued)
      requires RoleSoFar(plans, done, taken, pool, docker.names.Keys, ports.Now())
      requires IdsOf(infos[..done]) <= docker.done.probed
      modifies docker, ports, infos
      ensures docker.Valid() && Issuing(ports, p0) && |ports.used| <= |old(ports.used)| + 1
      ensures NamesAdded(old(docker.nameOf), docker.nameOf, {plans[done].name})
      ensures forall k :: 0 <= k < infos.Length && (k != done || !ok) ==> infos[k] == old(infos[k])
      ensures ok ==> docker.removeFailed == old(docker.removeFailed) && v0.names.Keys <= docker.names.Keys
      ensures LaunchedSoFar(infos[..if ok then done + 1 else done], plans, v0, before, docker.Now())
      ensures NewPorts(PortsOf(infos[..if ok then done + 1 else done]), p0, ports.issued)
      ensures ok ==>
                && docker.failures == old(docker.failures)
                && RoleSoFar(plans, done + 1, taken, pool, docker.names.Keys, ports.Now())
      ensures !ok ==> Refused(plans, taken, pool, old(docker.failures), docker.failures)
      ensures docker.Later() && IdsOf(infos[..if ok then done + 1 else done]) <= docker.done.probed
    {
      ghost var names, free := docker.names.Keys, ports.Now();
      var port := ports.Next();
      if port.Exhausted? {
        assert free.Free() == {};
        RoleRefused(plans, done, taken, pool, names, free);
        return false;
      }
      ghost var launched, issued := infos[..done], PortsOf(infos[..done]);
      NewPortsSnoc(issued, port.port, p0, old(ports.issued), ports.issued);
      ok := LaunchOn(infos, done, plans, port.port, v0, before);
      assert infos[..done] == launched;
      assert PortsOf(infos[..done + 1]) == PortsOf(infos[..done]) + [infos[done].hostPort];
      if ok {
        assert PortsOf(infos[..done + 1]) == issued + [port.port];
        RoleGrows(plans, done, taken, pool, names, free, port.port);
      } else if BesidesCleanup(docker.failures) == BesidesCleanup(old(docker.failures)) {
        assert port.port in free.Free();
        RoleRefused(plans, done, taken, pool, names, free);
      }
    }

    /** The replica once it has its port. */
    method LaunchOn(infos: array<ContainerInfo>, done: nat, plans: seq<ReplicaPlan>, port: int,
                    ghost v0: View, ghost before: set<ContainerID>) returns (ok: bool)
      requires done < infos.Length == |plans|
      requires docker.Valid() && WellFormed(v0) && v0.names.Keys <= docker.names.Keys
      requires LaunchedSoFar(infos[..done], plans, v0, before, docker.Now())
      requires IdsOf(infos[..done]) <= docker.done.probed
      modifies docker, infos
      ensures IdsOf(infos[..if ok then done + 1 else done]) <= docker.done.probed
      ensures docker.Valid() && NamesAdded(old(docker.nameOf), docker.nameOf, {plans[done].name})
      ensures forall k :: 0 <= k < infos.Length && (k != done || !ok) ==> infos[k] == old(infos[k])
      ensures ok ==> docker.removeFailed == old(docker.removeFailed) && v0.names.Keys <= docker.names.Keys
      ensures ok ==> infos[done].hostPort == port
      ensures LaunchedSoFar(infos[..if ok then done + 1 else done], plans, v0, before, docker.Now())
      ensures ok ==>
                && ReplicaOK(plans[done]) && port > 0 && plans[done].name !in old(docker.names)
                && docker.failures == old(docker.failures)
                && docker.names.Keys == old(docker.names.Keys) + {plans[done].name}
      ensures !ok && BesidesCleanup(docker.failures) == BesidesCleanup(old(docker.failures)) ==>
                !ReplicaOK(plans[done]) || port <= 0 || plans[done].name in old(docker.names)
      ensures docker.Later()
    {
      ghost var launched, v := infos[..done], docker.Now();
      var cid;
      ok, cid := CreateAndStart(plans[done], port, v0, before + IdsOf(launched));
      if !ok {
        StillLaunched(launched, plans, v0, before, v, docker.Now());
        return;
      }
      var info := ContainerInfo(cid, port, plans[done].replicaIdx);
      infos[done] := info;
      assert infos[..done + 1] == launched + [info];
      IdsSnoc(launched, info);
      OneMoreLaunched(launched, info, plans, v0, before, v, docker.Now());
    }

    /** One replica loop: launches plans in order into infos until one fails. done is
        the number of replicas launched; the others are untouched. */
    method LaunchReplicas(infos: array<ContainerInfo>, plans: seq<ReplicaPlan>, ports: PortAllocator,
                          ghost v0: View, ghost before: set<ContainerID>) returns (done: nat)
      requires infos.Length == |plans| && ports in {prefillPorts, decodePorts}
      requires docker.Valid() && WellFormed(v0) && Grown(v0, before, docker.Now())
      requires ports.used == ports.issued && v0.names.Keys <= docker.names.Keys
      modifies docker, ports, infos
      ensures docker.Valid() && done <= |plans|
      ensures forall k :: done <= k < infos.Length ==> infos[k] == old(infos[k])
      ensures Issuing(ports, old(ports.issued)) && NewPorts(PortsOf(infos[..done]), old(ports.issued), ports.issued)
      ensures LaunchedSoFar(infos[..done], plans, v0, before, docker.Now())
      ensures NamesAdded(old(docker.nameOf), docker.nameOf, NamesOf(plans))
      ensures |ports.used| <= |old(ports.used)| + |plans|
      ensures done == |plans| ==> docker.removeFailed == old(docker.removeFailed) && v0.names.Keys <= docker.names.Keys
      ensures done == |plans| ==>
                && docker.failures == old(docker.failures)
                && RoleLaunchable(plans, old(docker.names.Keys), old(ports.Now()))
                && docker.names.Keys == old(docker.names.Keys) + NamesOf(plans)
      ensures done < |plans| ==>
                Refused(plans, old(docker.names.Keys), old(ports.Now()), old(docker.failures), docker.failures)
      ensures docker.Later() && IdsOf(infos[..done]) <= docker.done.probed
    {
      ghost var p0, nameOf0, taken, pool := ports.issued, docker.nameOf, docker.names.Keys, ports.Now();
      done := 0;
      assert before + IdsOf(infos[..0]) == before;
      RoleStarts(plans, taken, pool);
      while done < |plans|
        invariant docker.Valid() && done <= |plans|
        invariant forall k :: done <= k < infos.Length ==> infos[k] == old(infos[k])
        invariant Issuing(ports, p0) && NewPorts(PortsOf(infos[..done]), p0, ports.issued)
        invariant LaunchedSoFar(infos[..done], plans, v0, before, docker.Now())
        invariant NamesAdded(nameOf0, docker.nameOf, NamesOf(plans)) && |ports.used| <= |old(ports.used)| + done
        invariant docker.removeFailed == old(docker.removeFailed)
        invariant v0.names.Keys <= docker.names.Keys && docker.failures == old(docker.failures)
        invariant RoleSoFar(plans, done, taken, pool, docker.names.Keys, ports.Now())
        invariant docker.Later() && IdsOf(infos[..done]) <= docker.done.probed
      {
        ghost var mid := docker.nameOf;
        var ok := LaunchReplica(infos, done, plans, ports, p0, v0, before, taken, pool);
        NamesAddedOneMore(nameOf0, mid, docker.nameOf, plans, done);
        if !ok {
          return;
        }
        done := done + 1;
      }
      assert plans[..done] == plans;
    }

    /** rollbackGroup: stops and removes the first n and m launched replicas of the roles. */
    method RollbackGroup(g: DeploymentGroup, n: nat, m: nat, ghost v0: View)
      requires n <= g.prefill.Length && m <= g.decode.Length
      requires DistinctIds(g.prefill[..n]) && DistinctIds(g.decode[..m])
      requires IdsOf(g.prefill[..n]) !! IdsOf(g.decode[..m])
      requires 0 !in IdsOf(g.prefill[..n]) && 0 !in IdsOf(g.decode[..m])
      requires docker.Valid() && WellFormed(v0)
      requires Grown(v0, IdsOf(g.prefill[..n]) + IdsOf(g.decode[..m]), docker.Now())
      modifies docker
      ensures docker.Valid() && Grown(v0, {}, docker.Now()) && docker.Later() && docker.nameOf == old(docker.nameOf)
      ensures BesidesCleanup(docker.failures) == BesidesCleanup(old(docker.failures))
    {
      ghost var prefillIds, decodeIds := IdsOf(g.prefill[..n]), IdsOf(g.decode[..m]);
      Rollback(g.prefill, n, v0, prefillIds + decodeIds);
      assert prefillIds + decodeIds - prefillIds == decodeIds;
      Rollback(g.decode, m, v0, decodeIds);
      assert decodeIds - decodeIds == {};
    }

    /** For one role: stops and removes the first n launched replicas. */
    method Rollback(infos: array<ContainerInfo>, n: nat, ghost v0: View, ghost ids: set<ContainerID>)
      requires n <= infos.Length && DistinctIds(infos[..n]) && IdsOf(infos[..n]) <= ids && 0 !in IdsOf(infos[..n])
      requires docker.Valid() && WellFormed(v0) && Grown(v0, ids, docker.Now())
      modifies docker
      ensures docker.Valid() && Grown(v0, ids - IdsOf(infos[..n]), docker.Now())
      ensures BesidesCleanup(docker.failures) == BesidesCleanup(old(docker.failures))
      ensures docker.Later() && docker.nameOf == old(docker.nameOf)
    {
      assert IdsOf(infos[..0]) == {} && ids - {} == ids;
      for i := 0 to n
        invariant docker.Valid() && Grown(v0, ids - IdsOf(infos[..i]), docker.Now())
        invariant BesidesCleanup(docker.failures) == BesidesCleanup(old(docker.failures))
        invariant docker.Later() && docker.nameOf == old(docker.nameOf)
      {
        var cid := infos[i].containerID;
        ghost var left := ids - IdsOf(infos[..i]);
        InPrefix(infos[..n], i);
        if cid != 0 {
          ghost var v := docker.Now();
          TearDown(docker, cid);
          LaunchedAndTornDown(v0, left, v, cid, docker.Now());
        }
        assert infos[..i + 1] == infos[..i] + [infos[i]];
        IdsSnoc(infos[..i], infos[i]);
        assert ids - IdsOf(infos[..i + 1]) == left - {cid};
      }
    }

    /** LoadDeploymentGroup. On any error Docker and the table are as before, up to new
        containers it refused to remove; on success the table records one fresh running
        container per replica. It succeeds exactly when the plan can be launched and no call
        fails. */
    method LoadDeploymentGroup(plan: GroupPlan) returns (ok: bool, group: DeploymentGroup?)
      requires Valid() && |plan.prefill| > 0
      modifies this`groups, this`members, this`recordedPorts, docker, prefillPorts, decodePorts
      ensures Valid()
      ensures !ok ==>
                && groups == old(groups) && members == old(members) && recordedPorts == old(recordedPorts)
                && FailedLaunch(old(docker.Now()), docker.Now())
      ensures ok ==>
                && group != null && fresh(group) && groups == old(groups)[plan.id := group]
                && group.prefill.Length == |plan.prefill| && group.decode.Length == |plan.decode|
                && LaunchedAs(plan, group.prefill[..], group.decode[..], old(docker.Now()), docker.Now())
                && members == old(members)[plan.id := IdsOf(group.prefill[..]) + IdsOf(group.decode[..])]
                && recordedPorts == old(recordedPorts) + PortsOf(group.prefill[..]) + PortsOf(group.decode[..])
                && group.id == plan.id && group.model == plan.model
                && group.prefillNext == 0 && group.decodeNext == 0
      ensures GroupAnswer(ok, plan, old(docker.names.Keys), old(prefillPorts.Now()), old(decodePorts.Now()),
                          old(docker.failures), docker.failures)
      ensures docker.Later() && (ok ==> GroupPrepared(plan, group.prefill[..], group.decode[..], docker.done))
      ensures Uses(plan, old(docker.nameOf), docker.nameOf, old(prefillPorts.used), prefillPorts.used,
                   old(decodePorts.used), decodePorts.used)
    {
      group := null;
      var g;
      ok, g := BuildGroup(plan);
      assert Recorded();
      if !ok {
        return;
      }
      var _ := docker.RemoveImage(plan.prefill[0].image);
      RecordGroup(plan.id, g, old(prefillPorts.issued), old(decodePorts.issued));
      return true, g;
    }

    /** The group object, launched. */
    method BuildGroup(plan: GroupPlan) returns (ok: bool, g: DeploymentGroup)
      requires docker.Valid() && PortsValid() && |plan.prefill| > 0
      modifies docker, prefillPorts, decodePorts
      ensures docker.Valid() && PortsValid() && fresh(g) && fresh(g.prefill) && fresh(g.decode)
      ensures old(docker.nameOf.Keys) <= docker.nameOf.Keys
      ensures Uses(plan, old(docker.nameOf), docker.nameOf, old(prefillPorts.used), prefillPorts.used,
                   old(decodePorts.used), decodePorts.used)
      ensures !ok ==> FailedLaunch(old(docker.Now()), docker.Now())
      ensures ok ==>
                && g.id == plan.id && g.model == plan.model && g.prefillNext == 0 && g.decodeNext == 0
                && LaunchedAs(plan, g.prefill[..], g.decode[..], old(docker.Now()), docker.Now())
                && old(prefillPorts.issued) <= prefillPorts.issued && old(decodePorts.issued) <= decodePorts.issued
                && NewPorts(PortsOf(g.prefill[..]), old(prefillPorts.issued), prefillPorts.issued)
                && NewPorts(PortsOf(g.decode[..]), old(decodePorts.issued), decodePorts.issued)
      ensures GroupAnswer(ok, plan, old(docker.names.Keys), old(prefillPorts.Now()), old(decodePorts.Now()),
                          old(docker.failures), docker.failures)
      ensures docker.Later() && (ok ==> GroupPrepared(plan, g.prefill[..], g.decode[..], docker.done))
    {
      g := new DeploymentGroup(plan.id, plan.model, |plan.prefill|, |plan.decode|);
      ok := PullAndLaunch(g, plan);
    }

    /** The image is pulled once for all replicas. */
    method PullAndLaunch(g: DeploymentGroup, plan: GroupPlan) returns (ok: bool)
      requires docker.Valid() && PortsValid() && g.prefill != g.decode && |plan.prefill| > 0
      requires g.prefill.Length == |plan.prefill| && g.decode.Length == |plan.decode|
      modifies docker, prefillPorts, decodePorts, g.prefill, g.decode
      ensures docker.Valid() && PortsValid()
      ensures old(docker.nameOf.Keys) <= docker.nameOf.Keys
      ensures Uses(plan, old(docker.nameOf), docker.nameOf, old(prefillPorts.used), prefillPorts.used,
                   old(decodePorts.used), decodePorts.used)
      ensures !ok ==> FailedLaunch(old(docker.Now()), docker.Now())
      ensures ok ==>
                && LaunchedAs(plan, g.prefill[..], g.decode[..], old(docker.Now()), docker.Now())
                && old(prefillPorts.issued) <= prefillPorts.issued && old(decodePorts.issued) <= decodePorts.issued
                && NewPorts(PortsOf(g.prefill[..]), old(prefillPorts.issued), prefillPorts.issued)
                && NewPorts(PortsOf(g.decode[..]), old(decodePorts.issued), decodePorts.issued)
      ensures GroupAnswer(ok, plan, old(docker.names.Keys), old(prefillPorts.Now()), old(decodePorts.Now()),
                          old(docker.failures), docker.failures)
      ensures docker.Later() && (ok ==> GroupPrepared(plan, g.prefill[..], g.decode[..], docker.done))
    {
      ghost var v := docker.Now();
      ok := docker.Pull(plan.prefill[0].image);
      if ok {
        ok := LaunchBoth(g, plan);
      } else {
        GrownTrivially(v);
      }
      if !ok {
        RolledBack(v, docker.Now());
      }
    }

    /** Enters a launched group into the table. */
    method RecordGroup(id: DeploymentID, g: DeploymentGroup, ghost p0: set<int>, ghost d0: set<int>)
      requires PortsValid() && Recorded() && p0 <= prefillPorts.issued && d0 <= decodePorts.issued
      requires forall p :: p in recordedPorts ==> p in p0 || p in d0
      requires NewPorts(PortsOf(g.prefill[..]), p0, prefillPorts.issued)
      requires NewPorts(PortsOf(g.decode[..]), d0, decodePorts.issued)
      modifies this`groups, this`members, this`recordedPorts
      ensures PortsValid() && Recorded() && groups == old(groups)[id := g]
      ensures members == old(members)[id := IdsOf(g.prefill[..]) + IdsOf(g.decode[..])]
      ensures recordedPorts == old(recordedPorts) + PortsOf(g.prefill[..]) + PortsOf(g.decode[..])
    {
      if Apart(prefillPorts.range, decodePorts.range) {
        forall p | p in prefillPorts.issued ensures p !in decodePorts.issued {
        }
        PortsStayDistinct(recordedPorts, PortsOf(g.prefill[..]), PortsOf(g.decode[..]),
                          p0, prefillPorts.issued, d0, decodePorts.issued);
      }
      groups := groups[id := g];
      members := members[id := IdsOf(g.prefill[..]) + IdsOf(g.decode[..])];
      recordedPorts := recordedPorts + PortsOf(g.prefill[..]) + PortsOf(g.decode[..]);
    }

    /** The two replica loops with their rollbacks. */
    method LaunchBoth(g: DeploymentGroup, plan: GroupPlan) returns (ok: bool)
      requires docker.Valid() && PortsValid() && g.prefill != g.decode
      requires g.prefill.Length == |plan.prefill| && g.decode.Length == |plan.decode|
      modifies docker, prefillPorts, decodePorts, g.prefill, g.decode
      ensures docker.Valid() && PortsValid()
      ensures old(docker.nameOf.Keys) <= docker.nameOf.Keys
      ensures Uses(plan, old(docker.nameOf), docker.nameOf, old(prefillPorts.used), prefillPorts.used,
                   old(decodePorts.used), decodePorts.used)
      ensures !ok ==> Grown(old(docker.Now()), {}, docker.Now())
      ensures ok ==>
                && LaunchedAs(plan, g.prefill[..], g.decode[..], old(docker.Now()), docker.Now())
                && old(prefillPorts.issued) <= prefillPorts.issued && old(decodePorts.issued) <= decodePorts.issued
                && NewPorts(PortsOf(g.prefill[..]), old(prefillPorts.issued), prefillPorts.issued)
                && NewPorts(PortsOf(g.decode[..]), old(decodePorts.issued), decodePorts.issued)
      ensures GroupAnswer(ok, plan, old(docker.names.Keys), old(prefillPorts.Now()), old(decodePorts.Now()),
                          old(docker.failures), docker.failures)
      ensures docker.Later()
      ensures ok ==> IdsOf(g.prefill[..]) + IdsOf(g.decode[..]) <= docker.done.probed
    {
      ghost var v0 := docker.Now();
      ok := LaunchPrefill(g, plan);
      if !ok {
        return;
      }
      ghost var u, prefill := docker.Now(), g.prefill[..];
      ok := LaunchDecode(g, plan, v0);
      NamesAddedTwice(v0.nameOf, u.nameOf, docker.nameOf, NamesOf(plan.prefill), NamesOf(plan.decode));
      assert g.prefill[..] == prefill;
      if ok {
        BothRoles(plan, prefill, g.decode[..], v0, u, docker.Now());
      }
    }

    /** The prefill loop. */
    method LaunchPrefill(g: DeploymentGroup, plan: GroupPlan) returns (ok: bool)
      requires docker.Valid() && PortsValid() && g.prefill != g.decode && g.prefill.Length == |plan.prefill|
      modifies docker, prefillPorts, g.prefill
      ensures docker.Valid() && PortsValid() && docker.Later()
      ensures NamesAdded(old(docker.nameOf), docker.nameOf, NamesOf(plan.prefill))
      ensures |prefillPorts.used| <= |old(prefillPorts.used)| + |plan.prefill|
      ensures old(prefillPorts.issued) <= prefillPorts.issued
      ensures !ok ==>
                && Grown(old(docker.Now()), {}, docker.Now())
                && Refused(plan.prefill, old(docker.names.Keys), old(prefillPorts.Now()), old(docker.failures),
                           docker.failures)
      ensures ok ==>
                && LaunchedSoFar(g.prefill[..], plan.prefill, old(docker.Now()), {}, docker.Now())
                && docker.removeFailed == old(docker.removeFailed) && docker.failures == old(docker.failures)
                && docker.names.Keys == old(docker.names.Keys) + NamesOf(plan.prefill)
                && RoleLaunchable(plan.prefill, old(docker.names.Keys), old(prefillPorts.Now()))
                && NewPorts(PortsOf(g.prefill[..]), old(prefillPorts.issued), prefillPorts.issued)
                && IdsOf(g.prefill[..]) <= docker.done.probed
    {
      ghost var v0 := docker.Now();
      GrownTrivially(v0);
      var n := LaunchReplicas(g.prefill, plan.prefill, prefillPorts, v0, {});
      ok := n == |plan.prefill|;
      if ok {
        assert g.prefill[..n] == g.prefill[..];
      } else {
        assert IdsOf(g.decode[..0]) == {} && {} + IdsOf(g.prefill[..n]) == IdsOf(g.prefill[..n]) + {};
        RollbackGroup(g, n, 0, v0);
      }
    }

    /** The decode loop, once every prefill replica is up. */
    method LaunchDecode(g: DeploymentGroup, plan: GroupPlan, ghost v0: View) returns (ok: bool)
      requires docker.Valid() && PortsValid() && WellFormed(v0) && v0.names.Keys <= docker.names.Keys
      requires g.prefill != g.decode && g.decode.Length == |plan.decode|
      requires LaunchedSoFar(g.prefill[..], plan.prefill, v0, {}, docker.Now())
      requires IdsOf(g.prefill[..]) <= docker.done.probed
      modifies docker, decodePorts, g.decode
      ensures docker.Valid() && PortsValid() && docker.Later()
      ensures NamesAdded(old(docker.nameOf), docker.nameOf, NamesOf(plan.decode))
      ensures |decodePorts.used| <= |old(decodePorts.used)| + |plan.decode|
      ensures old(decodePorts.issued) <= decodePorts.issued
      ensures !ok ==>
                && Grown(v0, {}, docker.Now())
                && Refused(plan.decode, old(docker.names.Keys), old(decodePorts.Now()), old(docker.failures),
                           docker.failures)
      ensures ok ==>
                && LaunchedSoFar(g.decode[..], plan.decode, v0, IdsOf(g.prefill[..]), docker.Now())
                && docker.removeFailed == old(docker.removeFailed) && docker.failures == old(docker.failures)
                && RoleLaunchable(plan.decode, old(docker.names.Keys), old(decodePorts.Now()))
                && NewPorts(PortsOf(g.decode[..]), old(decodePorts.issued), decodePorts.issued)
                && IdsOf(g.decode[..]) <= docker.done.probed
    {
      ghost var prefillIds := IdsOf(g.prefill[..]);
      assert {} + prefillIds == prefillIds && g.prefill[..g.prefill.Length] == g.prefill[..];
      var m := LaunchReplicas(g.decode, plan.decode, decodePorts, v0, prefillIds);
      ok := m == |plan.decode|;
      if ok {
        assert g.decode[..m] == g.decode[..];
      } else {
        RollbackGroup(g, g.prefill.Length, m, v0);
      }
    }

    /** UnloadDeploymentGroup: the group is forgotten first; each of its containers is then
        gone unless Docker refused to remove it, and no other container is touched. */
    method UnloadDeploymentGroup(id: DeploymentID)
      requires Valid()
      modifies this`groups, this`members, docker
      ensures Valid() && groups == old(groups) - {id} && members == old(members) - {id}
      ensures docker.nameOf == old(docker.nameOf)
      ensures id !in old(groups) ==> docker.Now() == old(docker.Now())
      ensures id in old(groups) ==>
                Unloaded(old(docker.Now()), old(members)[id], docker.Now())
      ensures docker.Later()
    {
      if id !in groups {
        return;
      }
      var g := groups[id];
      groups, members := groups - {id}, members - {id};
      TearDownGroup(g);
    }

    /** Both roles of a group. */
    method TearDownGroup(g: DeploymentGroup)
      requires docker.Valid() && IdsOf(g.prefill[..]) + IdsOf(g.decode[..]) <= docker.nameOf.Keys
      modifies docker
      ensures docker.Valid() && docker.nameOf == old(docker.nameOf)
      ensures Unloaded(old(docker.Now()), IdsOf(g.prefill[..]) + IdsOf(g.decode[..]), docker.Now())
      ensures docker.Later()
    {
      ghost var v0 := docker.Now();
      StopAndRemoveAll(g.prefill, v0, {});
      StopAndRemoveAll(g.decode, v0, {} + IdsOf(g.prefill[..]));
      assert {} + IdsOf(g.prefill[..]) + IdsOf(g.decode[..]) == IdsOf(g.prefill[..]) + IdsOf(g.decode[..]);
    }

    method StopAndRemoveAll(infos: array<ContainerInfo>, ghost v0: View, ghost before: set<ContainerID>)
      requires docker.Valid() && IdsOf(infos[..]) <= docker.nameOf.Keys && Unloaded(v0, before, docker.Now())
      modifies docker
      ensures docker.Valid() && Unloaded(v0, before + IdsOf(infos[..]), docker.Now())
      ensures docker.Later()
      ensures docker.nameOf == old(docker.nameOf)
    {
      assert IdsOf(infos[..0]) == {} && before + {} == before;
      for i := 0 to infos.Length
        invariant docker.Valid() && docker.nameOf == old(docker.nameOf) && docker.Later()
        invariant Unloaded(v0, before + IdsOf(infos[..i]), docker.Now())
      {
        var cid := infos[i].containerID;
        ghost var gone, v := before + IdsOf(infos[..i]), docker.Now();
        InPrefix(infos[..], i);
        if cid != 0 {
          TearDown(docker, cid);
          UnloadedOneMore(v0, gone, v, cid, docker.Now());
        } else {
          UnloadedNothing(v0, gone, v);
        }
        assert infos[..i + 1] == infos[..i] + [infos[i]];
        IdsSnoc(infos[..i], infos[i]);
        assert before + IdsOf(infos[..i + 1]) == gone + {cid};
      }
      assert infos[..infos.Length] == infos[..];
    }
  }

  /** A launch needs names that no existing container has. */
  lemma NamesakeBlocksLaunch(docker: Docker, plan: GroupPlan, c: ContainerID)
    requires docker.Valid() && c in docker.containers && docker.nameOf[c] != 0
    requires (exists k :: 0 <= k < |plan.prefill| && plan.prefill[k].name == docker.nameOf[c])
             || (exists k :: 0 <= k < |plan.decode| && plan.decode[k].name == docker.nameOf[c])
    ensures !NamesUnused(plan, docker.Now())
  {
  }

  /** Loading a group under an id that is recorded, with names that are not in use: the
      earlier group's containers go on running and belong to no group. */
  method ReloadOrphans(table: GroupTable, first: GroupPlan, second: GroupPlan) returns (both: bool, orphan: ContainerID)
    requires table.Valid() && |first.prefill| > 0 && |second.prefill| > 0 && first.id == second.id
    modifies table, table.docker, table.prefillPorts, table.decodePorts
    ensures both ==>
              && orphan in table.docker.containers && table.docker.containers[orphan]
              && (forall g :: g in table.members ==> orphan !in table.members[g])
  {
    orphan := 0;
    var group;
    both, group := table.LoadDeploymentGroup(first);
    if both {
      InPrefix(group.prefill[..], 0);
      orphan := group.prefill[0].containerID;
      both, group := table.LoadDeploymentGroup(second);
    }
  }

  /** The ports were all issued in between, and are pairwise distinct. */
  ghost predicate NewPorts(ports: seq<int>, before: set<int>, after: set<int>)
  {
    Distinct(ports) && forall p :: p in ports ==> p !in before && p in after
  }

  lemma NewPortsSnoc(ports: seq<int>, port: int, before: set<int>, mid: set<int>, after: set<int>)
    requires NewPorts(ports, before, mid) && port !in mid && before <= mid && after == mid + {port}
    ensures NewPorts(ports, before, after) && NewPorts(ports + [port], before, after)
  {
  }

  lemma InPrefix(infos: seq<ContainerInfo>, i: nat)
    requires i < |infos|
    ensures infos[i].containerID in IdsOf(infos)
    ensures DistinctIds(infos) ==> infos[i].containerID !in IdsOf(infos[..i])
  {
  }

  /** Containers made on the way have one of these names. */
  ghost predicate NamesAdded(nameOf: map<ContainerID, Name>, nameOf': map<ContainerID, Name>, names: set<Name>)
  {
    NamesKept(nameOf, nameOf') && forall c :: c in nameOf' && c !in nameOf ==> nameOf'[c] in names
  }

  lemma NamesAddedOneMore(nameOf: map<ContainerID, Name>, mid: map<ContainerID, Name>,
                          nameOf': map<ContainerID, Name>, plans: seq<ReplicaPlan>, k: nat)
    requires k < |plans| && NamesAdded(nameOf, mid, NamesOf(plans)) && NamesAdded(mid, nameOf', {plans[k].name})
    ensures NamesAdded(nameOf, nameOf', NamesOf(plans))
  {
    assert plans[k].name in NamesOf(plans);
  }

  lemma NamesAddedTwice(nameOf: map<ContainerID, Name>, mid: map<ContainerID, Name>, nameOf': map<ContainerID, Name>,
                        first: set<Name>, second: set<Name>)
    requires NamesAdded(nameOf, mid, first) && NamesAdded(mid, nameOf', second)
    ensures NamesAdded(nameOf, nameOf', first + second)
  {
  }

  /** The names and the number of ports a group load may use up. */
  ghost predicate Uses(plan: GroupPlan, nameOf: map<ContainerID, Name>, nameOf': map<ContainerID, Name>,
                       prefillUsed: set<int>, prefillUsed': set<int>, decodeUsed: set<int>, decodeUsed': set<int>)
  {
    && NamesAdded(nameOf, nameOf', NamesOf(plan.prefill) + NamesOf(plan.decode))
    && |prefillUsed'| <= |prefillUsed| + |plan.prefill| && |decodeUsed'| <= |decodeUsed| + |plan.decode|
  }

  ghost predicate NamesKept(nameOf: map<ContainerID, Name>, nameOf': map<ContainerID, Name>)
  {
    forall c :: c in nameOf ==> c in nameOf' && nameOf'[c] == nameOf[c]
  }

  predicate ForReplica(info: ContainerInfo, plan: ReplicaPlan, nameOf: map<ContainerID, Name>)
  {
    info.replicaIdx == plan.replicaIdx && info.containerID in nameOf && nameOf[info.containerID] == plan.name
  }

  /** launched are distinct fresh running containers, one per plan in order. */
  ghost predicate LaunchedSoFar(launched: seq<ContainerInfo>, plans: seq<ReplicaPlan>, v0: View,
                                before: set<ContainerID>, w: View)
  {
    && |launched| <= |plans| && DistinctIds(launched)
    && IdsOf(launched) !! before && 0 !in IdsOf(launched)
    && Grown(v0, before + IdsOf(launched), w)
    && (forall k :: 0 <= k < |launched| ==> ForReplica(launched[k], plans[k], w.nameOf) && plans[k].name !in v0.names)
  }

  lemma BothRoles(plan: GroupPlan, prefill: seq<ContainerInfo>, decode: seq<ContainerInfo>, v: View, u: View, w: View)
    requires |prefill| == |plan.prefill| && LaunchedSoFar(prefill, plan.prefill, v, {}, u)
    requires |decode| == |plan.decode| && LaunchedSoFar(decode, plan.decode, v, IdsOf(prefill), w)
    requires NamesKept(u.nameOf, w.nameOf) && w.removeFailed == v.removeFailed
    ensures LaunchedAs(plan, prefill, decode, v, w)
  {
  }

  lemma OneMoreLaunched(launched: seq<ContainerInfo>, info: ContainerInfo, plans: seq<ReplicaPlan>, v0: View,
                        before: set<ContainerID>, v: View, w: View)
    requires LaunchedSoFar(launched, plans, v0, before, v) && |launched| < |plans|
    requires info.containerID != 0 && info.containerID !in before + IdsOf(launched) && info.containerID !in v.nameOf
    requires info.replicaIdx == plans[|launched|].replicaIdx && plans[|launched|].name !in v0.names
    requires w.nameOf == v.nameOf[info.containerID := plans[|launched|].name]
    requires Grown(v0, before + IdsOf(launched) + {info.containerID}, w)
    ensures LaunchedSoFar(launched + [info], plans, v0, before, w)
  {
    IdsSnoc(launched, info);
    assert before + IdsOf(launched + [info]) == before + IdsOf(launched) + {info.containerID};
  }

  lemma StillLaunched(launched: seq<ContainerInfo>, plans: seq<ReplicaPlan>, v0: View, before: set<ContainerID>,
                      v: View, w: View)
    requires LaunchedSoFar(launched, plans, v0, before, v) && Grown(v0, before + IdsOf(launched), w)
    requires NamesKept(v.nameOf, w.nameOf)
    ensures LaunchedSoFar(launched, plans, v0, before, w)
  {
  }

  /** No replica is to be named like a container that exists. */
  ghost predicate NamesUnused(plan: GroupPlan, v: View)
  {
    && (forall k :: 0 <= k < |plan.prefill| ==> plan.prefill[k].name !in v.names)
    && (forall k :: 0 <= k < |plan.decode| ==> plan.decode[k].name !in v.names)
  }

  /** A successful launch: one fresh running container per replica, in order, all
      distinct, under names nobody used; nothing else changed in Docker's container set. */
  ghost predicate LaunchedAs(plan: GroupPlan, prefill: seq<ContainerInfo>, decode: seq<ContainerInfo>, v: View, w: View)
  {
    && |prefill| == |plan.prefill| && |decode| == |plan.decode|
    && DistinctIds(prefill) && DistinctIds(decode) && IdsOf(prefill) !! IdsOf(decode)
    && 0 !in IdsOf(prefill) + IdsOf(decode)
    && Grown(v, IdsOf(prefill) + IdsOf(decode), w) && w.removeFailed == v.removeFailed
    && (forall k :: 0 <= k < |prefill| ==> ForReplica(prefill[k], plan.prefill[k], w.nameOf))
    && (forall k :: 0 <= k < |decode| ==> ForReplica(decode[k], plan.decode[k], w.nameOf))
    && NamesUnused(plan, v)
  }

  /** From v to w the containers ids are gone or could not be removed, and are then stopped
      unless that failed too; others are as they were. */
  ghost predicate Unloaded(v: View, ids: set<ContainerID>, w: View)
  {
    && v.stopFailed <= w.stopFailed && v.removeFailed <= w.removeFailed
    && w.stopFailed <= v.stopFailed + ids && w.removeFailed <= v.removeFailed + ids
    && (forall c :: c in w.containers ==>
          c in v.containers
          && (c in ids && c != 0 ==> c in w.removeFailed && (w.containers[c] ==> c in w.stopFailed)))
    && (forall c :: c in v.containers && c !in ids ==> c in w.containers && w.containers[c] == v.containers[c])
  }

  lemma UnloadedOneMore(v0: View, ids: set<ContainerID>, v: View, cid: ContainerID, w: View)
    requires Unloaded(v0, ids, v) && TornDown(v, cid, w)
    ensures Unloaded(v0, ids + {cid}, w)
  {
    TornDownElsewhere(v, cid, w);
  }

  lemma UnloadedNothing(v0: View, ids: set<ContainerID>, v: View)
    requires Unloaded(v0, ids, v)
    ensures Unloaded(v0, ids + {0}, v)
  {
  }

  /** Ports from two allocators with disjoint ranges never repeat. */
  lemma PortsStayDistinct(recorded: seq<int>, prefill: seq<int>, decode: seq<int>,
                          p0: set<int>, p1: set<int>, d0: set<int>, d1: set<int>)
    requires Distinct(recorded) && forall p :: p in recorded ==> p in p0 || p in d0
    requires NewPorts(prefill, p0, p1) && NewPorts(decode, d0, d1)
    requires p0 <= p1 && d0 <= d1 && p1 !! d1
    ensures Distinct(recorded + prefill + decode)
  {
    var all := recorded + prefill + decode;
    forall j, k | 0 <= j < k < |all| ensures all[j] != all[k] {
      var r, s := |recorded|, |recorded| + |prefill|;
      assert all[j] == if j < r then recorded[j] else if j < s then prefill[j - r] else decode[j - s];
      assert all[k] == if k < r then recorded[k] else if k < s then prefill[k - r] else decode[k - s];
      if k >= r {
        assert k < s ==> prefill[k - r] in prefill;
        assert k >= s ==> decode[k - s] in decode;
        assert j < r ==> recorded[j] in recorded;
        assert r <= j < s ==> prefill[j - r] in prefill;
      }
    }
  }
}
