/** The worker's single-container lifecycle, for calls that do not overlap. */
module WorkerRuntime {
  import opened DockerEngine
  import opened Ports
  import opened Deployment
  import opened Agreement

  /** The fields of a recipe plan the runtime looks at. */
  datatype Plan = Plan(image: string, containerName: Name, containerPort: int, hostPort: int, ollamaModel: string)

  datatype Stage = PortStage | PullStage | SpecStage | CreateStage | StartStage | ReadyStage | OllamaStage

  datatype LoadOutcome = Loaded(endpoint: Endpoint) | LoadError(stage: Stage)

  /** BuildContainerSpec accepts the plan. */
  predicate SpecOK(plan: Plan)
  {
    plan.image != "" && plan.containerName != 0 && plan.containerPort > 0 && plan.hostPort > 0
  }

  /** One deployment record, updated in place while it is loaded. */
  class Record {
    var containerID: ContainerID
    var hostPort: int
    var endpoint: Endpoint
    var state: State
    var prog: Progress

    constructor ()
      ensures View() == FRESH
    {
      containerID, hostPort, endpoint, state, prog := 0, 0, NoEndpoint, Absent, Open;
    }

    ghost function View(): Snapshot
      reads this
    {
      Snapshot(containerID, hostPort, endpoint, state, prog)
    }
  }

  class Runtime {
    const docker: Docker
    const hostPorts: PortAllocator
    var deployments: map<DeploymentID, Record>
    /** The contents of the records, by deployment id. */
    ghost var recs: Records
    /** Containers the single-container path has created. */
    ghost var owned: set<ContainerID>

    ghost predicate Linked()
      reads this, deployments.Values
    {
      && deployments.Keys == recs.Keys
      && (forall id :: id in deployments ==> deployments[id].View() == recs[id])
      && (forall id, id' :: id in deployments && id' in deployments && id != id' ==>
            deployments[id] != deployments[id'])
    }

    /** What holds even after a load has taken another deployment's container name. */
    ghost predicate Sound()
      reads this, docker, deployments.Values
    {
      Linked() && docker.Valid() && owned <= docker.nameOf.Keys
    }

    ghost predicate Valid()
      reads this, docker, deployments.Values
    {
      Sound() && Agreed()
    }

    /** Records and containers agree. */
    ghost predicate Agreed()
      reads this, docker
    {
      Agrees(recs, docker.containers, owned, docker.Now().Troubled())
    }

    ghost predicate NameFree(id: DeploymentID, name: Name)
      reads this, docker
    {
      NameFreeIn(recs, docker.Now(), id, name)
    }

    ghost predicate IsRunning(id: DeploymentID)
      reads this
    {
      id in recs && recs[id].state == Running
    }

    constructor (range: Range)
      ensures Valid() && fresh(docker) && fresh(hostPorts)
      ensures recs == map[] && owned == {} && docker.containers == map[] && deployments == map[]
      ensures docker.failures == NO_FAILURES && docker.nameOf == map[]
      ensures hostPorts.Now() == Pool(range, {})
    {
      docker := new Docker();
      hostPorts := new PortAllocator(range);
      deployments, recs, owned := map[], map[], {};
    }

    // ----- record mutators ---------------------------------------------------------

    method GetOrCreate(id: DeploymentID) returns (d: Record)
      requires Linked()
      modifies this`deployments, this`recs
      ensures Linked() && id in deployments && d == deployments[id]
      ensures id in old(deployments) ==> deployments == old(deployments) && recs == old(recs)
      ensures id !in old(deployments) ==>
                fresh(d) && deployments == old(deployments)[id := d] && recs == old(recs)[id := FRESH]
    {
      if id in deployments {
        d := deployments[id];
      } else {
        d := new Record();
        deployments := deployments[id := d];
        recs := recs[id := FRESH];
      }
    }

    method SetState(id: DeploymentID, s: State)
      requires Linked()
      modifies this`recs, deployments.Values
      ensures Linked() && SameElsewhere(recs, old(recs), id)
      ensures id in recs <==> id in old(recs)
      ensures id in recs ==> recs[id] == old(recs)[id].(state := s)
    {
      if id in deployments {
        deployments[id].state := s;
        recs := recs[id := recs[id].(state := s)];
      }
    }

    method SetContainerID(id: DeploymentID, cid: ContainerID)
      requires Linked()
      modifies this`recs, deployments.Values
      ensures Linked() && SameElsewhere(recs, old(recs), id)
      ensures id in recs <==> id in old(recs)
      ensures id in recs ==> recs[id] == old(recs)[id].(containerID := cid)
    {
      if id in deployments {
        deployments[id].containerID := cid;
        recs := recs[id := recs[id].(containerID := cid)];
      }
    }

    /** Appends the terminal event to the record's progress log; the first one stays. */
    method MarkProgress(id: DeploymentID, d: Record, event: Progress)
      requires Linked() && id in deployments && deployments[id] == d
      modifies this`recs, deployments.Values
      ensures Linked() && SameElsewhere(recs, old(recs), id) && id in recs
      ensures recs[id] == old(recs)[id].(prog := Latch(old(recs)[id].prog, event))
    {
      d.prog := Latch(d.prog, event);
      recs := recs[id := d.View()];
    }

    method Drop(id: DeploymentID)
      requires Linked()
      modifies this`deployments, this`recs
      ensures Linked() && deployments == old(deployments) - {id} && recs == old(recs) - {id}
    {
      deployments := deployments - {id};
      recs := recs - {id};
    }

    // ----- LoadModel ---------------------------------------------------------------

    /** Creates the container for an accepted plan, clearing a stale one of that name. */
    method PullAndCreate(plan: Plan) returns (ok: bool, cid: ContainerID, stage: Stage)
      requires docker.Valid()
      modifies docker
      ensures docker.Valid()
      ensures ok ==> SpecOK(plan) && CreatedFrom(old(docker.Now()), plan.containerName, cid, false, docker.Now())
      ensures !ok ==> stage != PortStage && ClearedFrom(old(docker.Now()), plan.containerName, docker.Now())
      ensures CreateAnswer(ok, stage, plan, plan.containerName in old(docker.names), old(docker.failures),
                           docker.failures)
      ensures docker.Later() && (ok || stage != PullStage ==> plan.image in docker.done.images)
    {
      cid, stage := 0, PullStage;
      ok := docker.Pull(plan.image);
      if !ok {
        return;
      }
      stage := SpecStage;
      if !SpecOK(plan) {
        return false, 0, stage;
      }
      stage := CreateStage;
      var _ := docker.RemoveByName(plan.containerName);
      ghost var u := docker.Now();
      ok, cid := docker.Create(plan.containerName);
      if ok {
        assert docker.Now() == WithContainer(u, plan.containerName, cid, false);
      }
    }

    /** Readiness and the ollama pull, tearing the container down if either fails. */
    method ReadyOrTearDown(cid: ContainerID, ollamaModel: string) returns (ok: bool, stage: Stage)
      requires docker.Valid() && cid in docker.containers
      modifies docker
      ensures docker.Valid()
      ensures ok ==> docker.Now() == old(docker.Now())
      ensures !ok ==> stage != PortStage && TornDown(old(docker.Now()), cid, docker.Now())
      ensures ReadyAnswer(ok, stage, ollamaModel, old(docker.failures), docker.failures)
      ensures docker.Later() && (ok ==> Serving(ollamaModel, cid, docker.done))
    {
      stage := ReadyStage;
      ok := docker.WaitReady(cid);
      if ok && ollamaModel != "" {
        stage := OllamaStage;
        ok := docker.PullModel(cid);
      }
      if !ok {
        TearDown(docker, cid);
      }
    }

    /** The tail shared by every failure after port allocation. */
    method FailAndDrop(id: DeploymentID, d: Record, markFailed: bool)
      requires Linked() && id in deployments && deployments[id] == d
      modifies this`deployments, this`recs, deployments.Values
      ensures Linked() && deployments == old(deployments) - {id} && recs == old(recs) - {id}
      ensures d.state == State.Failed && d.prog == if markFailed then Latch(old(d.prog), LoadFailed) else old(d.prog)
    {
      if markFailed {
        MarkProgress(id, d, LoadFailed);
      }
      SetState(id, State.Failed);
      Drop(id);
    }

    /** Pull to create: the record goes through Pulling to Starting. */
    method CreateStep(id: DeploymentID, d: Record, plan: Plan) returns (ok: bool, cid: ContainerID, stage: Stage)
      requires Linked() && docker.Valid() && id in deployments && deployments[id] == d
      requires owned <= docker.nameOf.Keys
      modifies this`recs, this`owned, docker, deployments.Values
      ensures Linked() && docker.Valid() && id in recs && SameElsewhere(recs, old(recs), id)
      ensures recs[id] == if ok then old(recs)[id].(containerID := cid, state := Starting)
                          else old(recs)[id].(state := Pulling)
      ensures ok ==>
                && SpecOK(plan) && owned == old(owned) + {cid}
                && CreatedFrom(old(docker.Now()), plan.containerName, cid, false, docker.Now())
      ensures !ok ==>
                && stage != PortStage && owned == old(owned)
                && LoadFailedFrom(old(docker.Now()), plan.containerName, docker.Now())
                && docker.nameOf == old(docker.nameOf)
      ensures CreateAnswer(ok, stage, plan, plan.containerName in old(docker.names), old(docker.failures),
                           docker.failures)
      ensures docker.Later() && (ok || stage != PullStage ==> plan.image in docker.done.images)
    {
      SetState(id, Pulling);
      ok, cid, stage := PullAndCreate(plan);
      if ok {
        owned := owned + {cid};
        SetContainerID(id, cid);
        SetState(id, Starting);
      }
    }

    /** Start: a started container takes over the progress log. */
    method StartStep(id: DeploymentID, d: Record, cid: ContainerID, ghost name: Name, ghost v0: View) returns (ok: bool)
      requires Linked() && docker.Valid() && id in deployments && deployments[id] == d
      requires v0.containers.Keys <= v0.nameOf.Keys && CreatedFrom(v0, name, cid, false, docker.Now())
      modifies this`recs, docker, deployments.Values
      ensures Linked() && docker.Valid() && id in recs && SameElsewhere(recs, old(recs), id)
      ensures docker.nameOf == old(docker.nameOf)
      ensures ok ==>
                && recs[id].prog == Latch(old(recs)[id].prog, Started(cid))
                && CreatedFrom(v0, name, cid, true, docker.Now())
      ensures !ok ==> LoadFailedFrom(v0, name, docker.Now()) && recs == old(recs)
      ensures StartAnswer(ok, old(docker.failures), docker.failures) && docker.Later()
    {
      ghost var v1 := docker.Now();
      ok := StartOrRemove(docker, cid);
      if ok {
        CreatedThenStarted(v0, name, cid, v1, docker.Now());
        MarkProgress(id, d, Started(cid));
      } else {
        CreatedThenRemoved(v0, name, cid, false, v1, docker.Now());
      }
    }

    /** The final record update. */
    method FillRecord(id: DeploymentID, d: Record, cid: ContainerID, port: int)
      requires Linked() && id in deployments && deployments[id] == d
      modifies this`recs, deployments.Values
      ensures Linked() && id in recs && SameElsewhere(recs, old(recs), id)
      ensures recs[id] == Snapshot(cid, port, Local(port), Running, old(recs)[id].prog)
    {
      d.containerID, d.hostPort, d.endpoint := cid, port, Local(port);
      recs := recs[id := d.View()];
      SetState(id, Running);
    }

    /** Readiness, the ollama pull and the final record update. */
    method ReadyStep(id: DeploymentID, d: Record, cid: ContainerID, plan: Plan, ghost v0: View)
      returns (ok: bool, stage: Stage)
      requires Linked() && docker.Valid() && id in deployments && deployments[id] == d
      requires v0.containers.Keys <= v0.nameOf.Keys
      requires CreatedFrom(v0, plan.containerName, cid, true, docker.Now())
      modifies this`recs, docker, deployments.Values
      ensures Linked() && docker.Valid() && id in recs && SameElsewhere(recs, old(recs), id)
      ensures docker.nameOf == old(docker.nameOf)
      ensures ok ==>
                && recs[id] == Snapshot(cid, plan.hostPort, Local(plan.hostPort), Running, old(recs)[id].prog)
                && CreatedFrom(v0, plan.containerName, cid, true, docker.Now())
      ensures !ok ==> stage != PortStage && LoadFailedFrom(v0, plan.containerName, docker.Now()) && recs == old(recs)
      ensures ReadyAnswer(ok, stage, plan.ollamaModel, old(docker.failures), docker.failures)
      ensures docker.Later() && (ok ==> Serving(plan.ollamaModel, cid, docker.done))
    {
      ghost var v2 := docker.Now();
      ok, stage := ReadyOrTearDown(cid, plan.ollamaModel);
      if ok {
        var _ := docker.RemoveImage(plan.image);
        FillRecord(id, d, cid, plan.hostPort);
      } else {
        CreatedThenRemoved(v0, plan.containerName, cid, true, v2, docker.Now());
      }
    }

    /** From the created container to the running deployment. */
    method RunSteps(id: DeploymentID, d: Record, cid: ContainerID, plan: Plan, ghost v0: View) returns (r: LoadOutcome)
      requires Linked() && docker.Valid() && id in deployments && deployments[id] == d
      requires v0.containers.Keys <= v0.nameOf.Keys
      requires CreatedFrom(v0, plan.containerName, cid, false, docker.Now())
      modifies this`deployments, this`recs, docker, deployments.Values
      ensures Linked() && docker.Valid() && docker.nameOf == old(docker.nameOf) && SameElsewhere(recs, old(recs), id)
      ensures r.LoadError? ==>
                && r.stage != PortStage && id !in recs && deployments == old(deployments) - {id}
                && LoadFailedFrom(v0, plan.containerName, docker.Now())
      ensures r.Loaded? ==>
                && r.endpoint == Local(plan.hostPort) && deployments == old(deployments) && id in recs
                && recs[id] == Snapshot(cid, plan.hostPort, r.endpoint, Running,
                                        Latch(old(recs)[id].prog, Started(cid)))
                && CreatedFrom(v0, plan.containerName, cid, true, docker.Now())
      ensures RunAnswer(r, plan, old(docker.failures), docker.failures)
      ensures docker.Later() && (r.Loaded? ==> Serving(plan.ollamaModel, cid, docker.done))
      ensures d.prog == Latch(old(d.prog), if r == LoadError(StartStage) then LoadFailed else Started(cid))
    {
      var ok := StartStep(id, d, cid, plan.containerName, v0);
      if !ok {
        FailAndDrop(id, d, true);
        return LoadError(StartStage);
      }
      var stage;
      ok, stage := ReadyStep(id, d, cid, plan, v0);
      if !ok {
        FailAndDrop(id, d, false);
        return LoadError(stage);
      }
      return Loaded(Local(plan.hostPort));
    }

    /** Everything after port allocation: the steps, without the agreement. */
    method LaunchSteps(id: DeploymentID, d: Record, plan: Plan) returns (r: LoadOutcome)
      requires Linked() && docker.Valid() && id in deployments && deployments[id] == d
      requires owned <= docker.nameOf.Keys
      modifies this`deployments, this`recs, this`owned, docker, deployments.Values
      ensures Linked() && docker.Valid()
      ensures r.LoadError? ==>
                && r.stage != PortStage && recs == old(recs) - {id}
                && LoadFailedFrom(old(docker.Now()), plan.containerName, docker.Now())
                && OwnedGrew(old(owned), old(docker.Now()), owned, docker.Now())
      ensures r.Loaded? ==>
                && r.endpoint == Local(plan.hostPort)
                && LoadedFrom(old(docker.Now()), old(recs), id, plan, recs, docker.Now())
                && owned == old(owned) + {recs[id].containerID}
      ensures deployments == old(deployments) || deployments == old(deployments) - {id}
      ensures Answers(r, plan, plan.containerName in old(docker.names), old(docker.failures), docker.failures)
      ensures docker.Later() && (r.Loaded? ==> Prepared(plan, recs[id].containerID, docker.done))
      ensures ProgressEnds(r, old(d.prog), d.prog)
    {
      ghost var recs0, v0 := recs, docker.Now();
      var ok, cid, stage := CreateStep(id, d, plan);
      if !ok {
        FailAndDrop(id, d, true);
        return LoadError(stage);
      }
      r := RunSteps(id, d, cid, plan, v0);
      if r.Loaded? {
        Patched(recs, recs0, id);
      }
    }

    /** Everything after port allocation. The record is not running when this begins. */
    method Launch(id: DeploymentID, d: Record, plan: Plan) returns (r: LoadOutcome)
      requires Valid() && id in deployments && deployments[id] == d && d.state != Running
      modifies this`deployments, this`recs, this`owned, docker, deployments.Values
      ensures Sound() && (old(NameFree(id, plan.containerName)) ==> Agreed())
      ensures r.Loaded? ==> (Agreed() <==> old(NameFree(id, plan.containerName)))
      ensures r.LoadError? ==>
                && r.stage != PortStage && recs == old(recs) - {id}
                && LoadFailedFrom(old(docker.Now()), plan.containerName, docker.Now())
      ensures r.Loaded? ==>
                && r.endpoint == Local(plan.hostPort)
                && LoadedFrom(old(docker.Now()), old(recs), id, plan, recs, docker.Now())
      ensures OwnedGrew(old(owned), old(docker.Now()), owned, docker.Now())
      ensures deployments == old(deployments) || deployments == old(deployments) - {id}
      ensures Answers(r, plan, plan.containerName in old(docker.names), old(docker.failures), docker.failures)
      ensures docker.Later() && (r.Loaded? ==> Prepared(plan, recs[id].containerID, docker.done))
      ensures ProgressEnds(r, old(d.prog), d.prog)
    {
      ghost var recs0, owned0, v0 := recs, owned, docker.Now();
      r := LaunchSteps(id, d, plan);
      if r.LoadError? {
        if NameFreeIn(recs0, v0, id, plan.containerName) {
          ForgetAfterFailure(recs0, owned0, v0, id, plan.containerName, owned, docker.Now());
        }
      } else {
        InstallAfterSuccess(recs0, owned0, v0, id, plan.containerName, recs[id], docker.Now());
      }
    }

    /** LoadModel. An already running deployment answers at once; port exhaustion leaves
        (or keeps) a container-less record; any later failure forgets the record; success
        records exactly one fresh running container. Records and containers still agree if
        the plan's name was not that of another running deployment's container; after a
        completed launch, only then. */
    method LoadModel(id: DeploymentID, plan: Plan) returns (r: LoadOutcome)
      requires Valid()
      modifies this`deployments, this`recs, this`owned, docker, hostPorts, deployments.Values
      ensures Sound() && (old(NameFree(id, plan.containerName)) ==> Agreed())
      ensures r.Loaded? && !old(IsRunning(id)) ==> (Agreed() <==> old(NameFree(id, plan.containerName)))
      ensures LoadModelOutcome(id, plan, r, old(recs), old(docker.Now()), old(hostPorts.Now()),
                               recs, docker.Now(), hostPorts.Now())
      ensures OwnedGrew(old(owned), old(docker.Now()), owned, docker.Now())
      ensures forall k :: k in deployments ==> fresh(deployments[k]) || deployments[k] in old(deployments.Values)
      ensures LoadAnswer(old(IsRunning(id)), r, plan, old(hostPorts.Now()), plan.containerName in old(docker.names),
                         old(docker.failures), docker.failures)
      ensures docker.Later()
      ensures r.Loaded? && !old(IsRunning(id)) ==> Prepared(plan, recs[id].containerID, docker.done)
    {
      ghost var recs0 := recs;
      var d := OpenRecord(id);
      assert NameFree(id, plan.containerName) <==> old(NameFree(id, plan.containerName)) by {
        NameFreeUpTo(recs0, recs, docker.Now(), id, plan.containerName);
      }
      ghost var known := deployments;
      r := LoadRecord(id, d, plan, recs0);
      forall k | k in deployments ensures fresh(deployments[k]) || deployments[k] in old(deployments.Values) {
        assert k in known && deployments[k] == known[k];
        assert k in old(deployments) ==> known[k] in old(deployments.Values);
      }
    }

    /** The record of id, added without a container if there is none: still in agreement. */
    method OpenRecord(id: DeploymentID) returns (d: Record)
      requires Valid()
      modifies this`deployments, this`recs
      ensures Valid() && id in deployments && deployments[id] == d
      ensures id in old(deployments) ==> deployments == old(deployments) && recs == old(recs)
      ensures id !in old(deployments) ==>
                fresh(d) && deployments == old(deployments)[id := d] && recs == old(recs)[id := FRESH]
    {
      ghost var recs0 := recs;
      d := GetOrCreate(id);
      if id !in recs0 {
        AddFresh(recs0, docker.containers, owned, docker.Now().Troubled(), id);
      }
    }

    /** LoadModel once the record is there and locked; recs0 are the records before it
        was added. */
    method LoadRecord(id: DeploymentID, d: Record, plan: Plan, ghost recs0: Records) returns (r: LoadOutcome)
      requires Valid() && id in deployments && deployments[id] == d
      requires recs == if id in recs0 then recs0 else recs0[id := FRESH]
      modifies this`deployments, this`recs, this`owned, docker, hostPorts, deployments.Values
      ensures Sound() && (old(NameFree(id, plan.containerName)) ==> Agreed())
      ensures r.Loaded? && !old(IsRunning(id)) ==> (Agreed() <==> old(NameFree(id, plan.containerName)))
      ensures LoadModelOutcome(id, plan, r, recs0, old(docker.Now()), old(hostPorts.Now()),
                               recs, docker.Now(), hostPorts.Now())
      ensures OwnedGrew(old(owned), old(docker.Now()), owned, docker.Now())
      ensures deployments == old(deployments) || deployments == old(deployments) - {id}
      ensures LoadAnswer(old(IsRunning(id)), r, plan, old(hostPorts.Now()), plan.containerName in old(docker.names),
                         old(docker.failures), docker.failures)
      ensures docker.Later()
      ensures r.Loaded? && !old(IsRunning(id)) ==> Prepared(plan, recs[id].containerID, docker.done)
      ensures !old(IsRunning(id)) ==> ProgressEnds(r, old(d.prog), d.prog)
    {
      if d.state == Running && d.endpoint != NoEndpoint {
        return Loaded(d.endpoint);
      }
      var ok, port := ChoosePort(plan.hostPort);
      if !ok {
        return LoadError(PortStage);
      }
      ghost var recs1, v, pool0, pool := recs, docker.Now(), old(hostPorts.Now()), hostPorts.Now();
      r := Launch(id, d, plan.(hostPort := port));
      LaunchOutcome(id, plan, port, r, recs0, recs1, v, pool0, recs, docker.Now(), pool);
    }

    method StopAndRemove(cid: ContainerID) returns (ok: bool)
      requires docker.Valid() && cid in docker.nameOf
      modifies docker
      ensures docker.Valid() && docker.nameOf == old(docker.nameOf) && old(docker.removeFailed) <= docker.removeFailed
      ensures ok ==>
                && docker.containers == old(docker.containers) - {cid}
                && docker.Now().Troubled() == old(docker.Now().Troubled())
      ensures !ok ==>
                && docker.containers.Keys == old(docker.containers.Keys)
                && (forall c :: c in docker.containers && c != cid ==>
                      docker.containers[c] == old(docker.containers)[c])
                && docker.Now().Troubled() == old(docker.Now().Troubled()) + {cid}
                && (cid in docker.containers && docker.containers[cid] ==> cid in docker.stopFailed)
      ensures docker.Later() && (ok <==> docker.failures == old(docker.failures))
    {
      ok := docker.Stop(cid);
      if ok {
        ok := docker.Remove(cid);
      }
    }

    /** UnloadModel. Absent is fine; a refused Stop or Remove leaves the record Stopping
        with its container still attributed to it, anything else removes both. */
    method UnloadModel(id: DeploymentID) returns (ok: bool)
      requires Valid()
      modifies this`deployments, this`recs, docker, deployments.Values
      ensures Valid() && UnloadOutcome(id, ok, old(recs), old(docker.Now()), recs, docker.Now())
      ensures deployments == old(deployments) || deployments == old(deployments) - {id}
      ensures docker.Later() && (ok <==> docker.failures == old(docker.failures))
    {
      if id !in deployments {
        return true;
      }
      ok := UnloadRecord(id);
    }

    /** UnloadModel once the record is found and locked. */
    method UnloadRecord(id: DeploymentID) returns (ok: bool)
      requires Valid() && id in deployments
      modifies this`deployments, this`recs, docker, deployments.Values
      ensures Valid() && UnloadOutcome(id, ok, old(recs), old(docker.Now()), recs, docker.Now())
      ensures deployments == old(deployments) || deployments == old(deployments) - {id}
      ensures docker.Later() && (ok <==> docker.failures == old(docker.failures))
    {
      ghost var recs0, v := recs, docker.Now();
      var cid := deployments[id].containerID;
      SetState(id, Stopping);
      Patched(recs, recs0, id);
      if cid != 0 {
        ok := StopAndRemove(cid);
        if !ok {
          StopRecord(recs0, v.containers, owned, v.Troubled(), id, docker.containers, docker.Now().Troubled());
          return;
        }
      }
      Drop(id);
      ForgetUnloaded(recs0, v.containers, owned, v.Troubled(), id, docker.containers);
      return true;
    }

    method ChoosePort(wanted: int) returns (ok: bool, port: int)
      modifies hostPorts
      ensures ok ==> PortFor(wanted, old(hostPorts.Now()), hostPorts.Now(), port)
                     && FirstPort(wanted, old(hostPorts.Now()), port)
      ensures !ok ==> wanted == 0 && old(hostPorts.Now()).Exhausted() && hostPorts.Now() == old(hostPorts.Now())
    {
      if wanted != 0 {
        return true, wanted;
      }
      var p := hostPorts.Next();
      if p.Exhausted? {
        return false, 0;
      }
      return true, p.port;
    }
  }

  /** What UnloadModel did, from the situation before and after. */
  ghost predicate UnloadOutcome(id: DeploymentID, ok: bool, recs0: Records, v: View, recs: Records, w: View)
  {
    if id !in recs0 then ok && recs == recs0 && w == v
    else
      var cid := recs0[id].containerID;
      v.removeFailed <= w.removeFailed &&
      if ok then
        && recs == recs0 - {id} && w.nameOf == v.nameOf && w.Troubled() == v.Troubled()
        && w.containers == (if cid == 0 then v.containers else v.containers - {cid})
      else
        && cid != 0 && cid in w.Troubled() && v.Troubled() <= w.Troubled() && w.nameOf == v.nameOf
        && recs == recs0[id := recs0[id].(state := Stopping)]
        && w.containers.Keys == v.containers.Keys
        && (cid in w.containers && w.containers[cid] ==> cid in w.stopFailed)
        && (forall c :: c in v.containers && c != cid ==> w.containers[c] == v.containers[c])
  }

  lemma ForgetUnloaded(recs: Records, containers: map<ContainerID, bool>, owned: set<ContainerID>,
                       troubled: set<ContainerID>, id: DeploymentID, containers': map<ContainerID, bool>)
    requires Agrees(recs, containers, owned, troubled) && id in recs
    requires containers' == if recs[id].containerID == 0 then containers else containers - {recs[id].containerID}
    ensures Agrees(recs - {id}, containers', owned, troubled)
  {
    forall other | other in recs && other != id && recs[other].state == Running
      ensures recs[other].containerID in containers' && containers'[recs[other].containerID]
    {
      assert RecordOK(recs[other], containers, owned, troubled);
    }
    ForgetRecord(recs, containers, owned, troubled, id, containers', owned, troubled);
  }

  /** What LoadModel did, from the situation before and after. */
  ghost predicate LoadModelOutcome(id: DeploymentID, plan: Plan, r: LoadOutcome,
                                   recs0: Records, v: View, pool0: Pool, recs: Records, w: View, pool: Pool)
  {
    if id in recs0 && recs0[id].state == Running then
      r == Loaded(recs0[id].endpoint) && recs == recs0 && w == v && pool == pool0
    else
      match r
      case Loaded(endpoint) =>
        && id in recs && endpoint == Local(recs[id].hostPort)
        && PortFor(plan.hostPort, pool0, pool, recs[id].hostPort)
        && LoadedFrom(v, recs0, id, plan.(hostPort := recs[id].hostPort), recs, w)
      case LoadError(stage) =>
        if stage == PortStage then
          && plan.hostPort == 0 && w == v && pool == pool0
          && recs == (if id in recs0 then recs0 else recs0[id := FRESH])
        else
          && recs == recs0 - {id} && LoadFailedFrom(v, plan.containerName, w)
          && exists port :: PortFor(plan.hostPort, pool0, pool, port)
  }

  // ----- what a load answers, and why ---------------------------------------------------------

  /** Up to the created container: an answer names the step that failed. A Create that is not
      itself at fault fails only if the name's holder could not be cleared. */
  predicate CreateAnswer(ok: bool, stage: Stage, plan: Plan, taken: bool, f: Failures, f': Failures)
  {
    if ok then SpecOK(plan) && f' == f.(clears := f'.clears) && (taken ==> f' == f)
    else
      match stage
      case PullStage => f' == f.(pulls := f.pulls + 1)
      case SpecStage => f' == f && !SpecOK(plan)
      case CreateStage =>
        || f' == f.(creates := f.creates + 1, clears := f'.clears)
        || (taken && f' == f.(clears := f.clears + 1))
      case _ => false
  }

  predicate StartAnswer(ok: bool, f: Failures, f': Failures)
  {
    if ok then f' == f else f' == f.(starts := f.starts + 1, cleanups := f'.cleanups)
  }

  predicate ReadyAnswer(ok: bool, stage: Stage, ollamaModel: string, f: Failures, f': Failures)
  {
    if ok then f' == f
    else
      match stage
      case ReadyStage => f' == f.(probes := f.probes + 1, cleanups := f'.cleanups)
      case OllamaStage => ollamaModel != "" && f' == f.(modelPulls := f.modelPulls + 1, cleanups := f'.cleanups)
      case _ => false
  }

  /** The container has answered its probe and, if it was asked for a model, pulled it. */
  predicate Serving(ollamaModel: string, cid: ContainerID, d: Successes)
  {
    cid in d.probed && (ollamaModel != "" ==> cid in d.modelled)
  }

  /** What a load that reports success has done. */
  predicate Prepared(plan: Plan, cid: ContainerID, d: Successes)
  {
    plan.image in d.images && Serving(plan.ollamaModel, cid, d)
  }

  predicate RunAnswer(r: LoadOutcome, plan: Plan, f: Failures, f': Failures)
  {
    if r.LoadError? && r.stage == StartStage then StartAnswer(false, f, f')
    else ReadyAnswer(r.Loaded?, if r.LoadError? then r.stage else ReadyStage, plan.ollamaModel, f, f')
  }

  /** The answer of a load that has its port. */
  ghost predicate Answers(r: LoadOutcome, plan: Plan, taken: bool, f: Failures, f': Failures)
  {
    if r.LoadError? && r.stage in {PullStage, SpecStage, CreateStage}
    then CreateAnswer(false, r.stage, plan, taken, f, f')
    else exists g :: CreateAnswer(true, CreateStage, plan, taken, f, g) && RunAnswer(r, plan, g, f')
  }

  /** The answer of a load on a record that is not running. */
  ghost predicate AnswersPlan(r: LoadOutcome, plan: Plan, pool: Pool, taken: bool, f: Failures, f': Failures)
  {
    if r == LoadError(PortStage) then plan.hostPort == 0 && pool.Exhausted() && f' == f
    else exists port :: FirstPort(plan.hostPort, pool, port) && Answers(r, plan.(hostPort := port), taken, f, f')
  }

  /** The plan's own port, or the smallest free one. */
  predicate FirstPort(wanted: int, pool: Pool, port: int)
  {
    if wanted != 0 then port == wanted
    else pool.range.Has(port) && port !in pool.used && forall p :: pool.range.lo <= p < port ==> p in pool.used
  }

  ghost predicate LoadAnswer(running: bool, r: LoadOutcome, plan: Plan, pool: Pool, taken: bool, f: Failures,
                             f': Failures)
  {
    if running then r.Loaded? && f' == f else AnswersPlan(r, plan, pool, taken, f, f')
  }

  /** A load in which nothing failed succeeds, whatever held the plan's name, if the plan is
      well formed and there is a port. */
  lemma NothingFailedLoads(r: LoadOutcome, plan: Plan, pool: Pool, taken: bool, f: Failures)
    requires AnswersPlan(r, plan, pool, taken, f, f)
    ensures r.Loaded? <==>
              && plan.image != "" && plan.containerName != 0 && plan.containerPort > 0
              && exists port :: FirstPort(plan.hostPort, pool, port) && port > 0
  {
  }

  /** A failed load leaves its record's progress log ended: failed up to Start, handed over
      to the container after it. */
  ghost predicate ProgressEnds(r: LoadOutcome, p: Progress, p': Progress)
  {
    match r
    case LoadError(PortStage) => p' == p
    case LoadError(stage) =>
      if stage in {ReadyStage, OllamaStage} then exists cid :: p' == Latch(p, Started(cid))
      else p' == Latch(p, LoadFailed)
    case Loaded(_) => !p'.Open?
  }

  /** A launch on the record of id, present or just added, is a LoadModel outcome. */
  lemma LaunchOutcome(id: DeploymentID, plan: Plan, port: int, r: LoadOutcome,
                      recs0: Records, recs1: Records, v: View, pool0: Pool, recs: Records, w: View, pool: Pool)
    requires recs1 == if id in recs0 then recs0 else recs0[id := FRESH]
    requires !(id in recs0 && recs0[id].state == Running) && PortFor(plan.hostPort, pool0, pool, port)
    requires r.LoadError? ==>
               r.stage != PortStage && recs == recs1 - {id} && LoadFailedFrom(v, plan.containerName, w)
    requires r.Loaded? ==>
               r.endpoint == Local(port) && LoadedFrom(v, recs1, id, plan.(hostPort := port), recs, w)
    ensures LoadModelOutcome(id, plan, r, recs0, v, pool0, recs, w, pool)
  {
    assert recs1 - {id} == recs0 - {id};
  }

  /** The port a load uses: the plan's own, or a free one of the range that is marked as
      taken and never given back. */
  predicate PortFor(wanted: int, pool: Pool, pool': Pool, port: int)
  {
    if wanted != 0 then port == wanted && pool' == pool
    else pool.range.Has(port) && port !in pool.used && pool' == pool.(used := pool.used + {port})
  }

  /** No two records have the same host port, and all of them are taken from the pool. */
  ghost predicate SinglePorts(recs: Records, pool: Pool)
  {
    && (forall id :: id in recs && recs[id].hostPort != 0 ==>
          pool.range.Has(recs[id].hostPort) && recs[id].hostPort in pool.used)
    && (forall id, id' :: id in recs && id' in recs && id != id' && recs[id].hostPort != 0 ==>
          recs[id].hostPort != recs[id'].hostPort)
  }

  /** Loads of plans that name no port keep it so. */
  lemma SinglePortsAfterLoad(id: DeploymentID, plan: Plan, r: LoadOutcome,
                             recs0: Records, v: View, pool0: Pool, recs: Records, w: View, pool: Pool)
    requires LoadModelOutcome(id, plan, r, recs0, v, pool0, recs, w, pool)
    requires SinglePorts(recs0, pool0) && plan.hostPort == 0
    ensures SinglePorts(recs, pool)
  {
  }

  lemma SinglePortsAfterUnload(id: DeploymentID, ok: bool, recs0: Records, v: View, recs: Records, w: View, pool: Pool)
    requires UnloadOutcome(id, ok, recs0, v, recs, w) && SinglePorts(recs0, pool)
    ensures SinglePorts(recs, pool)
  {
  }

  ghost predicate OwnedGrew(owned: set<ContainerID>, v: View, owned': set<ContainerID>, w: View)
  {
    && owned <= owned' <= w.nameOf.Keys
    && forall c :: c in owned' && c in v.nameOf ==> c in owned
  }

  /** What a load may assume when it starts on the record of id. */
  ghost predicate CanLoad(recs: Records, owned: set<ContainerID>, v: View, id: DeploymentID)
  {
    && Agrees(recs, v.containers, owned, v.Troubled())
    && v.containers.Keys <= v.nameOf.Keys && owned <= v.nameOf.Keys
    && id in recs && recs[id].state != Running
  }

  ghost predicate SameElsewhere<K(!new), V>(m: map<K, V>, m0: map<K, V>, k: K)
  {
    forall j :: j != k ==> (j in m <==> j in m0) && (j in m ==> m[j] == m0[j])
  }

  lemma Patched<K(!new), V>(m: map<K, V>, m0: map<K, V>, k: K)
    requires SameElsewhere(m, m0, k) && k in m
    ensures m == m0[k := m[k]]
  {
  }

  lemma KeyOf<K, V>(m: map<K, V>, v: V) returns (k: K)
    requires v in m.Values
    ensures k in m && m[k] == v
  {
    k :| k in m && m[k] == v;
  }

  lemma CreatedThenRemoved(v: View, name: Name, cid: ContainerID, running: bool, w: View, x: View)
    requires v.containers.Keys <= v.nameOf.Keys
    requires CreatedFrom(v, name, cid, running, w) && TornDown(w, cid, x)
    ensures LoadFailedFrom(v, name, x)
  {
    TornDownElsewhere(w, cid, x);
  }

  /** The agreement after a failed load, from the step relation. */
  lemma ForgetAfterFailure(recs: Records, owned: set<ContainerID>, v: View, id: DeploymentID, name: Name,
                           owned': set<ContainerID>, w: View)
    requires CanLoad(recs, owned, v, id) && NameFreeIn(recs, v, id, name)
    requires owned <= owned' && 0 !in owned' && forall c :: c in owned' && c in v.nameOf ==> c in owned
    requires LoadFailedFrom(v, name, w)
    ensures Agrees(recs - {id}, w.containers, owned', w.Troubled())
  {
    assert RecordOK(recs[id], v.containers, owned, v.Troubled());
    ForgetRecord(recs, v.containers, owned, v.Troubled(), id, w.containers, owned', w.Troubled());
  }

  /** The agreement after a completed load, from the step relation: kept exactly when the
      name was not that of another running deployment's container. */
  lemma InstallAfterSuccess(recs: Records, owned: set<ContainerID>, v: View, id: DeploymentID, name: Name,
                            s: Snapshot, w: View)
    requires CanLoad(recs, owned, v, id)
    requires CreatedFrom(v, name, s.containerID, true, w)
    requires s.state == Running && s.endpoint == Local(s.hostPort)
    requires s.prog == Latch(recs[id].prog, Started(s.containerID))
    ensures Agrees(recs[id := s], w.containers, owned + {s.containerID}, w.Troubled())
       <==> NameFreeIn(recs, v, id, name)
  {
    assert RecordOK(recs[id], v.containers, owned, v.Troubled());
    if NameFreeIn(recs, v, id, name) {
      InstallRecord(recs, v.containers, owned, v.Troubled(), id, s, w.containers);
    } else {
      TakenNameBreaks(recs, owned, v, id, name, s, w);
    }
  }

  /** A completed load under the name of another running deployment's container has
      removed that container, and its record still says Running. */
  lemma TakenNameBreaks(recs: Records, owned: set<ContainerID>, v: View, id: DeploymentID, name: Name,
                        s: Snapshot, w: View)
    requires CanLoad(recs, owned, v, id) && !NameFreeIn(recs, v, id, name)
    requires CreatedFrom(v, name, s.containerID, true, w)
    ensures exists other :: other in recs && other != id && recs[other].state == Running
              && recs[other].containerID !in w.containers
    ensures !Agrees(recs[id := s], w.containers, owned + {s.containerID}, w.Troubled())
  {
    var other :| other in recs && other != id && recs[other].state == Running
                 && recs[other].containerID == v.names[name];
    assert RecordOK(recs[other], v.containers, owned, v.Troubled());
    var recs' := recs[id := s];
    assert recs'[other] == recs[other];
    assert !RecordOK(recs'[other], w.containers, owned + {s.containerID}, w.Troubled());
  }

  lemma CreatedThenStarted(v: View, name: Name, cid: ContainerID, w: View, x: View)
    requires CreatedFrom(v, name, cid, false, w) && x == w.(containers := w.containers[cid := true])
    ensures CreatedFrom(v, name, cid, true, x)
  {
    assert x == WithContainer(if name in v.names then Clear(v, name) else v, name, cid, true);
  }

  // ----- what the steps of a load do to Docker ------------------------------------------

  function Clear(v: View, name: Name): View
    requires name in v.names
  {
    v.(containers := v.containers - {v.names[name]}, names := v.names - {name})
  }

  /** Nothing, or the container holding the name was removed. */
  predicate ClearedFrom(v: View, name: Name, w: View)
  {
    w == v || (name in v.names && w == Clear(v, name))
  }

  function WithContainer(u: View, name: Name, cid: ContainerID, running: bool): View
  {
    u.(containers := u.containers[cid := running], names := u.names[name := cid], nameOf := u.nameOf[cid := name])
  }

  /** A fresh container was created under the name, whose holder, if any, is gone. */
  predicate CreatedFrom(v: View, name: Name, cid: ContainerID, running: bool, w: View)
  {
    && cid != 0 && cid !in v.nameOf
    && w == WithContainer(if name in v.names then Clear(v, name) else v, name, cid, running)
  }

  /** A failed load: any container that is new could not be removed, and any that is
      gone held the plan's name. */
  ghost predicate LoadFailedFrom(v: View, name: Name, w: View)
  {
    && v.stopFailed <= w.stopFailed && v.removeFailed <= w.removeFailed
    && (forall c :: c in v.nameOf ==> c in w.nameOf && w.nameOf[c] == v.nameOf[c])
    && (forall c :: c in w.nameOf && c !in v.nameOf ==> w.nameOf[c] == name)
    && (forall c :: c in w.containers && c !in v.containers ==>
          c !in v.nameOf && c in w.removeFailed && (w.containers[c] ==> c in w.stopFailed))
    && (forall c :: c in v.containers && !(name in v.names && v.names[name] == c) ==>
          c in w.containers && w.containers[c] == v.containers[c])
  }

  /** A completed load: the record of id points at one fresh running container created
      under the plan's name, and nothing else changed beyond clearing that name. */
  ghost predicate LoadedFrom(v: View, before: Records, id: DeploymentID, plan: Plan, after: Records, w: View)
  {
    && id in after && SpecOK(plan)
    && CreatedFrom(v, plan.containerName, after[id].containerID, true, w)
    && after == before[id := Snapshot(after[id].containerID, plan.hostPort, Local(plan.hostPort), Running,
                                      Latch(if id in before then before[id].prog else Open,
                                            Started(after[id].containerID)))]
  }

  lemma NameFreeUpTo(recs: Records, recs': Records, v: View, id: DeploymentID, name: Name)
    requires SameElsewhere(recs', recs, id)
    ensures NameFreeIn(recs, v, id, name) <==> NameFreeIn(recs', v, id, name)
  {
  }

  /** No other running deployment's container holds the name. */
  ghost predicate NameFreeIn(recs: Records, v: View, id: DeploymentID, name: Name)
  {
    name in v.names ==>
      forall other :: other in recs && other != id && recs[other].state == Running ==>
        recs[other].containerID != v.names[name]
  }
}
