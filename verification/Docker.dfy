/** The Docker engine as the worker sees it: named containers with fresh ids, where any
    call may fail and a failed call changes nothing. */
module DockerEngine {

  // Ids and names are only ever compared, so they are modelled as numbers; 0 stands
  // for the empty string.

  type ContainerID = int

  type Name = int

  /** The observable state together with the failure history. */
  datatype View = View(containers: map<ContainerID, bool>, names: map<Name, ContainerID>,
                       nameOf: map<ContainerID, Name>,
                       stopFailed: set<ContainerID>, removeFailed: set<ContainerID>)
  {
    function Troubled(): set<ContainerID> { stopFailed + removeFailed }
  }

  /** How many calls of each kind have failed. A Create refused for its name does not count;
      clears are removals by name, cleanups are Stops and Removes. */
  datatype Failures = Failures(pulls: nat, creates: nat, starts: nat, probes: nat, modelPulls: nat, clears: nat,
                               cleanups: nat)

  predicate Grew(f: Failures, f': Failures)
  {
    && f.pulls <= f'.pulls && f.creates <= f'.creates && f.starts <= f'.starts && f.probes <= f'.probes
    && f.modelPulls <= f'.modelPulls && f.clears <= f'.clears && f.cleanups <= f'.cleanups
  }

  /** All but the cleanups. */
  function BesidesCleanup(f: Failures): Failures { f.(cleanups := 0) }

  const NO_FAILURES := Failures(0, 0, 0, 0, 0, 0, 0)

  /** What has succeeded: images pulled, containers that answered their readiness probe, and
      those that pulled the model they were asked for. */
  datatype Successes = Successes(images: set<string>, probed: set<ContainerID>, modelled: set<ContainerID>)

  predicate Kept(d: Successes, d': Successes)
  {
    d.images <= d'.images && d.probed <= d'.probed && d.modelled <= d'.modelled
  }

  class Docker {
    /** Existing containers and whether each is running. */
    var containers: map<ContainerID, bool>
    /** Non-empty container names in use. */
    var names: map<Name, ContainerID>
    var nextID: nat
    /** Ids ever handed out, and the name each was created under. */
    ghost var nameOf: map<ContainerID, Name>
    /** Ids on which a Stop, respectively a Remove, has failed. */
    ghost var stopFailed: set<ContainerID>
    ghost var removeFailed: set<ContainerID>
    /** Failed calls so far, the probes of started containers included. */
    ghost var failures: Failures
    ghost var done: Successes

    /** Nothing recorded is forgotten. */
    twostate predicate Later()
      reads this
    {
      Grew(old(failures), failures) && Kept(old(done), done)
    }

    ghost predicate Valid()
      reads this
    {
      && containers.Keys <= nameOf.Keys
      && (forall id :: id in nameOf ==> 0 < id <= nextID)
      && (forall n :: n in names ==> n != 0 && names[n] in containers && nameOf[names[n]] == n)
      && (forall id :: id in containers && nameOf[id] != 0 ==> nameOf[id] in names && names[nameOf[id]] == id)
      && stopFailed <= nameOf.Keys && removeFailed <= nameOf.Keys
    }

    ghost function Now(): View
      reads this
    {
      View(containers, names, nameOf, stopFailed, removeFailed)
    }

    constructor ()
      ensures Valid() && containers == map[] && names == map[] && nameOf == map[]
      ensures stopFailed == {} && removeFailed == {} && failures == NO_FAILURES
    {
      containers, names, nextID, nameOf, stopFailed, removeFailed := map[], map[], 0, map[], {}, {};
      failures, done := NO_FAILURES, Successes({}, {}, {});
    }

    /** Pull, the probes and RemoveImage touch no container. */
    method Pull(image: string) returns (ok: bool)
      modifies this`failures, this`done
      ensures done == if ok then old(done).(images := old(done).images + {image}) else old(done)
      ensures failures == if ok then old(failures) else old(failures).(pulls := old(failures).pulls + 1)
    {
      ok := *;
      if !ok {
        failures := failures.(pulls := failures.pulls + 1);
      } else {
        done := done.(images := done.images + {image});
      }
    }

    /** waitReady. */
    method WaitReady(id: ContainerID) returns (ok: bool)
      modifies this`failures, this`done
      ensures done == if ok then old(done).(probed := old(done).probed + {id}) else old(done)
      ensures failures == if ok then old(failures) else old(failures).(probes := old(failures).probes + 1)
    {
      ok := *;
      if !ok {
        failures := failures.(probes := failures.probes + 1);
      } else {
        done := done.(probed := done.probed + {id});
      }
    }

    /** The pull a started ollama container is asked for. */
    method PullModel(id: ContainerID) returns (ok: bool)
      modifies this`failures, this`done
      ensures done == if ok then old(done).(modelled := old(done).modelled + {id}) else old(done)
      ensures failures == if ok then old(failures) else old(failures).(modelPulls := old(failures).modelPulls + 1)
    {
      ok := *;
      if !ok {
        failures := failures.(modelPulls := failures.modelPulls + 1);
      } else {
        done := done.(modelled := done.modelled + {id});
      }
    }

    method RemoveImage(image: string) returns (ok: bool) { ok := *; }

    method Create(name: Name) returns (ok: bool, id: ContainerID)
      requires Valid()
      modifies this`containers, this`names, this`nextID, this`nameOf, this`failures
      ensures Valid()
      ensures ok ==>
                && (name != 0 ==> name !in old(names))
                && id != 0 && id !in old(nameOf)
                && nameOf == old(nameOf)[id := name] && containers == old(containers)[id := false]
                && names == if name != 0 then old(names)[name := id] else old(names)
      ensures !ok ==> id == 0 && nameOf == old(nameOf) && containers == old(containers) && names == old(names)
      ensures failures == if ok || (name != 0 && name in old(names)) then old(failures)
                          else old(failures).(creates := old(failures).creates + 1)
    {
      if name != 0 && name in names {
        return false, 0;
      }
      ok := *;
      if !ok {
        failures := failures.(creates := failures.creates + 1);
        return false, 0;
      }
      nextID := nextID + 1;
      id := nextID;
      containers := containers[id := false];
      nameOf := nameOf[id := name];
      if name != 0 {
        names := names[name := id];
      }
    }

    method Start(id: ContainerID) returns (ok: bool)
      requires Valid()
      modifies this`containers, this`failures
      ensures Valid()
      ensures containers == if ok && id in old(containers) then old(containers)[id := true] else old(containers)
      ensures failures == if ok then old(failures) else old(failures).(starts := old(failures).starts + 1)
    {
      ok := *;
      if !ok {
        failures := failures.(starts := failures.starts + 1);
      } else if id in containers {
        containers := containers[id := true];
      }
    }

    method Stop(id: ContainerID) returns (ok: bool)
      requires Valid() && id in nameOf
      modifies this`containers, this`stopFailed, this`failures
      ensures Valid()
      ensures containers == if ok && id in old(containers) then old(containers)[id := false] else old(containers)
      ensures stopFailed == if ok then old(stopFailed) else old(stopFailed) + {id}
      ensures failures == if ok then old(failures) else old(failures).(cleanups := old(failures).cleanups + 1)
    {
      ok := *;
      if !ok {
        failures := failures.(cleanups := failures.cleanups + 1);
        stopFailed := stopFailed + {id};
      } else if id in containers {
        containers := containers[id := false];
      }
    }

    method Remove(id: ContainerID) returns (ok: bool)
      requires Valid() && id in nameOf
      modifies this`containers, this`names, this`removeFailed, this`failures
      ensures Valid()
      ensures containers == if ok then old(containers) - {id} else old(containers)
      ensures names == if ok then (map n | n in old(names) && old(names)[n] != id :: old(names)[n]) else old(names)
      ensures removeFailed == if ok then old(removeFailed) else old(removeFailed) + {id}
      ensures failures == if ok then old(failures) else old(failures).(cleanups := old(failures).cleanups + 1)
    {
      ok := *;
      if !ok {
        failures := failures.(cleanups := failures.cleanups + 1);
        removeFailed := removeFailed + {id};
      } else {
        containers := containers - {id};
        names := map n | n in names && names[n] != id :: names[n];
      }
    }

    /** A missing name is a successful no-op. */
    method RemoveByName(name: Name) returns (ok: bool)
      requires Valid()
      modifies this`containers, this`names, this`failures
      ensures Valid()
      ensures failures == if ok then old(failures) else old(failures).(clears := old(failures).clears + 1)
      ensures ok && name in old(names) ==>
                containers == old(containers) - {old(names)[name]} && names == old(names) - {name}
      ensures !(ok && name in old(names)) ==> containers == old(containers) && names == old(names)
    {
      ok := *;
      if !ok {
        failures := failures.(clears := failures.clears + 1);
      } else if name in names {
        containers := containers - {names[name]};
        names := names - {name};
      }
    }
  }

  /** Stopping and removing the container cid, whatever the outcome of either: what cannot
      be removed is stopped, unless that failed too. */
  predicate TornDown(v: View, cid: ContainerID, w: View)
  {
    && w.nameOf == v.nameOf
    && (cid in w.containers && w.containers[cid] ==> cid in w.stopFailed)
    && (w.stopFailed == v.stopFailed || w.stopFailed == v.stopFailed + {cid})
    && ((w.removeFailed == v.removeFailed && w.containers == v.containers - {cid})
        || (w.removeFailed == v.removeFailed + {cid} && w.containers - {cid} == v.containers - {cid}
            && (cid in w.containers <==> cid in v.containers)))
  }

  lemma TornDownElsewhere(v: View, cid: ContainerID, w: View)
    requires TornDown(v, cid, w)
    ensures forall c :: c != cid ==>
              (c in w.containers <==> c in v.containers) && (c in v.containers ==> w.containers[c] == v.containers[c])
    ensures cid in w.containers ==> cid in v.containers && cid in w.removeFailed
  {
    forall c | c != cid
      ensures (c in w.containers <==> c in v.containers) && (c in v.containers ==> w.containers[c] == v.containers[c])
    {
      assert c in w.containers - {cid} <==> c in v.containers - {cid};
      assert c in v.containers ==> (w.containers - {cid})[c] == (v.containers - {cid})[c];
    }
  }

  method StartOrRemove(docker: Docker, cid: ContainerID) returns (ok: bool)
    requires docker.Valid() && cid in docker.containers && !docker.containers[cid]
    modifies docker
    ensures docker.Valid()
    ensures ok ==> docker.Now() == old(docker.Now()).(containers := old(docker.containers)[cid := true])
    ensures !ok ==> TornDown(old(docker.Now()), cid, docker.Now())
    ensures ok ==> docker.failures == old(docker.failures)
    ensures !ok ==> docker.failures == old(docker.failures).(starts := old(docker.failures).starts + 1,
                                                             cleanups := docker.failures.cleanups)
    ensures docker.Later()
  {
    ok := docker.Start(cid);
    if !ok {
      var _ := docker.Remove(cid);
    }
  }

  /** Best-effort Stop and Remove. */
  method TearDown(docker: Docker, cid: ContainerID)
    requires docker.Valid() && cid in docker.nameOf
    modifies docker
    ensures docker.Valid() && TornDown(old(docker.Now()), cid, docker.Now())
    ensures docker.failures == old(docker.failures).(cleanups := docker.failures.cleanups)
    ensures docker.Later()
  {
    var _ := docker.Stop(cid);
    var _ := docker.Remove(cid);
  }
}
