/** When the worker's records and the Docker container set agree. */
module Agreement {
  import opened DockerEngine
  import opened Deployment

  datatype State = Absent | Pulling | Starting | Running | Stopping | Failed

  /** The terminal event of a deployment's progress log: the first one is kept. */
  datatype Progress = Open | Started(cid: ContainerID) | LoadFailed

  function Latch(p: Progress, event: Progress): Progress { if p.Open? then event else p }

  /** The fields of one deployment record. */
  datatype Snapshot = Snapshot(containerID: ContainerID, hostPort: int, endpoint: Endpoint, state: State,
                               prog: Progress)

  const FRESH := Snapshot(0, 0, NoEndpoint, Absent, Open)

  type Records = map<DeploymentID, Snapshot>

  /** A record between calls. Running: its own container exists and runs, its endpoint is
      known, and followers are handed off to that container unless an earlier one of this
      record could not be taken down. Absent: left by port exhaustion, no container.
      Stopping: an unload failed on its container. */
  predicate RecordOK(s: Snapshot, containers: map<ContainerID, bool>, owned: set<ContainerID>,
                     troubled: set<ContainerID>)
  {
    match s.state
    case Running =>
      && s.containerID != 0 && s.containerID in owned
      && s.containerID in containers && containers[s.containerID]
      && s.endpoint == Local(s.hostPort)
      && s.prog.Started? && (s.prog.cid == s.containerID || s.prog.cid in troubled)
    case Absent => s == FRESH
    case Stopping =>
      && s.containerID != 0 && s.containerID in owned && s.containerID in troubled
      && s.prog.Started? && s.prog.cid in troubled
    case _ => false
  }

  /** Records and containers agree: every record is at rest, no two share a container,
      and every container the worker created and that still exists is some record's,
      unless Docker refused to stop or remove it. */
  ghost predicate Agrees(recs: Records, containers: map<ContainerID, bool>, owned: set<ContainerID>,
                         troubled: set<ContainerID>)
  {
    && 0 !in owned
    && (forall id :: id in recs ==> RecordOK(recs[id], containers, owned, troubled))
    && (forall id, id' :: id in recs && id' in recs && id != id' && recs[id].containerID != 0 ==>
          recs[id].containerID != recs[id'].containerID)
    && (forall c :: c in owned && c in containers && c !in troubled ==>
          exists id :: id in recs && recs[id].containerID == c)
  }

  /** If no Stop or Remove ever failed: the worker's containers that exist are exactly
      those of the Running records, one each, all running. */
  lemma ExactWhenCleanupWorks(recs: Records, containers: map<ContainerID, bool>, owned: set<ContainerID>)
    requires Agrees(recs, containers, owned, {})
    ensures forall c :: c in owned && c in containers <==>
              exists id :: id in recs && recs[id].state == Running && recs[id].containerID == c
    ensures forall id :: id in recs && recs[id].state == Running ==>
              && containers[recs[id].containerID] && recs[id].endpoint != NoEndpoint
              && recs[id].prog == Started(recs[id].containerID)
    ensures forall id :: id in recs && recs[id].state != Running ==> recs[id] == FRESH
  {
    forall c | c in owned && c in containers
      ensures exists id :: id in recs && recs[id].state == Running && recs[id].containerID == c
    {
      var id :| id in recs && recs[id].containerID == c;
      assert recs[id].state == Running;
    }
  }

  // ----- what the worker's operations do to the agreement ----------------------------

  /** A failed load forgets its record. Containers other than the record's own may be
      gone only if they were nobody's, and may be new only if they cannot be removed. */
  lemma ForgetRecord(recs: Records, containers: map<ContainerID, bool>, owned: set<ContainerID>,
                     troubled: set<ContainerID>,
                     id: DeploymentID, containers': map<ContainerID, bool>, owned': set<ContainerID>,
                     troubled': set<ContainerID>)
    requires Agrees(recs, containers, owned, troubled)
    requires id in recs && recs[id].containerID != 0 ==>
               recs[id].containerID in troubled' || recs[id].containerID !in containers'
    requires 0 !in owned' && owned <= owned' && troubled <= troubled'
    requires forall other :: other in recs && other != id && recs[other].state == Running ==>
               recs[other].containerID in containers'
               && containers'[recs[other].containerID]
    requires forall c :: c in containers' && c in owned' ==> c in troubled' || (c in containers && c in owned)
    ensures Agrees(recs - {id}, containers', owned', troubled')
  {
    var recs' := recs - {id};
    forall c | c in owned' && c in containers' && c !in troubled'
      ensures exists k :: k in recs' && recs'[k].containerID == c
    {
      var k :| k in recs && recs[k].containerID == c;
      assert k in recs';
    }
  }

  /** A completed load replaces (or adds) its record; the new container is fresh. */
  lemma InstallRecord(recs: Records, containers: map<ContainerID, bool>, owned: set<ContainerID>,
                      troubled: set<ContainerID>,
                      id: DeploymentID, s: Snapshot, containers': map<ContainerID, bool>)
    requires Agrees(recs, containers, owned, troubled)
    requires id in recs && recs[id].containerID != 0 ==> recs[id].containerID in troubled
    requires s.state == Running && s.containerID != 0 && s.containerID !in owned
    requires RecordOK(s, containers', owned + {s.containerID}, troubled)
    requires forall other :: other in recs && other != id && recs[other].state == Running ==>
               recs[other].containerID in containers'
               && containers'[recs[other].containerID]
    requires forall c :: c in containers' && c in owned ==> c in containers
    ensures Agrees(recs[id := s], containers', owned + {s.containerID}, troubled)
  {
    var recs' := recs[id := s];
    forall c | c in owned + {s.containerID} && c in containers' && c !in troubled
      ensures exists k :: k in recs' && recs'[k].containerID == c
    {
      if c == s.containerID {
        assert recs'[id].containerID == c;
      } else {
        var k :| k in recs && recs[k].containerID == c;
        assert k in recs' && recs'[k] == recs[k];
      }
    }
  }

  /** A record added without a container, by a load that found no free port. */
  lemma AddFresh(recs: Records, containers: map<ContainerID, bool>, owned: set<ContainerID>,
                 troubled: set<ContainerID>, id: DeploymentID)
    requires Agrees(recs, containers, owned, troubled) && id !in recs
    ensures Agrees(recs[id := FRESH], containers, owned, troubled)
  {
    var recs' := recs[id := FRESH];
    forall c | c in owned && c in containers && c !in troubled
      ensures exists k :: k in recs' && recs'[k].containerID == c
    {
      var k :| k in recs && recs[k].containerID == c;
      assert recs'[k] == recs[k];
    }
  }

  /** A failed unload leaves its record Stopping, its container in Docker's hands. */
  lemma StopRecord(recs: Records, containers: map<ContainerID, bool>, owned: set<ContainerID>,
                   troubled: set<ContainerID>,
                   id: DeploymentID, containers': map<ContainerID, bool>, troubled': set<ContainerID>)
    requires Agrees(recs, containers, owned, troubled)
    requires id in recs && recs[id].containerID != 0 && recs[id].containerID in troubled'
    requires troubled <= troubled' && containers'.Keys == containers.Keys
    requires forall c :: c in containers && c != recs[id].containerID ==> containers'[c] == containers[c]
    ensures Agrees(recs[id := recs[id].(state := Stopping)], containers', owned, troubled')
  {
    var recs' := recs[id := recs[id].(state := Stopping)];
    forall c | c in owned && c in containers' && c !in troubled'
      ensures exists k :: k in recs' && recs'[k].containerID == c
    {
      var k :| k in recs && recs[k].containerID == c;
      assert recs'[k].containerID == c;
    }
  }
}
