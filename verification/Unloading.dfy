/** The dispatcher's UnloadModel: devices and runtime together. */
module Unloading {
  import opened GpuAllocation
  import opened DockerEngine
  import opened Deployment
  import opened Agreement
  import opened WorkerRuntime
  import W = Worker

  /** The deployment's devices go first, then its group, then its single container; key is
      how the runtime knows id. The group unload never fails, so success is reported whatever
      happens: when Docker refuses, the record stays Stopping on a container that may still be
      using the devices given back. */
  method UnloadModel(d: Dispatcher, w: W.Worker, id: string, key: DeploymentID, ghost owner: W.Naming,
                     ghost replaced: bool, ghost served: W.Served)
    returns (ok: bool, ghost refused: bool)
    requires d.Valid() && w.AtRest(owner) && w.Tracks(owner, replaced) && w.Shows(served)
    modifies d.allocator, w.docker, w.single, w.single.deployments.Values, w.table
    ensures ok && d.Valid() && w.AtRest(owner) && w.Tracks(owner, replaced)
    ensures d.allocator.held == old(d.allocator.held) - {id, id + "/prefill", id + "/decode"}
    ensures w.table.members == old(w.table.members) - {key}
    ensures !refused ==> w.single.recs == old(w.single.recs) - {key}
    ensures refused ==> key in old(w.single.recs) && Refused(old(w.single.recs), key, w.single.recs, w.docker.Now())
  {
    ok := true;
    d.ReleaseAll(id);
    refused := UnloadBoth(w, key, owner, replaced, served);
  }

  /** The two unloads of the runtime. */
  method UnloadBoth(w: W.Worker, key: DeploymentID, ghost owner: W.Naming, ghost replaced: bool,
                    ghost served: W.Served)
    returns (ghost refused: bool)
    requires w.AtRest(owner) && w.Tracks(owner, replaced) && w.Shows(served)
    modifies w.docker, w.single, w.single.deployments.Values, w.table
    ensures w.AtRest(owner) && w.Tracks(owner, replaced)
    ensures w.table.members == old(w.table.members) - {key}
    ensures !refused ==> w.single.recs == old(w.single.recs) - {key}
    ensures refused ==> key in old(w.single.recs) && Refused(old(w.single.recs), key, w.single.recs, w.docker.Now())
  {
    w.UnloadGroup(key, owner, replaced, served);
    ghost var recs, v, owned := w.single.recs, w.docker.Now(), w.single.owned;
    var unloaded := w.Unload(key, owner, replaced, served.(groups := served.groups - {key}));
    refused := !unloaded;
    UnloadedOrRefused(recs, v, owned, key, unloaded, w.single.recs, w.docker.Now());
  }

  /** Only key's record changed: it is Stopping on a container that a Stop or Remove failed
      on, and that exists if the deployment was running. */
  ghost predicate Refused(recs: Records, key: DeploymentID, recs': Records, v: View)
    requires key in recs
  {
    var cid := recs[key].containerID;
    && recs' == recs[key := recs[key].(state := Stopping)]
    && cid != 0 && cid in v.Troubled() && (recs[key].state == Running ==> cid in v.containers)
  }

  lemma UnloadedOrRefused(recs: Records, v: View, owned: set<ContainerID>, key: DeploymentID, ok: bool,
                          recs': Records, w: View)
    requires Agrees(recs, v.containers, owned, v.Troubled()) && UnloadOutcome(key, ok, recs, v, recs', w)
    ensures if ok then recs' == recs - {key} else key in recs && Refused(recs, key, recs', w)
  {
    if key in recs {
      assert RecordOK(recs[key], v.containers, owned, v.Troubled());
    } else {
      assert recs - {key} == recs;
    }
  }

  /** Any running deployment can be refused: its Stop fails. */
  lemma RunningCanBeRefused(recs: Records, v: View, owned: set<ContainerID>, key: DeploymentID)
    returns (recs': Records, w: View)
    requires Agrees(recs, v.containers, owned, v.Troubled()) && key in recs && recs[key].state == Running
    ensures UnloadOutcome(key, false, recs, v, recs', w) && Refused(recs, key, recs', w)
    ensures recs[key].containerID in w.containers && w.containers[recs[key].containerID]
  {
    assert RecordOK(recs[key], v.containers, owned, v.Troubled());
    recs' := recs[key := recs[key].(state := Stopping)];
    w := v.(stopFailed := v.stopFailed + {recs[key].containerID});
  }
}
