/** Whole runs of the worker: any sequence of non-overlapping commands. */
module Worker {
  import opened DockerEngine
  import opened Deployment
  import opened Agreement
  import opened WorkerRuntime
  import opened GroupRuntime
  import opened Options
  import opened Ports
  import opened Sums

  datatype Command =
    | Load(id: DeploymentID, plan: Plan)
    | Unload(id: DeploymentID)
    | LoadGroup(group: GroupPlan)
    | UnloadGroup(id: DeploymentID)

  /** Which deployment a container name belongs to, if any: a deployment may have several,
      one per recipe. */
  type Naming = Name -> Option<DeploymentID>

  /** A deployment's container is given one of its own names (or none, which the spec check
      rejects), and group replicas use none of them. LoadDeploymentGroup needs at least one
      prefill. */
  ghost predicate WellNamed(c: Command, owner: Naming)
  {
    match c
    case Load(id, plan) => plan.containerName == 0 || owner(plan.containerName) == Some(id)
    case LoadGroup(g) =>
      && |g.prefill| > 0
      && (forall k :: 0 <= k < |g.prefill| ==> owner(g.prefill[k].name) == None)
      && (forall k :: 0 <= k < |g.decode| ==> owner(g.decode[k].name) == None)
    case _ => true
  }

  /** Every container is named after its deployment; groups are up, pairwise disjoint,
      and share no container with the single path. */
  ghost predicate Coexist(recs: Records, owned: set<ContainerID>, members: map<DeploymentID, set<ContainerID>>,
                          v: View, owner: Naming)
  {
    && (forall id :: id in recs && recs[id].containerID != 0 ==>
          && recs[id].containerID in v.nameOf
          && owner(v.nameOf[recs[id].containerID]) == Some(id))
    && (forall g, c :: g in members && c in members[g] ==>
          && c in v.nameOf && c in v.containers && v.containers[c] && c !in owned && owner(v.nameOf[c]) == None)
    && (forall g, h, c :: g in members && h in members && g != h && c in members[g] ==> c !in members[h])
  }

  ghost predicate ClearOfGroups(v: View, members: map<DeploymentID, set<ContainerID>>, name: Name)
  {
    name in v.names ==> forall g :: g in members ==> v.names[name] !in members[g]
  }

  /** Good owner discharges LoadModel's demand on the name. */
  ghost predicate NamesHeld(v: View)
  {
    forall n :: n in v.names ==> n != 0 && v.names[n] != 0 && v.names[n] in v.nameOf && v.nameOf[v.names[n]] == n
  }

  lemma NamingFreesName(recs: Records, owned: set<ContainerID>, members: map<DeploymentID, set<ContainerID>>,
                        v: View, owner: Naming, id: DeploymentID, name: Name)
    requires Coexist(recs, owned, members, v, owner) && (name == 0 || owner(name) == Some(id))
    requires NamesHeld(v)
    ensures NameFreeIn(recs, v, id, name)
    ensures ClearOfGroups(v, members, name)
  {
  }

  /** What a load leaves alone: names once given, and containers not holding its name. */
  lemma LoadLeavesOthers(id: DeploymentID, plan: Plan, r: LoadOutcome, recs: Records, v: View, pool: Pool,
                         recs': Records, w: View, pool': Pool)
    requires WellFormed(v) && LoadModelOutcome(id, plan, r, recs, v, pool, recs', w, pool')
    ensures forall c :: c in v.nameOf ==> c in w.nameOf && w.nameOf[c] == v.nameOf[c]
    ensures forall c :: c in v.containers && !(plan.containerName in v.names && v.names[plan.containerName] == c) ==>
              c in w.containers && w.containers[c] == v.containers[c]
    ensures id in recs' && recs' != recs && recs'[id].containerID != 0 ==>
              && recs'[id].containerID in w.nameOf && recs'[id].containerID !in v.nameOf
              && w.nameOf[recs'[id].containerID] == plan.containerName
    ensures forall k :: k in recs' && k != id ==> k in recs && recs'[k] == recs[k]
  {
  }

  lemma CoexistAfterLoad(id: DeploymentID, plan: Plan, r: LoadOutcome, recs: Records, v: View, pool: Pool,
                         recs': Records, w: View, pool': Pool, owned: set<ContainerID>, owned': set<ContainerID>,
                         members: map<DeploymentID, set<ContainerID>>, owner: Naming)
    requires WellFormed(v) && LoadModelOutcome(id, plan, r, recs, v, pool, recs', w, pool')
    requires Coexist(recs, owned, members, v, owner)
    requires plan.containerName == 0 || owner(plan.containerName) == Some(id)
    requires ClearOfGroups(v, members, plan.containerName)
    requires forall c :: c in owned' && c in v.nameOf ==> c in owned
    ensures Coexist(recs', owned', members, w, owner)
  {
    LoadLeavesOthers(id, plan, r, recs, v, pool, recs', w, pool');
  }

  /** Every container of a recorded group exists and runs. */
  ghost predicate GroupsUp(members: map<DeploymentID, set<ContainerID>>, v: View)
  {
    forall g, c :: g in members && c in members[g] ==> c in v.containers && v.containers[c]
  }

  /** A completed launch leaves the groups up exactly when no group's container held the
      plan's name: a single deployment called "p-a-0" has the name of a's first prefill. */
  lemma GroupsSurviveIff(id: DeploymentID, plan: Plan, r: LoadOutcome, recs: Records, v: View, pool: Pool,
                         recs': Records, w: View, pool': Pool, members: map<DeploymentID, set<ContainerID>>)
    requires WellFormed(v) && LoadModelOutcome(id, plan, r, recs, v, pool, recs', w, pool')
    requires r.Loaded? && !(id in recs && recs[id].state == Running) && GroupsUp(members, v)
    ensures GroupsUp(members, w) <==> ClearOfGroups(v, members, plan.containerName)
  {
    LoadLeavesOthers(id, plan, r, recs, v, pool, recs', w, pool');
    var name := plan.containerName;
    if !ClearOfGroups(v, members, name) {
      var c := v.names[name];
      var g :| g in members && c in members[g];
      assert c in v.containers && c !in w.containers;
    }
  }

  lemma CoexistAfterUnload(id: DeploymentID, ok: bool, recs: Records, v: View, recs': Records, w: View,
                           owned: set<ContainerID>, members: map<DeploymentID, set<ContainerID>>,
                           owner: Naming)
    requires UnloadOutcome(id, ok, recs, v, recs', w)
    requires Coexist(recs, owned, members, v, owner)
    requires id in recs && recs[id].containerID != 0 ==> recs[id].containerID in owned
    ensures Coexist(recs', owned, members, w, owner)
  {
  }

  lemma CoexistAfterGroup(recs: Records, owned: set<ContainerID>, members: map<DeploymentID, set<ContainerID>>, v: View,
                          owner: Naming, id: DeploymentID, ids: set<ContainerID>, w: View)
    requires Coexist(recs, owned, members, v, owner) && owned <= v.nameOf.Keys
    requires Grown(v, ids, w)
    requires forall c :: c in ids ==> owner(w.nameOf[c]) == None
    ensures Coexist(recs, owned, members, w, owner)
    ensures Coexist(recs, owned, members[id := ids], w, owner)
  {
  }

  lemma CoexistAfterUngroup(recs: Records, owned: set<ContainerID>, members: map<DeploymentID, set<ContainerID>>,
                            v: View,
                            owner: Naming, id: DeploymentID, w: View)
    requires Coexist(recs, owned, members, v, owner) && id in members
    requires Unloaded(v, members[id], w) && w.nameOf == v.nameOf
    ensures Coexist(recs, owned, members - {id}, w, owner)
  {
  }

  /** Neither a group launch nor a group teardown disturbs the single path. */
  lemma AgreesAfterGroup(recs: Records, owned: set<ContainerID>, v: View, ids: set<ContainerID>, w: View)
    requires Agrees(recs, v.containers, owned, v.Troubled()) && owned <= v.nameOf.Keys && Grown(v, ids, w)
    ensures Agrees(recs, w.containers, owned, w.Troubled())
  {
  }

  lemma AgreesAfterUngroup(recs: Records, owned: set<ContainerID>, v: View, ids: set<ContainerID>, w: View)
    requires Agrees(recs, v.containers, owned, v.Troubled()) && Unloaded(v, ids, w) && ids !! owned
    ensures Agrees(recs, w.containers, owned, w.Troubled())
  {
  }

  // ----- whom the containers belong to ---------------------------------------------------

  /** Every container is one the single path created or a recorded group's. */
  ghost predicate Attributed(v: View, owned: set<ContainerID>, members: map<DeploymentID, set<ContainerID>>)
  {
    forall c :: c in v.containers ==> c in owned || exists g :: g in members && c in members[g]
  }

  /** A group container that no recorded group has. */
  ghost predicate IsOrphan(c: ContainerID, v: View, owned: set<ContainerID>,
                           members: map<DeploymentID, set<ContainerID>>, owner: Naming)
  {
    && c in v.containers && c in v.nameOf && owner(v.nameOf[c]) == None && c !in owned
    && (forall g :: g in members ==> c !in members[g])
  }

  /** Once a recorded group has been replaced there is an orphan; until then, and if no
      Remove has failed, every container is attributed. */
  ghost predicate Tracked(v: View, owned: set<ContainerID>, members: map<DeploymentID, set<ContainerID>>,
                          owner: Naming, replaced: bool)
  {
    && (forall g :: g in members ==> members[g] != {})
    && (if replaced then exists c :: IsOrphan(c, v, owned, members, owner)
        else v.removeFailed == {} ==> Attributed(v, owned, members))
  }

  lemma TrackedExactly(v: View, owned: set<ContainerID>, members: map<DeploymentID, set<ContainerID>>, owner: Naming,
                       replaced: bool)
    requires Tracked(v, owned, members, owner, replaced) && v.removeFailed == {}
    ensures Attributed(v, owned, members) <==> !replaced
  {
    if replaced {
      var c :| IsOrphan(c, v, owned, members, owner);
      assert c in v.containers;
    }
  }

  /** Containers of the single path come and go without touching group containers. */
  lemma TrackedAfterSingle(v: View, w: View, owned: set<ContainerID>, owned': set<ContainerID>,
                           members: map<DeploymentID, set<ContainerID>>, owner: Naming, replaced: bool)
    requires Tracked(v, owned, members, owner, replaced)
    requires owned <= owned' && v.removeFailed <= w.removeFailed
    requires forall c :: c in owned' && c in v.nameOf ==> c in owned
    requires forall c :: c in v.nameOf ==> c in w.nameOf && w.nameOf[c] == v.nameOf[c]
    requires forall c :: c in v.containers && c in v.nameOf && c !in owned && owner(v.nameOf[c]) == None ==>
               c in w.containers
    requires w.removeFailed == {} ==> forall c :: c in w.containers ==> c in v.containers || c in owned'
    ensures Tracked(w, owned', members, owner, replaced)
  {
    if replaced {
      var c :| IsOrphan(c, v, owned, members, owner);
      assert IsOrphan(c, w, owned', members, owner);
    }
  }

  lemma TrackedAfterLoad(id: DeploymentID, plan: Plan, r: LoadOutcome, recs: Records, v: View, pool: Pool,
                         recs': Records, w: View, pool': Pool, owned: set<ContainerID>, owned': set<ContainerID>,
                         members: map<DeploymentID, set<ContainerID>>, owner: Naming, replaced: bool)
    requires WellFormed(v) && NamesHeld(v) && LoadModelOutcome(id, plan, r, recs, v, pool, recs', w, pool')
    requires OwnedGrew(owned, v, owned', w)
    requires id in recs' && recs'[id].containerID != 0 ==> recs'[id].containerID in owned'
    requires plan.containerName == 0 || owner(plan.containerName) == Some(id)
    requires Tracked(v, owned, members, owner, replaced)
    ensures Tracked(w, owned', members, owner, replaced)
  {
    LoadLeavesOthers(id, plan, r, recs, v, pool, recs', w, pool');
    LoadAddsOwn(id, plan, r, recs, v, pool, recs', w, pool', owned');
    TrackedAfterSingle(v, w, owned, owned', members, owner, replaced);
  }

  /** The only new container of a load, unless one could not be removed, is its record's. */
  lemma LoadAddsOwn(id: DeploymentID, plan: Plan, r: LoadOutcome, recs: Records, v: View, pool: Pool,
                    recs': Records, w: View, pool': Pool, owned': set<ContainerID>)
    requires WellFormed(v) && LoadModelOutcome(id, plan, r, recs, v, pool, recs', w, pool')
    requires id in recs' && recs'[id].containerID != 0 ==> recs'[id].containerID in owned'
    ensures v.removeFailed <= w.removeFailed
    ensures w.removeFailed == {} ==> forall c :: c in w.containers ==> c in v.containers || c in owned'
  {
  }

  lemma TrackedAfterUnload(id: DeploymentID, ok: bool, recs: Records, v: View, recs': Records, w: View,
                           owned: set<ContainerID>, members: map<DeploymentID, set<ContainerID>>,
                           owner: Naming, replaced: bool)
    requires UnloadOutcome(id, ok, recs, v, recs', w) && Tracked(v, owned, members, owner, replaced)
    requires id in recs && recs[id].containerID != 0 ==> recs[id].containerID in owned
    ensures Tracked(w, owned, members, owner, replaced)
  {
    TrackedAfterSingle(v, w, owned, owned, members, owner, replaced);
  }

  lemma NoMembers(ids: set<ContainerID>)
    ensures (forall c :: c !in ids) ==> ids == {}
  {
    if forall c :: c !in ids {
      assert ids == {};
    }
  }

  /** A group launch: replacing a recorded group makes its containers orphans. */
  lemma TrackedAfterGroup(recs: Records, owned: set<ContainerID>, members: map<DeploymentID, set<ContainerID>>,
                          v: View, owner: Naming, id: DeploymentID, ids: set<ContainerID>, w: View, ok: bool,
                          replaced: bool)
    requires Coexist(recs, owned, members, v, owner) && owned <= v.nameOf.Keys && WellFormed(v)
    requires Grown(v, ids, w) && (ok <==> ids != {})
    requires Tracked(v, owned, members, owner, replaced)
    ensures Tracked(w, owned, if ok then members[id := ids] else members, owner, replaced || (ok && id in members))
  {
    var members' := if ok then members[id := ids] else members;
    if replaced {
      var c :| IsOrphan(c, v, owned, members, owner);
      assert IsOrphan(c, w, owned, members', owner);
    } else if ok && id in members {
      NoMembers(members[id]);
      var c :| c in members[id];
      assert IsOrphan(c, w, owned, members', owner);
    } else if w.removeFailed == {} {
      forall c | c in w.containers ensures c in owned || exists g :: g in members' && c in members'[g] {
        if c in v.containers && c !in owned {
          var g :| g in members && c in members[g];
          assert g in members' && c in members'[g];
        } else if c !in owned {
          assert c in ids && members'[id] == ids;
        }
      }
    }
  }

  /** All that a group launch keeps. */
  lemma AfterGroup(recs: Records, owned: set<ContainerID>, members: map<DeploymentID, set<ContainerID>>,
                   v: View, owner: Naming, id: DeploymentID, ids: set<ContainerID>, w: View,
                   members': map<DeploymentID, set<ContainerID>>, replaced: bool, replaced': bool)
    requires Agrees(recs, v.containers, owned, v.Troubled()) && owned <= v.nameOf.Keys && WellFormed(v)
    requires Coexist(recs, owned, members, v, owner) && Tracked(v, owned, members, owner, replaced)
    requires Grown(v, ids, w)
    requires forall c :: c in ids ==> owner(w.nameOf[c]) == None
    requires members' == if ids != {} then members[id := ids] else members
    requires replaced' <==> replaced || (ids != {} && id in members)
    ensures Agrees(recs, w.containers, owned, w.Troubled()) && owned <= w.nameOf.Keys
    ensures Coexist(recs, owned, members', w, owner) && Tracked(w, owned, members', owner, replaced')
  {
    CoexistAfterGroup(recs, owned, members, v, owner, id, ids, w);
    AgreesAfterGroup(recs, owned, v, ids, w);
    TrackedAfterGroup(recs, owned, members, v, owner, id, ids, w, ids != {}, replaced);
  }

  lemma TrackedAfterUngroup(recs: Records, owned: set<ContainerID>, members: map<DeploymentID, set<ContainerID>>,
                            v: View, owner: Naming, id: DeploymentID, w: View, replaced: bool)
    requires Coexist(recs, owned, members, v, owner) && id in members && 0 !in members[id]
    requires Unloaded(v, members[id], w) && w.nameOf == v.nameOf
    requires Tracked(v, owned, members, owner, replaced)
    ensures Tracked(w, owned, members - {id}, owner, replaced)
  {
    var members' := members - {id};
    if replaced {
      var c :| IsOrphan(c, v, owned, members, owner);
      assert IsOrphan(c, w, owned, members', owner);
    } else if w.removeFailed == {} {
      forall c | c in w.containers ensures c in owned || exists g :: g in members' && c in members'[g] {
        if c !in owned {
          var g :| g in members && c in members[g];
          assert g in members' && c in members'[g];
        }
      }
    }
  }

  /** LoadModel on a worker that also runs the groups `members`. */
  method LoadBesideGroups(single: Runtime, id: DeploymentID, plan: Plan,
                          ghost members: map<DeploymentID, set<ContainerID>>, ghost owner: Naming,
                          ghost replaced: bool)
    returns (r: LoadOutcome)
    requires single.Valid() && Coexist(single.recs, single.owned, members, single.docker.Now(), owner)
    requires plan.containerName == 0 || owner(plan.containerName) == Some(id)
    requires Tracked(single.docker.Now(), single.owned, members, owner, replaced)
    modifies single, single.docker, single.hostPorts, single.deployments.Values
    ensures single.Valid() && Coexist(single.recs, single.owned, members, single.docker.Now(), owner)
    ensures Tracked(single.docker.Now(), single.owned, members, owner, replaced)
    ensures forall k :: k in single.deployments ==>
              fresh(single.deployments[k]) || single.deployments[k] in old(single.deployments.Values)
    ensures plan.hostPort == 0 && old(SinglePorts(single.recs, single.hostPorts.Now())) ==>
              SinglePorts(single.recs, single.hostPorts.Now())
    ensures LoadModelOutcome(id, plan, r, old(single.recs), old(single.docker.Now()), old(single.hostPorts.Now()),
                             single.recs, single.docker.Now(), single.hostPorts.Now())
    ensures LoadAnswer(old(single.IsRunning(id)), r, plan, old(single.hostPorts.Now()),
                       plan.containerName in old(single.docker.names),
                       old(single.docker.failures), single.docker.failures)
    ensures single.docker.Later()
    ensures r.Loaded? && !old(single.IsRunning(id)) ==>
              Prepared(plan, single.recs[id].containerID, single.docker.done)
  {
    ghost var recs, v, pool, owned := single.recs, single.docker.Now(), single.hostPorts.Now(), single.owned;
    NamingFreesName(recs, owned, members, v, owner, id, plan.containerName);
    r := single.LoadModel(id, plan);
    ghost var recs', w, pool', owned' := single.recs, single.docker.Now(), single.hostPorts.Now(), single.owned;
    CoexistAfterLoad(id, plan, r, recs, v, pool, recs', w, pool', owned, owned', members, owner);
    RecordOwnsContainer(recs', w, owned', id);
    TrackedAfterLoad(id, plan, r, recs, v, pool, recs', w, pool', owned, owned', members, owner, replaced);
    if plan.hostPort == 0 && SinglePorts(recs, pool) {
      SinglePortsAfterLoad(id, plan, r, recs, v, pool, recs', w, pool');
    }
  }

  lemma RecordOwnsContainer(recs: Records, v: View, owned: set<ContainerID>, id: DeploymentID)
    requires Agrees(recs, v.containers, owned, v.Troubled())
    ensures id in recs && recs[id].containerID != 0 ==> recs[id].containerID in owned
  {
    if id in recs {
      assert RecordOK(recs[id], v.containers, owned, v.Troubled());
    }
  }

  /** UnloadModel on a worker that also runs the groups `members`. */
  method UnloadBesideGroups(single: Runtime, id: DeploymentID,
                            ghost members: map<DeploymentID, set<ContainerID>>, ghost owner: Naming,
                            ghost replaced: bool)
    returns (ok: bool)
    requires single.Valid() && Coexist(single.recs, single.owned, members, single.docker.Now(), owner)
    requires Tracked(single.docker.Now(), single.owned, members, owner, replaced)
    modifies single, single.docker, single.deployments.Values
    ensures single.Valid() && Coexist(single.recs, single.owned, members, single.docker.Now(), owner)
    ensures Tracked(single.docker.Now(), single.owned, members, owner, replaced)
    ensures UnloadOutcome(id, ok, old(single.recs), old(single.docker.Now()), single.recs, single.docker.Now())
    ensures forall k :: k in single.deployments ==> single.deployments[k] in old(single.deployments.Values)
    ensures old(SinglePorts(single.recs, single.hostPorts.Now())) ==> SinglePorts(single.recs, single.hostPorts.Now())
    ensures single.docker.Later()
    ensures ok <==> single.docker.failures == old(single.docker.failures)
  {
    ghost var recs, v, owned := single.recs, single.docker.Now(), single.owned;
    RecordOwnsContainer(recs, v, owned, id);
    ok := single.UnloadModel(id);
    ghost var recs', w := single.recs, single.docker.Now();
    CoexistAfterUnload(id, ok, recs, v, recs', w, owned, members, owner);
    TrackedAfterUnload(id, ok, recs, v, recs', w, owned, members, owner, replaced);
    if SinglePorts(recs, single.hostPorts.Now()) {
      SinglePortsAfterUnload(id, ok, recs, v, recs', w, single.hostPorts.Now());
    }
  }

  /** LoadDeploymentGroup on a worker that also runs single deployments. */
  method LaunchBesideSingle(table: GroupTable, plan: GroupPlan, ghost recs: Records, ghost owned: set<ContainerID>,
                            ghost owner: Naming, ghost replaced: bool) returns (ok: bool)
    requires table.Valid() && WellNamed(LoadGroup(plan), owner) && owned <= table.docker.nameOf.Keys
    requires Agrees(recs, table.docker.containers, owned, table.docker.Now().Troubled())
    requires Coexist(recs, owned, table.members, table.docker.Now(), owner)
    requires Tracked(table.docker.Now(), owned, table.members, owner, replaced)
    modifies table.docker, table, table.prefillPorts, table.decodePorts
    ensures table.Valid() && owned <= table.docker.nameOf.Keys
    ensures Agrees(recs, table.docker.containers, owned, table.docker.Now().Troubled())
    ensures Coexist(recs, owned, table.members, table.docker.Now(), owner)
    ensures Tracked(table.docker.Now(), owned, table.members, owner, replaced || (ok && plan.id in old(table.members)))
    ensures GroupLoaded(plan, ok, old(table.members), old(table.docker.nameOf), table.members, table.docker.nameOf,
                        table.docker.done)
    ensures GroupAnswer(ok, plan, old(table.docker.names.Keys), old(table.prefillPorts.Now()),
                        old(table.decodePorts.Now()), old(table.docker.failures), table.docker.failures)
    ensures table.docker.Later()
    ensures Uses(plan, old(table.docker.nameOf), table.docker.nameOf, old(table.prefillPorts.used),
                 table.prefillPorts.used, old(table.decodePorts.used), table.decodePorts.used)
    ensures forall k :: k in table.groups ==> table.groups[k] in old(table.groups.Values) || fresh(table.groups[k])
  {
    ghost var members, v := table.members, table.docker.Now();
    ghost var ids;
    ok, ids := LaunchUnnamed(table, plan, owner);
    AfterGroup(recs, owned, members, v, owner, plan.id, ids, table.docker.Now(), table.members,
               replaced, replaced || (ok && plan.id in members));
  }

  /** What the launch of a group whose replicas use no deployment's name adds. */
  method LaunchUnnamed(table: GroupTable, plan: GroupPlan, ghost owner: Naming)
    returns (ok: bool, ghost ids: set<ContainerID>)
    requires table.Valid() && WellNamed(LoadGroup(plan), owner)
    modifies table.docker, table, table.prefillPorts, table.decodePorts
    ensures table.Valid() && Grown(old(table.docker.Now()), ids, table.docker.Now()) && (ok <==> ids != {})
    ensures forall c :: c in ids ==> owner(table.docker.nameOf[c]) == None
    ensures table.members == if ids != {} then old(table.members)[plan.id := ids] else old(table.members)
    ensures ok ==> NamesUnder(ids, table.docker.nameOf) == NamesOf(plan.prefill) + NamesOf(plan.decode)
    ensures ids <= table.docker.done.probed
    ensures GroupAnswer(ok, plan, old(table.docker.names.Keys), old(table.prefillPorts.Now()),
                        old(table.decodePorts.Now()), old(table.docker.failures), table.docker.failures)
    ensures table.docker.Later()
    ensures Uses(plan, old(table.docker.nameOf), table.docker.nameOf, old(table.prefillPorts.used),
                 table.prefillPorts.used, old(table.decodePorts.used), table.decodePorts.used)
    ensures forall k :: k in table.groups ==> table.groups[k] in old(table.groups.Values) || fresh(table.groups[k])
  {
    ghost var groups, v := table.groups, table.docker.Now();
    var group;
    ok, group := table.LoadDeploymentGroup(plan);
    ids := {};
    if ok {
      ids := IdsOf(group.prefill[..]) + IdsOf(group.decode[..]);
      LaunchedNames(plan, group.prefill[..], group.decode[..], v, table.docker.Now(), owner);
      ReplicaNames(plan, group.prefill[..], group.decode[..], v, table.docker.Now());
      InPrefix(group.prefill[..], 0);
    }
  }

  /** UnloadDeploymentGroup on a worker that also runs single deployments. */
  method UngroupBesideSingle(table: GroupTable, id: DeploymentID, ghost recs: Records, ghost owned: set<ContainerID>,
                             ghost owner: Naming, ghost replaced: bool)
    requires table.Valid() && owned <= table.docker.nameOf.Keys
    requires Agrees(recs, table.docker.containers, owned, table.docker.Now().Troubled())
    requires Coexist(recs, owned, table.members, table.docker.Now(), owner)
    requires Tracked(table.docker.Now(), owned, table.members, owner, replaced)
    modifies table.docker, table
    ensures table.Valid() && owned <= table.docker.nameOf.Keys
    ensures Agrees(recs, table.docker.containers, owned, table.docker.Now().Troubled())
    ensures Coexist(recs, owned, table.members, table.docker.Now(), owner)
    ensures Tracked(table.docker.Now(), owned, table.members, owner, replaced)
    ensures table.groups == old(table.groups) - {id} && table.members == old(table.members) - {id}
    ensures table.docker.nameOf == old(table.docker.nameOf)
    ensures table.docker.Later()
  {
    ghost var members, v := table.members, table.docker.Now();
    table.UnloadDeploymentGroup(id);
    if id in members {
      CoexistAfterUngroup(recs, owned, members, v, owner, id, table.docker.Now());
      AgreesAfterUngroup(recs, owned, v, members[id], table.docker.Now());
      TrackedAfterUngroup(recs, owned, members, v, owner, id, table.docker.Now(), replaced);
    } else {
      assert members - {id} == members;
    }
  }

  // ----- what the answers promise ---------------------------------------------------------

  function NamesUnder(ids: set<ContainerID>, nameOf: map<ContainerID, Name>): set<Name>
  {
    set c | c in ids && c in nameOf :: nameOf[c]
  }

  /** A group load adds probed containers named as the plan says, or changes no group. */
  predicate GroupLoaded(plan: GroupPlan, ok: bool, members: map<DeploymentID, set<ContainerID>>,
                        nameOf: map<ContainerID, Name>, members': map<DeploymentID, set<ContainerID>>,
                        nameOf': map<ContainerID, Name>, d: Successes)
  {
    && (forall c :: c in nameOf ==> c in nameOf' && nameOf'[c] == nameOf[c])
    && if ok
       then && plan.id in members' && members' == members[plan.id := members'[plan.id]]
            && NamesUnder(members'[plan.id], nameOf') == NamesOf(plan.prefill) + NamesOf(plan.decode)
            && members'[plan.id] <= d.probed
       else members' == members
  }

  /** The single deployments and the groups that are up, each with the plan it was launched
      with. */
  datatype Served = Served(running: map<DeploymentID, Plan>, groups: map<DeploymentID, GroupPlan>)

  /** What is up after a command whose caller was told ok. A load of a running deployment
      changes nothing. */
  function NextServed(s: Served, command: Command, ok: bool): Served
  {
    match command
    case Load(id, plan) => if ok && id !in s.running then s.(running := s.running[id := plan]) else s
    case Unload(id) => s.(running := s.running - {id})
    case LoadGroup(g) => if ok then s.(groups := s.groups[g.id := g]) else s
    case UnloadGroup(id) => s.(groups := s.groups - {id})
  }

  /** The records that are Running are those of the running deployments, with a container
      under the plan's name on the plan's port that was prepared as the plan asks. */
  ghost predicate RunsAs(recs: Records, nameOf: map<ContainerID, Name>, d: Successes, running: map<DeploymentID, Plan>)
  {
    && (forall id :: id in running <==> id in recs && recs[id].state == Running)
    && (forall id :: id in running ==>
          && recs[id].containerID in nameOf && nameOf[recs[id].containerID] == running[id].containerName
          && (running[id].hostPort != 0 ==> recs[id].hostPort == running[id].hostPort)
          && recs[id].endpoint == Local(recs[id].hostPort) && Prepared(running[id], recs[id].containerID, d))
  }

  ghost predicate GroupedAs(members: map<DeploymentID, set<ContainerID>>, nameOf: map<ContainerID, Name>, d: Successes,
                            groups: map<DeploymentID, GroupPlan>)
  {
    && members.Keys == groups.Keys
    && (forall g :: g in members ==>
          && members[g] <= nameOf.Keys && members[g] <= d.probed
          && NamesUnder(members[g], nameOf) == NamesOf(groups[g].prefill) + NamesOf(groups[g].decode))
  }

  lemma RunsAfterLoad(id: DeploymentID, plan: Plan, r: LoadOutcome, recs: Records, v: View, pool: Pool,
                      recs': Records, w: View, pool': Pool, served: Served, d: Successes, d': Successes)
    requires WellFormed(v) && LoadModelOutcome(id, plan, r, recs, v, pool, recs', w, pool') && Kept(d, d')
    requires RunsAs(recs, v.nameOf, d, served.running)
    requires r.Loaded? && !(id in recs && recs[id].state == Running) ==> Prepared(plan, recs'[id].containerID, d')
    ensures RunsAs(recs', w.nameOf, d', NextServed(served, Load(id, plan), r.Loaded?).running)
    ensures r.Loaded? ==> id in recs' && recs'[id].state == Running && recs'[id].endpoint == r.endpoint
  {
    LoadLeavesOthers(id, plan, r, recs, v, pool, recs', w, pool');
  }

  lemma OneMorePort(id: DeploymentID, plan: Plan, r: LoadOutcome, recs: Records, v: View, pool: Pool,
                    recs': Records, w: View, pool': Pool)
    requires LoadModelOutcome(id, plan, r, recs, v, pool, recs', w, pool')
    ensures |pool'.used| <= |pool.used| + 1
  {
  }

  lemma LoadAddsName(id: DeploymentID, plan: Plan, r: LoadOutcome, recs: Records, v: View, pool: Pool,
                     recs': Records, w: View, pool': Pool)
    requires LoadModelOutcome(id, plan, r, recs, v, pool, recs', w, pool')
    ensures NamesAdded(v.nameOf, w.nameOf, {plan.containerName})
  {
  }

  lemma LoadServes(id: DeploymentID, plan: Plan, r: LoadOutcome, recs: Records, v: View, pool: Pool,
                   recs': Records, w: View, pool': Pool, members: map<DeploymentID, set<ContainerID>>, served: Served,
                   d: Successes, d': Successes)
    requires WellFormed(v) && LoadModelOutcome(id, plan, r, recs, v, pool, recs', w, pool') && Kept(d, d')
    requires RunsAs(recs, v.nameOf, d, served.running) && GroupedAs(members, v.nameOf, d, served.groups)
    requires r.Loaded? && !(id in recs && recs[id].state == Running) ==> Prepared(plan, recs'[id].containerID, d')
    ensures RunsAs(recs', w.nameOf, d', NextServed(served, Load(id, plan), r.Loaded?).running)
    ensures NamesAdded(v.nameOf, w.nameOf, {plan.containerName})
    ensures GroupedAs(members, w.nameOf, d', served.groups) && |pool'.used| <= |pool.used| + 1
    ensures r.Loaded? ==> id in recs' && recs'[id].state == Running && recs'[id].endpoint == r.endpoint
  {
    RunsAfterLoad(id, plan, r, recs, v, pool, recs', w, pool', served, d, d');
    LoadLeavesOthers(id, plan, r, recs, v, pool, recs', w, pool');
    StaysGrouped(members, v.nameOf, served.groups, w.nameOf, d, d');
    OneMorePort(id, plan, r, recs, v, pool, recs', w, pool');
    LoadAddsName(id, plan, r, recs, v, pool, recs', w, pool');
  }

  lemma RunsAfterUnload(id: DeploymentID, ok: bool, recs: Records, v: View, recs': Records, w: View, served: Served,
                        d: Successes, d': Successes)
    requires UnloadOutcome(id, ok, recs, v, recs', w) && RunsAs(recs, v.nameOf, d, served.running) && Kept(d, d')
    ensures RunsAs(recs', w.nameOf, d', NextServed(served, Unload(id), ok).running)
  {
  }

  lemma NamesKeptUnder(ids: set<ContainerID>, nameOf: map<ContainerID, Name>, nameOf': map<ContainerID, Name>)
    requires ids <= nameOf.Keys && forall c :: c in nameOf ==> c in nameOf' && nameOf'[c] == nameOf[c]
    ensures NamesUnder(ids, nameOf') == NamesUnder(ids, nameOf)
  {
  }

  lemma StaysGrouped(members: map<DeploymentID, set<ContainerID>>, nameOf: map<ContainerID, Name>,
                     groups: map<DeploymentID, GroupPlan>, nameOf': map<ContainerID, Name>, d: Successes, d': Successes)
    requires GroupedAs(members, nameOf, d, groups) && Kept(d, d')
    requires forall c :: c in nameOf ==> c in nameOf' && nameOf'[c] == nameOf[c]
    ensures GroupedAs(members, nameOf', d', groups)
  {
    forall g | g in members
      ensures members[g] <= nameOf'.Keys && members[g] <= d'.probed
      ensures NamesUnder(members[g], nameOf') == NamesOf(groups[g].prefill) + NamesOf(groups[g].decode)
    {
      NamesKeptUnder(members[g], nameOf, nameOf');
    }
  }

  lemma StaysRunning(recs: Records, nameOf: map<ContainerID, Name>, running: map<DeploymentID, Plan>,
                     nameOf': map<ContainerID, Name>, d: Successes, d': Successes)
    requires RunsAs(recs, nameOf, d, running) && Kept(d, d')
    requires forall c :: c in nameOf ==> c in nameOf' && nameOf'[c] == nameOf[c]
    ensures RunsAs(recs, nameOf', d', running)
  {
  }

  lemma GroupedAfterGroup(plan: GroupPlan, ok: bool, members: map<DeploymentID, set<ContainerID>>,
                          nameOf: map<ContainerID, Name>, members': map<DeploymentID, set<ContainerID>>,
                          nameOf': map<ContainerID, Name>, served: Served, d: Successes, d': Successes)
    requires GroupLoaded(plan, ok, members, nameOf, members', nameOf', d') && Kept(d, d')
    requires GroupedAs(members, nameOf, d, served.groups)
    requires ok ==> members'[plan.id] <= nameOf'.Keys
    ensures GroupedAs(members', nameOf', d', NextServed(served, LoadGroup(plan), ok).groups)
  {
    StaysGrouped(members, nameOf, served.groups, nameOf', d, d');
  }

  /** The group table beside the single path, with its books in order. */
  ghost predicate Beside(single: Runtime, table: GroupTable)
    reads table, table.prefillPorts, table.decodePorts, table.groups.Values,
          (set g | g in table.groups.Values :: g.prefill), (set g | g in table.groups.Values :: g.decode)
  {
    && single.hostPorts != table.prefillPorts && single.hostPorts != table.decodePorts
    && table.Recorded() && table.PortsValid()
  }

  /** The single path on a worker whose groups are `members`. */
  ghost predicate SingleReady(single: Runtime, members: map<DeploymentID, set<ContainerID>>, owner: Naming,
                              replaced: bool, served: Served)
    reads single, single.docker, single.deployments.Values
  {
    && single.Valid() && Coexist(single.recs, single.owned, members, single.docker.Now(), owner)
    && Tracked(single.docker.Now(), single.owned, members, owner, replaced)
    && RunsAs(single.recs, single.docker.nameOf, single.docker.done, served.running)
    && GroupedAs(members, single.docker.nameOf, single.docker.done, served.groups)
  }

  /** What a load keeps and what its answer promises. */
  twostate predicate LoadServed(single: Runtime, id: DeploymentID, plan: Plan, r: LoadOutcome,
                                members: map<DeploymentID, set<ContainerID>>, owner: Naming, replaced: bool,
                                served: Served)
    reads single, single.docker, single.hostPorts, single.deployments.Values
  {
    && SingleReady(single, members, owner, replaced, NextServed(served, Load(id, plan), r.Loaded?))
    && (r.Loaded? ==>
          id in single.recs && single.recs[id].state == Running && single.recs[id].endpoint == r.endpoint)
    && (forall d :: d in single.deployments.Values ==> d in old(single.deployments.Values) || fresh(d))
    && (plan.hostPort == 0 && old(SinglePorts(single.recs, single.hostPorts.Now())) ==>
          SinglePorts(single.recs, single.hostPorts.Now()))
    && single.docker.Later() && NamesAdded(old(single.docker.nameOf), single.docker.nameOf, {plan.containerName})
    && |single.hostPorts.used| <= |old(single.hostPorts.used)| + 1
    && LoadAnswer(old(single.IsRunning(id)), r, plan, old(single.hostPorts.Now()),
                  plan.containerName in old(single.docker.names), old(single.docker.failures), single.docker.failures)
    && (single.docker.failures == old(single.docker.failures) && CertainLoad(plan, old(single.hostPorts.Now())) ==>
          r.Loaded?)
  }

  method LoadServing(single: Runtime, id: DeploymentID, plan: Plan,
                     ghost members: map<DeploymentID, set<ContainerID>>, ghost owner: Naming, ghost replaced: bool,
                     ghost served: Served) returns (r: LoadOutcome)
    requires SingleReady(single, members, owner, replaced, served)
    requires plan.containerName == 0 || owner(plan.containerName) == Some(id)
    modifies single, single.docker, single.hostPorts, single.deployments.Values
    ensures LoadServed(single, id, plan, r, members, owner, replaced, served)
  {
    ghost var recs, v, pool, d := single.recs, single.docker.Now(), single.hostPorts.Now(), single.docker.done;
    ghost var running, f := single.IsRunning(id), single.docker.failures;
    r := LoadBesideGroups(single, id, plan, members, owner, replaced);
    ghost var recs', w, pool' := single.recs, single.docker.Now(), single.hostPorts.Now();
    CertainLoads(plan, r, running, pool, plan.containerName in v.names, f, single.docker.failures);
    LoadServes(id, plan, r, recs, v, pool, recs', w, pool', members, served, d, single.docker.done);
    forall e | e in single.deployments.Values ensures e in old(single.deployments.Values) || fresh(e) {
      var k := KeyOf(single.deployments, e);
    }
  }

  /** The group table is left alone. */
  method LoadApart(single: Runtime, id: DeploymentID, plan: Plan, ghost table: GroupTable,
                   ghost members: map<DeploymentID, set<ContainerID>>, ghost owner: Naming, ghost replaced: bool,
                   ghost served: Served) returns (r: LoadOutcome)
    requires Beside(single, table) && SingleReady(single, members, owner, replaced, served)
    requires plan.containerName == 0 || owner(plan.containerName) == Some(id)
    modifies single, single.docker, single.hostPorts, single.deployments.Values
    ensures Beside(single, table) && LoadServed(single, id, plan, r, members, owner, replaced, served)
    ensures table.prefillPorts.used == old(table.prefillPorts.used)
    ensures table.decodePorts.used == old(table.decodePorts.used)
  {
    r := LoadServing(single, id, plan, members, owner, replaced, served);
    assert table.Recorded() && table.PortsValid();
  }

  method UnloadServing(single: Runtime, id: DeploymentID, ghost table: GroupTable,
                       ghost members: map<DeploymentID, set<ContainerID>>, ghost owner: Naming, ghost replaced: bool,
                       ghost served: Served) returns (ok: bool)
    requires Beside(single, table)
    requires single.Valid() && Coexist(single.recs, single.owned, members, single.docker.Now(), owner)
    requires Tracked(single.docker.Now(), single.owned, members, owner, replaced)
    requires RunsAs(single.recs, single.docker.nameOf, single.docker.done, served.running)
    modifies single, single.docker, single.deployments.Values
    ensures Beside(single, table)
    ensures single.Valid() && Coexist(single.recs, single.owned, members, single.docker.Now(), owner)
    ensures Tracked(single.docker.Now(), single.owned, members, owner, replaced)
    ensures RunsAs(single.recs, single.docker.nameOf, single.docker.done, NextServed(served, Unload(id), ok).running)
    ensures UnloadOutcome(id, ok, old(single.recs), old(single.docker.Now()), single.recs, single.docker.Now())
    ensures forall k :: k in single.deployments ==> single.deployments[k] in old(single.deployments.Values)
    ensures old(SinglePorts(single.recs, single.hostPorts.Now())) ==> SinglePorts(single.recs, single.hostPorts.Now())
    ensures single.docker.Later()
    ensures ok <==> single.docker.failures == old(single.docker.failures)
  {
    ghost var recs, v, d := single.recs, single.docker.Now(), single.docker.done;
    ok := UnloadBesideGroups(single, id, members, owner, replaced);
    RunsAfterUnload(id, ok, recs, v, single.recs, single.docker.Now(), served, d, single.docker.done);
    assert table.Recorded() && table.PortsValid();
  }

  /** The three port ranges a worker is configured with. */
  datatype Ranges = Ranges(single: Range, prefill: Range, decode: Range)

  class Worker {
    const docker: Docker
    const single: Runtime
    const table: GroupTable

    ghost predicate Wired()
      reads this, single, table
    {
      && single.docker == docker && table.docker == docker
      && single.hostPorts != table.prefillPorts && single.hostPorts != table.decodePorts
    }

    /** The worker is at rest: the single path agrees with Docker, and every recorded group
        has all its containers up. */
    ghost predicate AtRest(owner: Naming)
      reads this, docker, single, single.deployments.Values, table, table.prefillPorts, table.decodePorts,
            table.groups.Values, (set g | g in table.groups.Values :: g.prefill),
            (set g | g in table.groups.Values :: g.decode)
    {
      && Wired() && single.Valid() && table.Valid()
      && Coexist(single.recs, single.owned, table.members, docker.Now(), owner)
    }

    ghost predicate Tracks(owner: Naming, replaced: bool)
      reads this, docker, single, table
    {
      Tracked(docker.Now(), single.owned, table.members, owner, replaced)
    }

    ghost predicate Shows(served: Served)
      reads this, docker, single, table
    {
      && RunsAs(single.recs, docker.nameOf, docker.done, served.running)
      && GroupedAs(table.members, docker.nameOf, docker.done, served.groups)
    }

    /** What has been kept while the callers of the first |oks| commands were told oks. */
    ghost predicate Serving(commands: seq<Command>, oks: seq<bool>, ranges: Ranges, owner: Naming)
      reads this, docker, single, single.hostPorts, table, table.prefillPorts, table.decodePorts
    {
      Told(single.recs, docker.Now(), docker.failures, docker.done, single.owned, table.members, OpenPorts(),
           commands, oks, ranges, owner)
    }

    ghost predicate PortsDiffer()
      reads this, single, single.hostPorts
    {
      SinglePorts(single.recs, single.hostPorts.Now())
    }

    ghost predicate Ranged(ranges: Ranges)
      reads this, single, table
    {
      single.hostPorts.range == ranges.single && table.prefillPorts.range == ranges.prefill
      && table.decodePorts.range == ranges.decode
    }

    ghost function OpenPorts(): Pools
      reads this, single, single.hostPorts, table, table.prefillPorts, table.decodePorts
    {
      Pools(single.hostPorts.Now(), table.prefillPorts.Now(), table.decodePorts.Now())
    }

    /** The objects a command may update. */
    ghost function Footprint(): set<object>
      reads this, single
    {
      {docker, single, single.hostPorts, table, table.prefillPorts, table.decodePorts} + single.deployments.Values
    }

    constructor (ranges: Ranges, ghost owner: Naming)
      ensures AtRest(owner) && Ranged(ranges) && Tracks(owner, false) && PortsDiffer()
      ensures fresh(Footprint()) && Shows(Served(map[], map[])) && docker.failures == NO_FAILURES
      ensures single.recs == map[] && table.members == map[] && docker.containers == map[]
      ensures single.deployments == map[] && docker.nameOf == map[]
      ensures OpenPorts() == Pools(Pool(ranges.single, {}), Pool(ranges.prefill, {}), Pool(ranges.decode, {}))
    {
      var r := new Runtime(ranges.single);
      single, docker := r, r.docker;
      table := new GroupTable(r.docker, ranges.prefill, ranges.decode);
    }

    method Load(id: DeploymentID, plan: Plan, ghost owner: Naming, ghost replaced: bool, ghost served: Served)
      returns (r: LoadOutcome)
      requires AtRest(owner) && WellNamed(Command.Load(id, plan), owner) && Tracks(owner, replaced) && Shows(served)
      modifies docker, single, single.hostPorts, single.deployments.Values
      ensures AtRest(owner) && Tracks(owner, replaced)
      ensures Shows(NextServed(served, Command.Load(id, plan), r.Loaded?))
      ensures r.Loaded? ==>
                id in single.recs && single.recs[id].state == Running && single.recs[id].endpoint == r.endpoint
      ensures forall d :: d in single.deployments.Values ==> d in old(single.deployments.Values) || fresh(d)
      ensures plan.hostPort == 0 && old(PortsDiffer()) ==> PortsDiffer()
      ensures docker.Later() && NamesAdded(old(docker.nameOf), docker.nameOf, {plan.containerName})
      ensures |single.hostPorts.used| <= |old(single.hostPorts.used)| + 1
      ensures LoadAnswer(old(single.IsRunning(id)), r, plan, old(single.hostPorts.Now()),
                         plan.containerName in old(docker.names), old(docker.failures), docker.failures)
      ensures docker.failures == old(docker.failures) && CertainLoad(plan, old(single.hostPorts.Now())) ==> r.Loaded?
      ensures table.prefillPorts.used == old(table.prefillPorts.used)
      ensures table.decodePorts.used == old(table.decodePorts.used)
    {
      r := LoadApart(single, id, plan, table, table.members, owner, replaced, served);
    }

    method Unload(id: DeploymentID, ghost owner: Naming, ghost replaced: bool, ghost served: Served)
      returns (ok: bool)
      requires AtRest(owner) && Tracks(owner, replaced) && Shows(served)
      modifies docker, single, single.deployments.Values
      ensures AtRest(owner) && Tracks(owner, replaced) && Shows(NextServed(served, Command.Unload(id), ok))
      ensures UnloadOutcome(id, ok, old(single.recs), old(docker.Now()), single.recs, docker.Now())
      ensures forall k :: k in single.deployments ==> single.deployments[k] in old(single.deployments.Values)
      ensures old(PortsDiffer()) ==> PortsDiffer()
      ensures docker.Later() && (ok <==> docker.failures == old(docker.failures))
    {
      ok := UnloadServing(single, id, table, table.members, owner, replaced, served);
    }

    method LoadGroup(plan: GroupPlan, ghost owner: Naming, ghost replaced: bool, ghost served: Served)
      returns (ok: bool)
      requires AtRest(owner) && WellNamed(Command.LoadGroup(plan), owner) && Tracks(owner, replaced) && Shows(served)
      modifies docker, table, table.prefillPorts, table.decodePorts
      ensures AtRest(owner) && Tracks(owner, replaced || (ok && plan.id in old(table.members)))
      ensures Shows(NextServed(served, Command.LoadGroup(plan), ok))
      ensures forall k :: k in table.groups ==> table.groups[k] in old(table.groups.Values) || fresh(table.groups[k])
      ensures GroupAnswer(ok, plan, old(docker.names.Keys), old(table.prefillPorts.Now()),
                          old(table.decodePorts.Now()), old(docker.failures), docker.failures)
      ensures docker.Later()
      ensures Uses(plan, old(docker.nameOf), docker.nameOf, old(table.prefillPorts.used), table.prefillPorts.used,
                   old(table.decodePorts.used), table.decodePorts.used)
    {
      ghost var members, nameOf, d := table.members, docker.nameOf, docker.done;
      ok := LaunchBesideSingle(table, plan, single.recs, single.owned, owner, replaced);
      GroupedAfterGroup(plan, ok, members, nameOf, table.members, docker.nameOf, served, d, docker.done);
      StaysRunning(single.recs, nameOf, served.running, docker.nameOf, d, docker.done);
    }

    method UnloadGroup(id: DeploymentID, ghost owner: Naming, ghost replaced: bool, ghost served: Served)
      requires AtRest(owner) && Tracks(owner, replaced) && Shows(served)
      modifies docker, table
      ensures AtRest(owner) && Tracks(owner, replaced) && Shows(NextServed(served, Command.UnloadGroup(id), true))
      ensures table.members == old(table.members) - {id}
      ensures forall k :: k in table.groups ==> table.groups[k] in old(table.groups.Values)
      ensures docker.Later() && docker.nameOf == old(docker.nameOf)
    {
      UngroupBesideSingle(table, id, single.recs, single.owned, owner, replaced);
    }

    /** What a command keeps and what its answer promises. */
    twostate predicate Stepped(command: Command, ok: bool, owner: Naming, replaced: bool, served: Served)
      reads this, docker, single, single.hostPorts, single.deployments.Values, table, table.prefillPorts,
            table.decodePorts, table.groups.Values, (set g | g in table.groups.Values :: g.prefill),
            (set g | g in table.groups.Values :: g.decode)
    {
      && AtRest(owner) && Tracks(owner, replaced || Replaces(served.groups.Keys, command, ok))
      && Shows(NextServed(served, command, ok)) && docker.Later()
      && (forall o :: o in Footprint() ==> o in old(Footprint()) || fresh(o))
      && ((command.Load? ==> command.plan.hostPort == 0) && old(PortsDiffer()) ==> PortsDiffer())
      && NamesAdded(old(docker.nameOf), docker.nameOf, NamesIn(command))
      && Drawn(old(OpenPorts()), command, OpenPorts()) && (command.UnloadGroup? ==> ok)
      && (docker.failures == old(docker.failures) && Certain(command, old(docker.names.Keys), old(OpenPorts())) ==> ok)
    }

    /** One command; ok is what its caller is told. */
    method Step(command: Command, ghost owner: Naming, ghost replaced: bool, ghost served: Served) returns (ok: bool)
      requires AtRest(owner) && WellNamed(command, owner) && Tracks(owner, replaced) && Shows(served)
      modifies Footprint()
      ensures Stepped(command, ok, owner, replaced, served)
    {
      match command {
        case Load(id, plan) => ok := StepLoad(id, plan, owner, replaced, served);
        case Unload(id) => ok := StepUnload(id, owner, replaced, served);
        case _ => ok := StepGroup(command, owner, replaced, served);
      }
    }

    method StepLoad(id: DeploymentID, plan: Plan, ghost owner: Naming, ghost replaced: bool, ghost served: Served)
      returns (ok: bool)
      requires AtRest(owner) && WellNamed(Command.Load(id, plan), owner) && Tracks(owner, replaced) && Shows(served)
      modifies docker, single, single.hostPorts, single.deployments.Values
      ensures Stepped(Command.Load(id, plan), ok, owner, replaced, served)
    {
      var r := Load(id, plan, owner, replaced, served);
      ok := r.Loaded?;
    }

    method StepUnload(id: DeploymentID, ghost owner: Naming, ghost replaced: bool, ghost served: Served)
      returns (ok: bool)
      requires AtRest(owner) && Tracks(owner, replaced) && Shows(served)
      modifies docker, single, single.deployments.Values
      ensures Stepped(Command.Unload(id), ok, owner, replaced, served)
    {
      ok := Unload(id, owner, replaced, served);
      forall d | d in single.deployments.Values ensures d in old(single.deployments.Values) {
        var k := KeyOf(single.deployments, d);
      }
    }

    method StepGroup(command: Command, ghost owner: Naming, ghost replaced: bool, ghost served: Served)
      returns (ok: bool)
      requires AtRest(owner) && WellNamed(command, owner) && Tracks(owner, replaced) && Shows(served)
      requires command.LoadGroup? || command.UnloadGroup?
      modifies docker, table, table.prefillPorts, table.decodePorts
      ensures Stepped(command, ok, owner, replaced, served)
    {
      match command {
        case LoadGroup(g) => ok := LoadGroup(g, owner, replaced, served);
        case UnloadGroup(id) =>
          UnloadGroup(id, owner, replaced, served);
          ok := true;
        case _ =>
      }
    }
  }

  datatype Pools = Pools(single: Pool, prefill: Pool, decode: Pool)

  // What a command may use up.

  function NamesIn(c: Command): set<Name>
  {
    match c
    case Load(_, plan) => {plan.containerName}
    case LoadGroup(g) => NamesOf(g.prefill) + NamesOf(g.decode)
    case _ => {}
  }

  function PrefillsIn(c: Command): nat { if c.LoadGroup? then |c.group.prefill| else 0 }

  function DecodesIn(c: Command): nat { if c.LoadGroup? then |c.group.decode| else 0 }

  predicate Drawn(pools: Pools, c: Command, pools': Pools)
  {
    && |pools'.single.used| <= |pools.single.used| + 1
    && |pools'.prefill.used| <= |pools.prefill.used| + PrefillsIn(c)
    && |pools'.decode.used| <= |pools.decode.used| + DecodesIn(c)
  }

  /** A command that nothing but a failing call can refuse: an unload, a load of a well formed
      plan for which there is a port, or the load of a group that can be launched. */
  ghost predicate Certain(c: Command, names: set<Name>, pools: Pools)
  {
    match c
    case Load(_, plan) => CertainLoad(plan, pools.single)
    case LoadGroup(g) => Launchable(g, names, pools.prefill, pools.decode)
    case _ => true
  }

  ghost predicate CertainLoad(plan: Plan, pool: Pool)
  {
    && plan.image != "" && plan.containerName != 0 && plan.containerPort > 0
    && if plan.hostPort != 0 then plan.hostPort > 0 else PortsFor(pool, 1)
  }

  lemma CertainLoads(plan: Plan, r: LoadOutcome, running: bool, pool: Pool, taken: bool, f: Failures, f': Failures)
    requires LoadAnswer(running, r, plan, pool, taken, f, f')
    ensures f' == f && CertainLoad(plan, pool) ==> r.Loaded?
  {
    if f' == f && CertainLoad(plan, pool) && !running {
      NothingFailedLoads(r, plan, pool, taken, f);
      NoneFree(pool);
      if r != LoadError(PortStage) {
        var port :| FirstPort(plan.hostPort, pool, port) && Answers(r, plan.(hostPort := port), taken, f, f');
        assert plan.hostPort == 0 ==> port in pool.Free();
      }
    }
  }

  lemma NoneFree(pool: Pool)
    ensures pool.Exhausted() ==> |pool.Free()| == 0
  {
  }

  lemma ReplicaNames(plan: GroupPlan, prefill: seq<ContainerInfo>, decode: seq<ContainerInfo>, v: View, w: View)
    requires LaunchedAs(plan, prefill, decode, v, w)
    ensures NamesUnder(IdsOf(prefill) + IdsOf(decode), w.nameOf) == NamesOf(plan.prefill) + NamesOf(plan.decode)
  {
    RoleNames(plan.prefill, prefill, w.nameOf);
    RoleNames(plan.decode, decode, w.nameOf);
  }

  lemma RoleNames(plans: seq<ReplicaPlan>, infos: seq<ContainerInfo>, nameOf: map<ContainerID, Name>)
    requires |infos| == |plans| && forall k :: 0 <= k < |infos| ==> ForReplica(infos[k], plans[k], nameOf)
    ensures NamesUnder(IdsOf(infos), nameOf) == NamesOf(plans)
  {
    forall n | n in NamesOf(plans) ensures n in NamesUnder(IdsOf(infos), nameOf) {
      var k :| 0 <= k < |plans| && plans[k].name == n;
      assert ForReplica(infos[k], plans[k], nameOf) && infos[k].containerID in IdsOf(infos);
    }
    forall n | n in NamesUnder(IdsOf(infos), nameOf) ensures n in NamesOf(plans) {
      var c :| c in IdsOf(infos) && c in nameOf && nameOf[c] == n;
      var k :| 0 <= k < |infos| && infos[k].containerID == c;
      assert ForReplica(infos[k], plans[k], nameOf);
    }
  }

  lemma LaunchedNames(plan: GroupPlan, prefill: seq<ContainerInfo>, decode: seq<ContainerInfo>, v: View, w: View,
                      owner: Naming)
    requires LaunchedAs(plan, prefill, decode, v, w) && WellNamed(LoadGroup(plan), owner)
    ensures forall c :: c in IdsOf(prefill) + IdsOf(decode) ==> c in w.nameOf && owner(w.nameOf[c]) == None
  {
    forall c | c in IdsOf(prefill) + IdsOf(decode) ensures c in w.nameOf && owner(w.nameOf[c]) == None {
      if c in IdsOf(prefill) {
        var k :| 0 <= k < |prefill| && prefill[k].containerID == c;
        assert ForReplica(prefill[k], plan.prefill[k], w.nameOf);
      } else {
        var k :| 0 <= k < |decode| && decode[k].containerID == c;
        assert ForReplica(decode[k], plan.decode[k], w.nameOf);
      }
    }
  }

  // ----- whole runs ----------------------------------------------------------------------

  /** The command loads a group whose id is recorded. */
  predicate Replaces(groups: set<DeploymentID>, command: Command, ok: bool)
  {
    command.LoadGroup? && ok && command.group.id in groups
  }

  /** What is up once the callers of the first |oks| commands have been told oks. */
  function ServedAfter(commands: seq<Command>, oks: seq<bool>): Served
    requires |oks| <= |commands|
  {
    if oks == [] then Served(map[], map[])
    else
      var n := |oks| - 1;
      NextServed(ServedAfter(commands, oks[..n]), commands[n], oks[n])
  }

  /** Some group load succeeded while its id was recorded. */
  predicate SomeReplaced(commands: seq<Command>, oks: seq<bool>)
    requires |oks| <= |commands|
  {
    oks != [] &&
    var n := |oks| - 1;
    SomeReplaced(commands, oks[..n]) || Replaces(ServedAfter(commands, oks[..n]).groups.Keys, commands[n], oks[n])
  }

  lemma OneMoreAnswer(commands: seq<Command>, oks: seq<bool>, ok: bool)
    requires |oks| < |commands|
    ensures var served := ServedAfter(commands, oks);
            && ServedAfter(commands, oks + [ok]) == NextServed(served, commands[|oks|], ok)
            && (SomeReplaced(commands, oks + [ok]) <==>
                  SomeReplaced(commands, oks) || Replaces(served.groups.Keys, commands[|oks|], ok))
  {
    assert (oks + [ok])[..|oks|] == oks;
  }

  /** The names and the numbers of ports that the first k commands may have used up. */
  function NamesBefore(commands: seq<Command>, k: nat): set<Name>
    requires k <= |commands|
  {
    if k == 0 then {} else NamesBefore(commands, k - 1) + NamesIn(commands[k - 1])
  }

  function PrefillsBefore(commands: seq<Command>, k: nat): nat
    requires k <= |commands|
  {
    if k == 0 then 0 else PrefillsBefore(commands, k - 1) + PrefillsIn(commands[k - 1])
  }

  function DecodesBefore(commands: seq<Command>, k: nat): nat
    requires k <= |commands|
  {
    if k == 0 then 0 else DecodesBefore(commands, k - 1) + DecodesIn(commands[k - 1])
  }

  /** The range has n more positive ports when so many are used. */
  predicate Leaves(range: Range, used: nat, n: nat)
  {
    n > 0 ==> 0 < range.lo && used + n <= range.hi - range.lo + 1
  }

  /** From the commands alone: if no call fails, the k-th one is answered ok. A load has a valid
      plan and a port left; a group's replicas have valid specs, ports left, and names that are
      distinct and that no earlier command has used. */
  predicate CertainAt(commands: seq<Command>, k: nat, ranges: Ranges)
    requires k < |commands|
  {
    match commands[k]
    case Load(_, plan) =>
      && plan.image != "" && plan.containerName != 0 && plan.containerPort > 0
      && if plan.hostPort != 0 then plan.hostPort > 0 else Leaves(ranges.single, k, 1)
    case LoadGroup(g) =>
      && RoleNamed(g.prefill, NamesBefore(commands, k))
      && RoleNamed(g.decode, NamesBefore(commands, k) + NamesOf(g.prefill))
      && Leaves(ranges.prefill, PrefillsBefore(commands, k), |g.prefill|)
      && Leaves(ranges.decode, DecodesBefore(commands, k), |g.decode|)
    case _ => true
  }

  /** A group unload is always answered ok. */
  predicate UngroupsSucceed(commands: seq<Command>, oks: seq<bool>)
    requires |oks| <= |commands|
  {
    forall k :: 0 <= k < |oks| && commands[k].UnloadGroup? ==> oks[k]
  }

  ghost predicate AllCertain(commands: seq<Command>, oks: seq<bool>, ranges: Ranges)
    requires |oks| <= |commands|
  {
    forall k :: 0 <= k < |oks| && CertainAt(commands, k, ranges) ==> oks[k]
  }

  /** The pools and names in use after k commands. */
  predicate UsedUp(commands: seq<Command>, k: nat, ranges: Ranges, names: set<Name>, pools: Pools)
    requires k <= |commands|
  {
    && names <= NamesBefore(commands, k)
    && pools.single.range == ranges.single && |pools.single.used| <= k
    && pools.prefill.range == ranges.prefill && |pools.prefill.used| <= PrefillsBefore(commands, k)
    && pools.decode.range == ranges.decode && |pools.decode.used| <= DecodesBefore(commands, k)
  }

  lemma CertainNow(commands: seq<Command>, k: nat, ranges: Ranges, names: set<Name>, pools: Pools)
    requires k < |commands| && CertainAt(commands, k, ranges) && UsedUp(commands, k, ranges, names, pools)
    ensures Certain(commands[k], names, pools)
  {
    match commands[k]
    case Load(_, plan) =>
      if plan.hostPort == 0 {
        PortsLeft(pools.single, k, 1);
      }
    case LoadGroup(g) =>
      PortsLeft(pools.prefill, PrefillsBefore(commands, k), |g.prefill|);
      PortsLeft(pools.decode, DecodesBefore(commands, k), |g.decode|);
    case _ =>
  }

  lemma PortsLeft(pool: Pool, used: nat, n: nat)
    requires |pool.used| <= used && Leaves(pool.range, used, n)
    ensures PortsFor(pool, n)
  {
    if n > 0 {
      var all := Interval(pool.range.lo, pool.range.hi - pool.range.lo + 1);
      assert all <= pool.Free() + pool.used;
      SubsetSize(all, pool.Free() + pool.used);
      UnionSize(pool.Free(), pool.used);
    }
  }

  lemma UnionSize(xs: set<int>, ys: set<int>)
    ensures |xs + ys| <= |xs| + |ys|
  {
    assert xs + ys == xs + (ys - xs);
    SubsetSize(ys - xs, ys);
  }

  function Interval(lo: int, n: nat): (ports: set<int>)
    ensures |ports| == n && forall p :: p in ports <==> lo <= p < lo + n
  {
    if n == 0 then {} else Interval(lo, n - 1) + {lo + n - 1}
  }

  lemma SubsetSize(xs: set<int>, ys: set<int>)
    requires xs <= ys
    ensures |xs| <= |ys|
  {
    assert ys == xs + (ys - xs);
  }

  /** No command asks for a particular host port. */
  predicate Portless(commands: seq<Command>)
  {
    forall k :: 0 <= k < |commands| && commands[k].Load? ==> commands[k].plan.hostPort == 0
  }

  /** Recorded ports never repeat if the group ranges are apart. If no plan names a port,
      no two deployments share one, and if the single range is apart from both group ranges
      none is a recorded port of a group either. */
  ghost predicate PortsApart(commands: seq<Command>, ranges: Ranges, recs: Records, recorded: seq<int>)
  {
    && (Apart(ranges.prefill, ranges.decode) ==> Distinct(recorded))
    && (Portless(commands) ==> forall d, e :: d in recs && e in recs && d != e && recs[d].hostPort != 0 ==>
          recs[d].hostPort != recs[e].hostPort)
    && (Portless(commands) && Apart(ranges.single, ranges.prefill) && Apart(ranges.single, ranges.decode) ==>
          forall d :: d in recs && recs[d].hostPort != 0 ==> recs[d].hostPort !in recorded)
  }

  /** Any sequence of commands ends with the worker at rest, every recorded group up and the
      ports apart. oks is what the callers were told; it determines which deployments are
      running and which groups are recorded, each under its plan's names. If no call failed,
      every unload succeeded, and so did every load of a well formed plan for which there was
      a port. If no Remove failed, every existing container belongs to the single path or to a
      recorded group exactly when no group load succeeded while its id was recorded. If no
      Stop failed either, the single-path containers that exist are exactly those of the
      running deployments, one each, running and with an endpoint; any other record is one
      left by a missing port. */
  method Serve(commands: seq<Command>, ranges: Ranges, ghost owner: Naming) returns (w: Worker, oks: seq<bool>)
    requires forall k :: 0 <= k < |commands| ==> WellNamed(commands[k], owner)
    ensures w.AtRest(owner) && w.Ranged(ranges)
    ensures |oks| == |commands| && w.Shows(ServedAfter(commands, oks))
    ensures w.docker.failures == NO_FAILURES ==> AllCertain(commands, oks, ranges)
    ensures UngroupsSucceed(commands, oks)
    ensures PortsApart(commands, ranges, w.single.recs, w.table.recordedPorts)
    ensures forall g, c :: g in w.table.members && c in w.table.members[g] ==>
              c in w.docker.containers && w.docker.containers[c]
    ensures w.docker.removeFailed == {} ==>
              (Attributed(w.docker.Now(), w.single.owned, w.table.members) <==> !SomeReplaced(commands, oks))
    ensures w.docker.Now().Troubled() == {} ==> OneContainerEach(w.single.recs, w.docker.containers, w.single.owned)
  {
    w, oks := Run(commands, ranges, owner);
    WorkerPorts(w, commands, ranges);
    if w.docker.removeFailed == {} {
      TrackedExactly(w.docker.Now(), w.single.owned, w.table.members, owner, SomeReplaced(commands, oks));
    }
    if w.docker.Now().Troubled() == {} {
      ExactWhenCleanupWorks(w.single.recs, w.docker.containers, w.single.owned);
    }
  }

  /** The existing containers are those of the running records, and every other record is
      untouched. */
  ghost predicate OneContainerEach(recs: Records, containers: map<ContainerID, bool>, owned: set<ContainerID>)
  {
    && (forall c :: c in owned && c in containers <==>
          exists id :: id in recs && recs[id].state == Running && recs[id].containerID == c)
    && (forall id :: id in recs ==>
          if recs[id].state == Running
          then && recs[id].containerID in containers && containers[recs[id].containerID]
               && recs[id].endpoint != NoEndpoint
          else recs[id] == FRESH)
  }

  lemma WorkerPorts(w: Worker, commands: seq<Command>, ranges: Ranges)
    requires w.table.PortsValid() && w.Ranged(ranges)
    requires Portless(commands) ==> w.PortsDiffer()
    ensures PortsApart(commands, ranges, w.single.recs, w.table.recordedPorts)
  {
  }

  /** What the answers to the first |oks| commands tell, from the worker's state. */
  ghost predicate Told(recs: Records, v: View, f: Failures, d: Successes, owned: set<ContainerID>,
                       members: map<DeploymentID, set<ContainerID>>, pools: Pools,
                       commands: seq<Command>, oks: seq<bool>, ranges: Ranges, owner: Naming)
  {
    && |oks| <= |commands|
    && RunsAs(recs, v.nameOf, d, ServedAfter(commands, oks).running)
    && GroupedAs(members, v.nameOf, d, ServedAfter(commands, oks).groups)
    && Tracked(v, owned, members, owner, SomeReplaced(commands, oks))
    && (f == NO_FAILURES ==> AllCertain(commands, oks, ranges)) && UngroupsSucceed(commands, oks)
    && UsedUp(commands, |oks|, ranges, NamesUnder(v.nameOf.Keys, v.nameOf), pools)
    && (Portless(commands) ==> SinglePorts(recs, pools.single))
  }

  /** One more command, from what it kept. */
  lemma ToldMore(recs: Records, v: View, f: Failures, pools: Pools, commands: seq<Command>, oks: seq<bool>,
                 ranges: Ranges, owner: Naming, ok: bool, w: View, f': Failures, d: Successes,
                 owned: set<ContainerID>, members: map<DeploymentID, set<ContainerID>>, recs': Records, pools': Pools)
    requires |oks| < |commands| && (f == NO_FAILURES ==> AllCertain(commands, oks, ranges))
    requires UngroupsSucceed(commands, oks) && (commands[|oks|].UnloadGroup? ==> ok)
    requires UsedUp(commands, |oks|, ranges, NamesUnder(v.nameOf.Keys, v.nameOf), pools) && NamesHeld(v)
    requires Drawn(pools, commands[|oks|], pools') && NamesAdded(v.nameOf, w.nameOf, NamesIn(commands[|oks|]))
    requires pools'.single.range == pools.single.range && pools'.prefill.range == pools.prefill.range
             && pools'.decode.range == pools.decode.range
    requires Portless(commands) ==> SinglePorts(recs, pools.single)
    requires var c, served := commands[|oks|], NextServed(ServedAfter(commands, oks), commands[|oks|], ok);
             && RunsAs(recs', w.nameOf, d, served.running) && GroupedAs(members, w.nameOf, d, served.groups)
             && Tracked(w, owned, members, owner,
                        SomeReplaced(commands, oks) || Replaces(ServedAfter(commands, oks).groups.Keys, c, ok))
             && ((c.Load? ==> c.plan.hostPort == 0) && SinglePorts(recs, pools.single) ==>
                   SinglePorts(recs', pools'.single))
             && Grew(f, f') && (f' == f && Certain(c, v.names.Keys, pools) ==> ok)
    ensures Told(recs', w, f', d, owned, members, pools', commands, oks + [ok], ranges, owner)
  {
    OneMoreAnswer(commands, oks, ok);
    if f' == NO_FAILURES {
      if CertainAt(commands, |oks|, ranges) {
        NamesInUse(v);
        CertainNow(commands, |oks|, ranges, v.names.Keys, pools);
      }
      CertainSnoc(commands, oks, ok, ranges);
    }
  }

  lemma NamesInUse(v: View)
    requires NamesHeld(v)
    ensures v.names.Keys <= NamesUnder(v.nameOf.Keys, v.nameOf)
  {
    forall n | n in v.names ensures n in NamesUnder(v.nameOf.Keys, v.nameOf) {
      assert v.names[n] in v.nameOf.Keys && v.nameOf[v.names[n]] == n;
    }
  }

  lemma CertainSnoc(commands: seq<Command>, oks: seq<bool>, ok: bool, ranges: Ranges)
    requires |oks| < |commands| && AllCertain(commands, oks, ranges)
    requires CertainAt(commands, |oks|, ranges) ==> ok
    ensures AllCertain(commands, oks + [ok], ranges)
  {
  }

  /** The next command of a run. */
  method Continue(w: Worker, commands: seq<Command>, ranges: Ranges, oks: seq<bool>, ghost owner: Naming)
    returns (ok: bool)
    requires forall k :: 0 <= k < |commands| ==> WellNamed(commands[k], owner)
    requires w.AtRest(owner) && |oks| < |commands| && w.Serving(commands, oks, ranges, owner)
    modifies w.Footprint()
    ensures w.AtRest(owner) && w.Serving(commands, oks + [ok], ranges, owner)
    ensures forall o :: o in w.Footprint() ==> o in old(w.Footprint()) || fresh(o)
  {
    ghost var recs, v, f, pools := w.single.recs, w.docker.Now(), w.docker.failures, w.OpenPorts();
    ok := w.Step(commands[|oks|], owner, SomeReplaced(commands, oks), ServedAfter(commands, oks));
    ToldMore(recs, v, f, pools, commands, oks, ranges, owner, ok, w.docker.Now(), w.docker.failures, w.docker.done,
             w.single.owned, w.table.members, w.single.recs, w.OpenPorts());
  }

  lemma NothingTold(w: Worker, commands: seq<Command>, ranges: Ranges, owner: Naming)
    requires w.Shows(Served(map[], map[])) && w.Tracks(owner, false) && w.PortsDiffer() && w.docker.nameOf == map[]
    requires w.OpenPorts() == Pools(Pool(ranges.single, {}), Pool(ranges.prefill, {}), Pool(ranges.decode, {}))
    ensures w.Serving(commands, [], ranges, owner)
  {
  }

  /** The command loop. */
  method Run(commands: seq<Command>, ranges: Ranges, ghost owner: Naming) returns (w: Worker, oks: seq<bool>)
    requires forall k :: 0 <= k < |commands| ==> WellNamed(commands[k], owner)
    ensures |oks| == |commands| && w.AtRest(owner) && w.Serving(commands, oks, ranges, owner)
  {
    w := new Worker(ranges, owner);
    oks := [];
    NothingTold(w, commands, ranges, owner);
    while |oks| < |commands|
      invariant |oks| <= |commands| && w.AtRest(owner) && w.Serving(commands, oks, ranges, owner)
      invariant fresh(w.Footprint())
    {
      var ok := Continue(w, commands, ranges, oks, owner);
      oks := oks + [ok];
    }
  }
}
