# Verified model of the worker agent

A worker that runs model containers keeps several pieces of state that must agree with the
outside world: deployment records with Docker's container set, session maps with live
shells, device assignments with the pool, bucket counts with retained samples. This project
models that state in Dafny and proves, over every input, run or interleaving, what the
worker can rely on, and exactly where the code as written falls short of it.

Check everything with `dafny verify dfyconfig.toml`.

## Layout

| files | subject |
|---|---|
| `Docker.dfy` | the Docker engine: fresh ids, name conflicts, any call may fail |
| `Agreement.dfy`, `Runtime.dfy` | deployment records, LoadModel and UnloadModel, and when they agree with Docker |
| `Groups.dfy`, `Deployment.dfy`, `PortAllocator.dfy` | launching, rolling back and unloading container groups; ports; round-robin |
| `Worker.dfy` | whole runs of non-overlapping commands |
| `Unloading.dfy` | the dispatcher's UnloadModel: devices and runtime together |
| `OverlappingLoads.dfy` | any number of interleaved LoadModel calls for one id |
| `Tunnel.dfy` | the shell and logs tunnel with its sessions, as interleaved atomic steps |
| `ProgressLog.dfy`, `ProgressStream.dfy` | the progress buffer, its followers, and the hand-off to container logs |
| `StaticAllocation.dfy`, `GpuAllocator.dfy` | the equal-share planner, the device allocator, its callers |
| `Histogram.dfy` | the ring-buffer histogram |
| `LineSplitting.dfy`, `PullProgress.dfy` | log lines, pull-progress throttling |
| `Dedup.dfy`, `OverlappingRuns.dfy` | the command cache, with runs one after another and interleaved |
| `Sums.dfy`, `Sequences.dfy`, `Options.dfy` | shared notions |

Code that updates objects is modelled by classes and loops, each method tied to a value-level
function or relation whose properties are then proved. Concurrent code is a state machine
whose steps are the critical sections; a run is any sequence of events. A failing Docker
call is a nondeterministic choice; `Docker.stopFailed` and `Docker.removeFailed` remember
on which containers a Stop or Remove failed, so that what leaks is stated exactly rather
than assumed away. `Docker.failures` counts the failures of every kind and `Docker.done`
records what was pulled and which containers answered their probes, so that every answer is
tied to its cause: an operation fails only if one of its calls did or its input is at fault,
and succeeds only if all of them were made.

## Where the code falls short

Each of these is proved, with the condition under which the code does meet its intent.

- The histogram's `head` is advanced without wrapping when the buffer fills
  (`internal/metrics/histogram.go:45`). `ObserveAsWritten` succeeds exactly for the first
  `len(buffer)` calls since construction or Reset, and the next one indexes out of range;
  `SecondSamplePanics` is the smallest such run. The ring property is proved for `Observe`,
  which wraps.
- Snapshot's results are called p50 and p95 but are taken at the 95% and 98% ranks; the
  ranks are what is specified.
- A LoadModel call that waits for its record and then finds it forgotten by a failing first
  call reports success for a container no record mentions (`StaleWaiterLeaks`,
  `ObservedFailureLeaks`). A failing call is safe, for every continuation in which later
  failures are unobserved, exactly when no other call holds the record as it forgets it
  (`DropSafeIffAlone`).
- rollbackGroup uses the request's own context, so its Removes can fail: a failed group
  launch leaves Docker's container set unchanged if and only if none did (`RolledBack`,
  `LoadDeploymentGroup`); `RefusedRemovalLeaves` has such a launch that leaves a container.
- Loading a group under an id that is already recorded replaces the record without tearing the
  earlier group down (`internal/runtime/runtime.go:431-433`), so its containers run on and
  belong to nothing (`ReloadOrphans`; a vllm and then a sglang group of one id, whose name
  prefixes differ). Over any run in which no Remove fails, every existing container belongs to
  the single path or to a recorded group exactly when no group load succeeded while its id was
  recorded (`Serve`). A reload that would give a replica the name of a container that still
  exists fails (`NamesakeBlocksLaunch`), as one with the same recipe does.
- A container name does not determine its deployment: ids "a/b" and "a-b" of one recipe share a
  name (`internal/runtime/recipes/recipes.go:276-280`), and a single deployment "p-a-0" has the
  name of the first prefill replica of group "a". A completed load removes whatever holds its
  name. It leaves the records in agreement with Docker exactly when no other running
  deployment's container held it (`LoadModel`, `TakenNameBreaks`), and the recorded groups up
  exactly when no group's container did (`GroupsSurviveIff`).
- With reused stream ids a session can be lost in two ways: an open inserts over its entry
  (`ReusedIdLeaks`: two opens race), or another session under the same id drops that entry on
  its way out (`ReopenedIdLeaks`: open, end of file, close, open, without any race). A run
  loses no session exactly when no step takes an entry from a session that is not closed, not
  ended and in no handler's hands (`StepLeaksIff`, `RunLeaksIff`); fresh ids are enough
  (`FreshRunSpares`).
- A command id can be executed twice within ttl in two ways: a lookup finds it running but
  not stored (`OverlapExecutesTwice`), or a run that outlasts ttl stores over a younger
  result (`LateStoreExecutesTwice`). Over every interleaving these are the only ways
  (`RepeatsIffUnsafe`), so runs of one id that do not overlap are enough
  (`SerialRunsApart`).
- The dispatcher keeps the devices of a load that failed after allocation
  (`FailedLoadsKeepDevices` has a failing call of each path). After a failed call every holder
  has the devices it had exactly when the recipe is unknown, the indices are rejected, or each
  id the call allocates for asks for no device or for just those it already holds
  (`Dispatcher.LoadModel`, `GroupIdleIff`).
- The dispatcher's UnloadModel gives the devices back first and always reports success: the
  group unload never fails, and it takes both to fail for an error. When Docker refuses the
  single unload the record stays Stopping on a container that may still use those devices
  (`Unloading.UnloadModel`), which can happen to any running deployment
  (`RunningCanBeRefused`).
- The default single-container port range contains both group ranges
  (`DefaultRangesCollide`). Two allocators can come to hand out a common port exactly when
  their ranges meet (`CommonPortIff`); `Serve` gives the worker's guarantee for any ranges.
- Round-robin is fair over every window exactly when the replica count divides 2^32; for any
  other count some window around a counter wrap favours a replica by 2 (`FairIffDividing`).

Two comments in the sources describe something else than the code beside them: the
dispatcher's UnloadModel (`internal/dispatcher/dispatcher.go:207-210`) speaks of an error
when both paths report "not found", but UnloadDeploymentGroup never fails, so no error is
ever returned; and dropping a duplicate open (`internal/control/shell_tunnel.go:198-200`)
only covers ids that have already been inserted. The model follows the code.

## Model

| member | source | states |
|---|---|---|
| DockerEngine.Docker.Create | internal/runtime/dockerclient/fake/fake.go:104-126 | fails without effect or yields a never used, non-empty id for a stopped container; a taken non-empty name is refused |
| DockerEngine.Docker.RemoveByName | internal/runtime/dockerclient/fake/fake.go:190-203 | removes the container holding the name; a missing name is a successful no-op; failure changes nothing |
| DockerEngine.StartOrRemove | internal/runtime/runtime.go:274-277 | a container that does not start is torn down, as far as Docker allows |
| DockerEngine.TearDown | internal/runtime/runtime.go:300-303 | after a best-effort Stop and Remove the container is gone, or its removal is on record as failed and it is stopped unless that failed too; nothing else changed |
| Agreement.ExactWhenCleanupWorks | internal/runtime/runtime.go:200-358 | records and Docker agree and no Stop or Remove ever failed: the worker's existing containers are exactly those of the Running records, one each, running, with endpoint and hand-off to that container; every other record is the untouched Absent one |
| Agreement.ForgetRecord | internal/runtime/runtime.go:228-235 | a failed load that drops its record keeps the agreement |
| Agreement.InstallRecord | internal/runtime/runtime.go:324-331 | a completed load with a fresh running container keeps the agreement |
| Agreement.AddFresh | internal/runtime/runtime.go:210-216 | a record left behind by port exhaustion keeps the agreement |
| Agreement.StopRecord | internal/runtime/runtime.go:347-354 | a refused Stop or Remove leaves a Stopping record that still owns its container, and keeps the agreement |
| WorkerRuntime.Runtime.GetOrCreate | internal/runtime/runtime.go:522-537 | an existing record is returned untouched; a new one starts Absent without container |
| WorkerRuntime.Runtime.PullAndCreate | internal/runtime/runtime.go:225-269 | success leaves exactly one new stopped container under the plan's name, whose earlier holder, if any, is gone, and no other is touched; failure creates nothing and names its cause: the pull, the spec, the create, or a holder that could not be cleared |
| WorkerRuntime.Runtime.ReadyOrTearDown | internal/runtime/runtime.go:297-317 | success means the container answered its probe and pulled the model it was asked for; otherwise it is torn down |
| WorkerRuntime.Runtime.LaunchSteps | internal/runtime/runtime.go:221-333 | every failure point after port allocation drops the record, with its progress log ended, and leaves no new container but one Docker refused to remove; success installs one fresh running container with its endpoint; the answer is determined by which call failed |
| WorkerRuntime.Runtime.LoadModel | internal/runtime/runtime.go:200-334 | the three outcomes (already running, no port, failed or loaded) determine the new records, containers and ports; the answer names the call that failed, and success means all of them were made; agreement is kept if no other running deployment's container held the plan's name, and after a completed launch only then |
| WorkerRuntime.NothingFailedLoads | internal/runtime/runtime.go:200-334 | a load during which no call failed succeeds exactly when the plan is well formed and has a positive port, whatever held its name |
| WorkerRuntime.Runtime.UnloadModel | internal/runtime/runtime.go:337-358 | unknown ids succeed without effect; success removes record and container; a refusal keeps both, Stopping, and is answered exactly when the Stop or the Remove failed |
| WorkerRuntime.Runtime.ChoosePort | internal/runtime/runtime.go:210-219 | the plan's own port, or the smallest free one, which is marked as taken; refused only when the plan names none and no port is free |
| WorkerRuntime.CreatedThenRemoved | internal/runtime/runtime.go:262-283 | creating and tearing down one container leaves every other container alone and nothing new that could be removed |
| WorkerRuntime.ForgetAfterFailure | internal/runtime/runtime.go:226-316 | agreement is kept across any failed load, from what its steps did to Docker |
| WorkerRuntime.InstallAfterSuccess | internal/runtime/runtime.go:324-333 | a completed load keeps the agreement if and only if no other running deployment's container held its name |
| WorkerRuntime.TakenNameBreaks | internal/runtime/runtime.go:257-267 | a completed load under the name of another running deployment's container has removed that container while its record still says Running |
| WorkerRuntime.ForgetUnloaded | internal/runtime/runtime.go:346-357 | agreement is kept when record and container go together |
| WorkerRuntime.SinglePortsAfterLoad | internal/runtime/runtime.go:210-219 | loads of plans that name no port keep the records' ports distinct and taken from the pool |
| GroupRuntime.GroupTable.CreateAndStart | internal/runtime/runtime.go:483-508 | adds exactly one fresh running container that answered its probe, under a name nothing had, or nothing but one Docker refused to remove; without a failing call it is refused only for its spec, its port or its name |
| GroupRuntime.GroupTable.LaunchReplicas | internal/runtime/runtime.go:391-427 | the launched replicas are distinct fresh running containers in plan order on new distinct ports, all probed; the rest of the array is untouched; all are launched exactly when no call fails and the role can be launched |
| GroupRuntime.GroupTable.Rollback | internal/runtime/runtime.go:466-479 | every launched replica of the role is removed again, unless Docker refused |
| GroupRuntime.GroupTable.RollbackGroup | internal/runtime/runtime.go:466-479 | after the rollback of both roles nothing new is left but what Docker refused to remove |
| GroupRuntime.GroupTable.LaunchBoth | internal/runtime/runtime.go:391-427 | all replicas of both roles, or Docker as before up to refused removals, for any failure point |
| GroupRuntime.GroupTable.LoadDeploymentGroup | internal/runtime/runtime.go:364-435 | all or nothing: an error leaves the table (an earlier group of that id included) and Docker as at entry up to refused removals; the container set is then as it was exactly when no Remove failed; success records one fresh running container per replica, under names nothing had; it succeeds exactly when no call fails and there are ports, valid specs and unused distinct names for all replicas |
| GroupRuntime.RoleGrows | internal/runtime/runtime.go:391-427 | one more replica on the smallest free port keeps the account of ports and names a role has used |
| GroupRuntime.RoleRefused | internal/runtime/runtime.go:391-427 | a replica that has no port, no valid spec or no name of its own makes its role one that cannot be launched |
| GroupRuntime.GroupTable.UnloadDeploymentGroup | internal/runtime/runtime.go:439-460 | the group is forgotten; its containers are gone, or could not be removed and are stopped unless that failed too; others untouched; unknown ids change nothing |
| GroupRuntime.RolledBack | internal/runtime/runtime.go:466-479 | after a failed launch the container set is exactly as before if and only if no Remove failed |
| GroupRuntime.RefusedRemovalLeaves | internal/runtime/runtime.go:492-506 | from any situation there is a failed launch that leaves its container behind: the replica does not start and its Remove fails |
| GroupRuntime.ReloadOrphans | internal/runtime/runtime.go:431-433 | after two successful group loads of one id a container of the first is running and in no recorded group |
| GroupRuntime.NamesakeBlocksLaunch | internal/runtime/runtime.go:399-425 | a plan that gives a replica the name of an existing container lacks the unused names a successful launch needs |
| GroupRuntime.ExactlyAdded | internal/runtime/runtime.go:391-427 | a completed launch adds exactly its replicas' containers |
| GroupRuntime.LaunchedAndTornDown | internal/runtime/runtime.go:466-479 | rolling back one replica takes exactly it out of the launched set |
| GroupRuntime.CreatedAndTornDown | internal/runtime/runtime.go:492-506 | a replica that fails to start or to become ready leaves the launched set as it was |
| GroupRuntime.PortsStayDistinct | internal/runtime/runtime.go:87-94 | with disjoint ranges no port is ever recorded twice |
| Worker.Serve | internal/runtime/runtime.go:200-460 | after any sequence of non-overlapping commands, with container names that belong to one deployment each: the running deployments and recorded groups are exactly those the answers tell, each up under its last plan's names and port, pulled and probed; if no call failed, every command answers ok that the commands alone say must, and a group unload always does; if no Remove failed, every existing container belongs to the single path or to a recorded group exactly when no group load succeeded while its id was recorded; recorded ports are distinct if the group ranges are apart, and distinct from those of all single records, themselves distinct, if the single range is apart from both and no plan names a port; if no Stop or Remove failed the single-path containers are exactly those of the running deployments |
| Worker.RunsAfterLoad | internal/runtime/runtime.go:200-334 | a load told ok leaves its deployment running as planned unless it already was, any other changes no running deployment |
| Worker.GroupedAfterGroup | internal/runtime/runtime.go:364-435 | a group load told ok records the group with its replicas' names, any other changes no group |
| Worker.CertainNow | internal/runtime/runtime.go:200-435 | a load with a valid plan and a port left, or a group load with valid specs, ports left and names no earlier command used, cannot be refused unless a call fails |
| Worker.TrackedExactly | internal/runtime/runtime.go:431-433 | read off what every command keeps: without failed Removes all containers are attributed exactly when no recorded group was replaced |
| Worker.TrackedAfterGroup | internal/runtime/runtime.go:364-435 | a group launch, failed or not, keeps that account: replacing a recorded group makes its containers orphans, and an orphan stays one |
| Worker.TrackedAfterLoad | internal/runtime/runtime.go:200-334 | so does a load: its only new container is its record's unless a Remove failed, and it removes no group container |
| Worker.TrackedAfterUngroup | internal/runtime/runtime.go:439-460 | so does a group teardown: it removes its own group's containers and no orphan |
| Worker.GroupsSurviveIff | internal/runtime/runtime.go:257-267 | a completed launch leaves the recorded groups up exactly when no group's container held the plan's name |
| Worker.CoexistAfterLoad | internal/runtime/runtime.go:257-267 | clearing a stale name and creating under it never touches a group or another deployment |
| Worker.CoexistAfterGroup | internal/runtime/runtime.go:364-435 | a group launch, failed or not, keeps groups disjoint and up and the single path's names |
| Worker.AgreesAfterGroup | internal/runtime/runtime.go:364-435 | a group launch keeps the single path in agreement with Docker |
| Worker.AgreesAfterUngroup | internal/runtime/runtime.go:439-460 | a group teardown keeps the single path in agreement with Docker |
| OverlappingLoads.LoadsAgree | internal/runtime/runtime.go:200-208 | under every interleaving in which failing calls drop their record unobserved, all completed loads answer alike, with the running record the map holds and the only live container |
| OverlappingLoads.CreatesOnce | internal/runtime/runtime.go:200-334 | if nothing fails past port allocation, at most one container is ever created, exactly one once any call has loaded, and no call reports another failure |
| OverlappingLoads.AnswersHaveCauses | internal/runtime/runtime.go:206-316 | under every interleaving a call that has returned reports a missing port exactly when the allocator refused it one, a failure exactly when one of its own operations past the port failed, and otherwise that it has loaded |
| OverlappingLoads.AllLoadAlike | internal/runtime/runtime.go:196-208 | if nothing fails, every call that has returned has loaded, all with the same endpoint |
| OverlappingLoads.StagesInOrder | internal/runtime/runtime.go:221-331 | a call has a container only after its own pull and create succeeded, and marks the deployment running only after its start and its readiness probe did |
| OverlappingLoads.StatusShowsStage | internal/runtime/runtime.go:223-331 | the status is Pulling until the container exists, Starting with its id until it is ready, Running once a call has loaded |
| OverlappingLoads.NobodyIsStuck | internal/runtime/runtime.go:201-203 | under every interleaving, while some call has not returned, one of them can take a step nearer to its return; no lock is left behind |
| OverlappingLoads.StepKeepsInv | internal/runtime/runtime.go:200-334 | mutual exclusion, tracked holders and container accounting survive every atomic step |
| OverlappingLoads.DropSafeIffAlone | internal/runtime/runtime.go:556-560 | a failed call forgets its record: in every continuation with unobserved later failures all loads reported as successful are the running record the map holds with the only live container, exactly when no other call holds the record at that moment |
| OverlappingLoads.StaleWaiterLeaks | internal/runtime/runtime.go:201-202 | a call waiting for a forgotten record, left to itself, reports success for a container in no record |
| OverlappingLoads.ObservedFailureLeaks | internal/runtime/runtime.go:226-235 | the concrete overlap of a failing first call with a second one that ends so |
| Ports.PortAllocator.Next | internal/runtime/portalloc.go:21-31 | the smallest free port of the range, marked as taken; exhausted exactly when every port is |
| Ports.PortAllocator.Release | internal/runtime/portalloc.go:35-39 | the port is free again; releasing a free one changes nothing |
| Ports.Replay | internal/runtime/portalloc.go:21-39 | an allocator driven by any history keeps the books the histories are reasoned about |
| Ports.CanIssueIff | internal/runtime/portalloc.go:21-39 | some history of calls hands out a port exactly when it lies in the range |
| Ports.CommonPortIff | internal/runtime/runtime.go:83-94 | over all histories of Next and Release calls, two allocators can hand out a common port exactly when their ranges meet |
| Ports.DefaultRangesCollide | internal/runtime/runtime.go:83-94 | the default single range meets both group ranges, and the first calls give a single deployment and a prefill replica the same port |
| Deployment.DeploymentGroup.NextPrefill | internal/runtime/deployment.go:31-38 | the endpoint of the replica the wrapping counter selects, always in range; none for an empty role |
| Deployment.DeploymentGroup.NextDecode | internal/runtime/deployment.go:41-48 | likewise for decode |
| Deployment.FairWithoutWrap | internal/runtime/deployment.go:35-36 | in any window without a wrap two replicas' selection counts differ by at most 1 |
| Deployment.FairAcrossOneWrap | internal/runtime/deployment.go:35-36 | across one wrap by at most 2 |
| Deployment.FairWhenDividing | internal/runtime/deployment.go:35-36 | by at most 1 over any window if the replica count divides 2^32 |
| Deployment.FairIffDividing | internal/runtime/deployment.go:35-36 | selection counts stay within 1 over every window exactly when the replica count divides 2^32; otherwise some window differs by 2 |
| Deployment.AroundTheWrap | internal/runtime/deployment.go:35-36 | for any other count the window around the wrap selects the first replicas twice and the rest not at all |
| Deployment.WrapSkews | internal/runtime/deployment.go:35-36 | three replicas: the two calls around the wrap pick the same one |
| Tunnel.ChannelShellTunnel.CheckOpen | internal/control/shell_tunnel.go:192-203 | refused after CloseAll, duplicate for an id in the map, admitted otherwise |
| Tunnel.ChannelShellTunnel.InsertUnlessDisposed | internal/control/shell_tunnel.go:253-261 | the session enters its map exactly when CloseAll has not run |
| Tunnel.ChannelShellTunnel.Take | internal/control/shell_tunnel.go:286-290 | returns and deletes the id's session, if any |
| Tunnel.ChannelShellTunnel.Drop | internal/control/shell_tunnel.go:360-370 | deletes the id's entry, whoever owns it |
| Tunnel.ChannelShellTunnel.DisposeAll | internal/control/shell_tunnel.go:163-174 | the first call takes every session and empties both maps for good; later ones take none |
| Tunnel.HandlerTurn | internal/control/shell_tunnel.go:187-356 | a handler's critical sections do to the object's table what its step does to the machine's |
| Tunnel.SessionTurn | internal/control/shell_tunnel.go:220-235 | so does a session's drop on its way out |
| Tunnel.NoSessionLeaks | internal/control/shell_tunnel.go:187-262 | under every interleaving, with fresh ids or whenever no step takes an entry a session depends on, each started session is closed, ended, in its map, or held by a handler about to insert or close it |
| Tunnel.NothingSurvivesCloseAll | internal/control/shell_tunnel.go:163-183 | after CloseAll both maps are empty forever; once the remaining handlers finish, every session is closed or has ended |
| Tunnel.FrameGrammar | internal/control/shell_tunnel.go:213-252 | the frames of any stream are Output* then at most one Exit or Error, or Line* then at most one End |
| Tunnel.OutputIsWhatWasRead | internal/shellbridge/shell.go:260-296 | the data frames of a stream are exactly what its reads brought on each pipe, by the events alone: all chunks of a shell, also the one that comes with the end, and all lines a logs session read before Close, in order, but for the last while it waits to be sent; a pump leaves only when nothing waits |
| Tunnel.PumpFinishes | internal/shellbridge/shell.go:268-292 | once every pipe is at its end and all it brought is sent, the session ends at the next step, silently if it was closed, and otherwise sends its final frame |
| Tunnel.OutcomeIsTold | internal/shellbridge/shell.go:272-290 | a shell that ended normally is reported as exited, one that ended abnormally as an error, a log as ended |
| Tunnel.EveryOpenIsAnswered | internal/control/shell_tunnel.go:187-262 | an open whose handler has finished has started a session on its stream, or its peer has been sent the one refusal of its kind |
| Tunnel.OpenIsDecided | internal/control/shell_tunnel.go:187-202 | an open without a stream id, or after CloseAll, is answered with the refusal; one of an id in use is dropped without a frame; any other starts a session |
| Tunnel.CloseIsDecided | internal/control/shell_tunnel.go:163-177 | a close takes exactly its stream's entry and has that session to close, nothing if there is none; the first CloseAll takes every entry, later ones nothing |
| Tunnel.NoSessionOnceDisposed | internal/control/shell_tunnel.go:192-196 | after CloseAll no open that has not begun ever starts a session |
| Tunnel.HandlersFinish | internal/control/shell_tunnel.go:163-185 | whatever the ids, a handler that has not finished has a step that brings it nearer to that |
| Tunnel.SilentOnceStopped | internal/shellbridge/shell.go:237-255 | once done is closed no frame of the session is ever sent again |
| Tunnel.NoFinalAfterClose | internal/shellbridge/shell.go:234-236 | a session closed before its pump looked never sends Exit, Error or End |
| Tunnel.StepLeaksNothing | internal/control/shell_tunnel.go:286-370 | no atomic step of any handler, pump or reader loses a session |
| Tunnel.StepKeepsFramed | internal/shellbridge/logs.go:117-136 | no atomic step breaks the order of any stream's frames |
| Tunnel.StepIsFaithful | internal/shellbridge/shell.go:262-271 | no atomic step sends what was not read, drops what was, or reorders it |
| Tunnel.InsertLeaksIff | internal/control/shell_tunnel.go:253-261 | inserting loses a session exactly when the entry was another session's that is not closed, not ended and in no handler's hands |
| Tunnel.DropLeaksIff | internal/control/shell_tunnel.go:360-370 | a session's drop loses a session exactly when the entry it deletes is such another session's |
| Tunnel.StepLeaksIff | internal/control/shell_tunnel.go:187-370 | whatever the ids, an event loses a session exactly when it inserts over, or drops, an entry another session depends on |
| Tunnel.RunLeaksIff | internal/control/shell_tunnel.go:187-370 | over any run, no session is ever lost exactly when no step does so |
| Tunnel.FreshRunSpares | internal/control/shell_tunnel.go:197-202 | in a run with fresh ids no step does so |
| Tunnel.ReusedIdLeaks | internal/control/shell_tunnel.go:197-202 | two opens of one id leave a session neither closed nor ended after CloseAll and every handler are done |
| Tunnel.ReopenedIdLeaks | internal/control/shell_tunnel.go:220-235 | open, end of file, close and open again under one id: the first session's drop loses the second, although both insertions found no entry |
| ProgressLogs.ProgressLog.Append | internal/runtime/progress.go:27-43 | keeps the last 1000 accepted lines, offers each to every follower, and is a no-op once terminal |
| ProgressLogs.ProgressLog.OfferAll | internal/runtime/progress.go:37-42 | every subscribed channel with room gets the line; none is closed |
| ProgressLogs.ProgressLog.CloseSubs | internal/runtime/progress.go:70-75 | every subscribed channel is closed, once, and no other changes |
| ProgressLogs.ProgressLog.MarkContainerStarted | internal/runtime/progress.go:47-56 | latches the first terminal event; what channels hold can still be received |
| ProgressLogs.ProgressLog.MarkFailed | internal/runtime/progress.go:59-68 | likewise for failure |
| ProgressLogs.ProgressLog.Subscribe | internal/runtime/progress.go:80-91 | replays the last 1000 accepted lines and hands out a channel that follows from here, closed if already terminal |
| ProgressLogs.FollowsOffer | internal/runtime/progress.go:37-42 | a non-blocking send keeps a follower's lines an in-order subsequence, complete while its channel was never full |
| ProgressLogs.CaughtUp | internal/runtime/progress.go:27-43 | a drained follower has seen a subsequence of the lines since it subscribed, all of them if its channel was never full |
| ProgressStreams.Stream | internal/shellbridge/progress_logs.go:23-62 | under every interleaving with the loader: replay, then the followed lines, then the container's own exactly when the first terminal event was its start; failure reported exactly when that was failure; a stream still following has not had as many turns since the terminal event as its channel holds lines |
| ProgressStreams.FollowerTurn | internal/shellbridge/progress_logs.go:40-49 | a queued line is delivered; on an empty channel the stream ends exactly when it is closed |
| ProgressStreams.Follow | internal/shellbridge/progress_logs.go:39-50 | the lines passed on are exactly those received; the loop ends only on a closed, drained channel or a cancelled context |
| ProgressStreams.FirstEventDecides | internal/runtime/progress.go:47-68 | of all terminal turns only the first counts |
| ProgressStreams.NeverJustEnded | internal/shellbridge/progress_logs.go:56-57 | "deployment ended" is unreachable unless a container was started under the empty id |
| StaticAllocation.AllocateStatic | internal/dispatcher/gpuallocator.go:36-105 | rejects exactly when the floors exceed the pool; otherwise uses up the pool exactly, and distinctly named agents get equal shares if every floor fits one, else floors above that are met exactly and the others split what the floors leave over equally; nothing for no agents |
| StaticAllocation.SharesAreFair | internal/dispatcher/gpuallocator.go:54-99 | the shares are those, said from the floors, the pool and the number of agents alone |
| StaticAllocation.OverflowsIff | internal/dispatcher/gpuallocator.go:59-67 | equal shares raised to the floors exceed the pool exactly when some floor exceeds an equal share |
| StaticAllocation.ExhaustsPool | internal/dispatcher/gpuallocator.go:54-99 | the shares of an admitted plan sum to the pool, in both branches |
| StaticAllocation.FloorsKept | internal/dispatcher/gpuallocator.go:54-99 | no agent gets less than its floor |
| StaticAllocation.OverflowHasReceivers | internal/dispatcher/gpuallocator.go:66-83 | redistribution always has a receiver, and the receivers' mean share is strictly below the equal share |
| StaticAllocation.PlanOrderIrrelevant | internal/dispatcher/gpuallocator.go:36-105 | permuting distinctly named agents changes neither the allocations map nor the total |
| StaticAllocation.RedistributeSlack | internal/dispatcher/gpuallocator.go:66-93 | the overflow branch grants floors plus equal slack and totals the pool |
| GpuAllocation.GPUAllocator.Allocate | internal/dispatcher/gpuallocator.go:131-209 | the result is a permutation of the request, or of all devices once each for an empty one on a host of known size, ascending by load when admitted and the request itself otherwise; it is what is stored, other holders unchanged, and held lists stay non-empty |
| GpuAllocation.RequestGrants | internal/dispatcher/gpuallocator.go:132-140 | a caller gets the devices it names; all of them, once each, if it names none and their number is known; otherwise none |
| GpuAllocation.LoadsAreShares | internal/dispatcher/gpuallocator.go:187-196 | a device's load is the sum of what each other holder puts on it: its share, divided equally over the devices it holds |
| GpuAllocation.GPUAllocator.Release | internal/dispatcher/gpuallocator.go:212-216 | drops exactly that holder |
| GpuAllocation.GPUAllocator.Used | internal/dispatcher/gpuallocator.go:219-234 | every held device once, in increasing order |
| GpuAllocation.ChooseDevices | internal/dispatcher/gpuallocator.go:143-208 | pool size, admission and choice are functions of the held map, the id and the request, whatever order the map is visited in |
| GpuAllocation.SortByLoad | internal/dispatcher/gpuallocator.go:199-202 | a permutation in ascending order of load |
| GpuAllocation.MaxIndex | internal/dispatcher/gpuallocator.go:158-170 | the largest index requested or held, at least 0 |
| GpuAllocation.LoadsAccountForPool | internal/dispatcher/gpuallocator.go:187-196 | when admitted, the per-device loads sum to the pool minus the caller's own share |
| GpuAllocation.AgentOrderIrrelevant | internal/dispatcher/gpuallocator.go:144-152 | floors and shares do not depend on the order the held map is visited in |
| GpuAllocation.LoadOrderIrrelevant | internal/dispatcher/gpuallocator.go:187-196 | nor does any device's load |
| GpuAllocation.AdmissionCountsDevices | internal/dispatcher/gpuallocator.go:150-173 | admission compares the number of held and requested slots with the pool size |
| GpuAllocation.ValidateGPUIndices | internal/dispatcher/dispatcher.go:81-91 | accepts exactly the lists within range, and everything when no device count is known |
| GpuAllocation.Dispatcher.LoadModel | internal/dispatcher/dispatcher.go:99-150 | an unknown recipe or rejected indices change nothing; otherwise the deployment, or each of its two roles, is given devices as Allocate promises, every held index staying in range; after a failed call every holder has the devices it had exactly when the recipe is unknown, the indices are rejected, or each id allocated for asks for nothing or for just the devices it holds; a successful role has the devices of its own list, else of the shared one, else all |
| GpuAllocation.Dispatcher.LoadDeploymentGroup | internal/dispatcher/dispatcher.go:154-196 | both role lists, with their fallback, are checked before either is given devices; each role gets its devices in load order, decode after prefill |
| GpuAllocation.GroupIdleIff | internal/dispatcher/dispatcher.go:154-196 | after a group request every holder has the devices it had exactly when a list is rejected or each role asks for nothing or for just the devices it already holds |
| GpuAllocation.FailedLoadsKeepDevices | internal/dispatcher/dispatcher.go:119-148 | a single load that fails in the runtime and a group load that fails in the recipe both keep the devices they were given |
| GpuAllocation.Dispatcher.ReleaseAll | internal/dispatcher/dispatcher.go:215-219 | gives back the devices of the deployment and of both its roles, and no others |
| Unloading.UnloadModel | internal/dispatcher/dispatcher.go:211-229 | always reports success with the devices given back and the group forgotten; the single record is gone too, or, if Docker refused, Stopping on its container with nothing else changed |
| Unloading.RunningCanBeRefused | internal/runtime/runtime.go:347-354 | for any running deployment there is such a refusal, with its container still running |
| GpuAllocation.StaysInRange | internal/dispatcher/dispatcher.go:116-121 | allocating a validated request keeps every held index in range |
| Histogram.PeakHistogram.BucketIndex | internal/metrics/histogram.go:28-35 | every earlier limit is below the value, and the bucket's own is not unless it is the last; that is the bucket the counts are stated with |
| Histogram.BucketIsFirst | internal/metrics/histogram.go:28-35 | a bucket is the value's exactly when it is the first whose limit is not below the value, or the last if there is none |
| Histogram.PeakHistogram.Observe | internal/metrics/histogram.go:37-54 | with the head wrapped, the ring read from its oldest slot is always the last len(buffer) values and the buckets count exactly those |
| Histogram.PeakHistogram.ObserveAsWritten | internal/metrics/histogram.go:37-54 | as written, succeeds exactly for the first len(buffer) values since construction or Reset and panics on the next |
| Histogram.SecondSamplePanics | internal/metrics/histogram.go:45-48 | one slot, two samples: the second Observe panics |
| Histogram.PeakHistogram.Snapshot | internal/metrics/histogram.go:56-87 | the results are the bucket limits of the ceil(95%)-th and ceil(98%)-th smallest retained values, in order for ascending limits; zero when empty |
| Histogram.PeakHistogram.Scan | internal/metrics/histogram.go:68-78 | finds for each target the first bucket at which the running count reaches it |
| Histogram.PeakHistogram.Reset | internal/metrics/histogram.go:91-99 | an empty histogram, as after construction |
| Histogram.PeakHistogram.BucketsAddUp | internal/metrics/histogram.go:13-17 | bucket counts are never negative and add up to the number of retained samples |
| Histogram.FirstBucketReachingRank | internal/metrics/histogram.go:68-85 | that bucket's limit is the order statistic of the samples at that rank |
| Histogram.OrderStatisticMonotone | internal/metrics/histogram.go:65-85 | with ascending limits a higher rank never yields a smaller result |
| Histogram.SlideCounts | internal/metrics/histogram.go:48-51 | the incremental count updates equal a recount of the slid window |
| Histogram.RankIsCeiling | internal/metrics/histogram.go:65-66 | the integer formula is the rounded-up percentage, within 1..n |
| LineSplitting.ForwardLines | internal/shellbridge/logs.go:223-250 | however the stream is cut into reads, empty ones and data with the error included: while it is live exactly its complete lines have been emitted, and once it ends the lines of the whole stream |
| LineSplitting.SplitChunk | internal/shellbridge/logs.go:229-241 | complete lines and pending rest of one chunk |
| LineSplitting.LinesRebuild | internal/shellbridge/logs.go:223-250 | terminating each emitted line by a newline rebuilds the input up to one final newline; no line contains one |
| LineSplitting.UnlinesSplit | internal/shellbridge/logs.go:223-250 | newline-free lines survive being joined and split again |
| LineSplitting.ScanResume | internal/shellbridge/logs.go:229-241 | splitting can be resumed from the pending partial line |
| Dedup.Cache.Run | internal/control/dedup.go:30-54 | answers like a cache that never forgets; after an execution no entry is older than its expiry plus ttl |
| Dedup.Cache.CollectExpired | internal/control/dedup.go:46-51 | drops exactly the entries that expired more than ttl ago, which no later answer could use |
| Dedup.ServeAll | internal/control/dedup.go:30-54 | over any request sequence with a non-decreasing clock all answers are those of the never-forgetting cache |
| Dedup.ExecutionsApart | internal/control/dedup.go:35-45 | two executions of one non-empty id start at least ttl apart |
| Dedup.HitRepeatsLatest | internal/control/dedup.go:36-39 | a hit repeats the latest execution's result, less than ttl after it started; the empty id never hits |
| Dedup.MissAnswersItself | internal/control/dedup.go:31-34 | an executed command is answered with its own result, and the empty id is always executed |
| OverlappingRuns.RepeatsIffUnsafe | internal/control/dedup.go:35-53 | over every interleaving of callers with a non-decreasing clock, an id is executed twice within ttl exactly when an executing lookup found it running since less than ttl, or missed an entry a late store had displaced |
| OverlappingRuns.SerialRunsApart | internal/control/dedup.go:35-53 | if no lookup of an id falls between an executing lookup of it and its store, its executions start at least ttl apart, whatever other ids do |
| OverlappingRuns.HitIsRecent | internal/control/dedup.go:35-39 | over every interleaving a hit repeats the result of an execution of that id that began less than ttl before |
| OverlappingRuns.StoreCollects | internal/control/dedup.go:44-51 | a store leaves its own entry and those that did not expire more than ttl before it began, unchanged |
| OverlappingRuns.OverlappingLookup | internal/control/dedup.go:35-42 | a lookup of an id running since less than ttl executes it again, within ttl, exactly when no live entry is stored |
| OverlappingRuns.OverlapExecutesTwice | internal/control/dedup.go:35-45 | two callers that look up before either stores execute the command twice at the same instant |
| OverlappingRuns.LateStoreExecutesTwice | internal/control/dedup.go:44-52 | a run that outlasts ttl stores over a younger result, and a later caller that overlaps nobody executes again one tick after the last execution |
| PullProgress.Tracker.Update | internal/runtime/dockerclient/pull_progress.go:55-89 | each message changes only the layers it names and emits at most one line, of its own phase and showing that phase's aggregate; the extraction line stays within 4 points of the aggregate |
| PullProgress.Tracker.OnDownload | internal/runtime/dockerclient/pull_progress.go:57-67 | right after a download message the download line is within 4 points too, and 100 is never held back |
| PullProgress.Phase.FinalizeLayer | internal/runtime/dockerclient/pull_progress.go:92-101 | pins a known layer to its total, ignores an unknown or empty id |
| PullProgress.Phase.Aggregate | internal/runtime/dockerclient/pull_progress.go:113-117 | the int64 sums, whatever order the layers are visited in |
| PullProgress.Phase.EmitPhase | internal/runtime/dockerclient/pull_progress.go:107-135 | a line is emitted exactly when due and shows the totals; afterwards what was last shown is within 4 points of the aggregate, equal to it at 100, and younger than minGap |
| PullProgress.TrackAll | internal/runtime/dockerclient/pull_progress.go:55-135 | over any message stream and for both phases: consecutive lines closer than minGap differ by 5 points or reach 100, and right after a message of the phase the last one is within 4 points of the aggregate and younger than minGap; the extraction line stays within 4 points throughout |
| PullProgress.LayerShowsLastReport | internal/runtime/dockerclient/pull_progress.go:56-88 | a layer of either phase is at what the last message about it reported |
| PullProgress.FinishedPullIsHundred | internal/runtime/dockerclient/pull_progress.go:73-101 | once every layer seen has completed, the extraction aggregate is exactly 100 |
| PullProgress.PercentageIsTrue | internal/runtime/dockerclient/pull_progress.go:113-124 | for byte counts that fit, the percentage is the exact quotient capped at 100, and 100 exactly when everything is done |

## Left out

- Real time, timeouts and contexts: a bounded wait or a cancelled context is a choice of the environment; the 2 s wait of Close may end at any moment.
- The Docker SDK, HTTP, WebSockets, JSON, log wording, recipes, telemetry, metrics counters and configuration.
- internal/control/channel.go: only its role as the scheduler that runs every frame in its own goroutine and makes one tunnel per connection.
- IEEE rounding: shares, floors and loads are real numbers, so sums are exact.
- Container ids, container names, deployment ids and stream ids of the lifecycle and tunnel models are numbers, with 0 for the empty string, because they are only ever compared; "missing stream_id" is id 0.
- DockerEngine.Docker.Create: ids are never reused, as with the real engine; the fake derives them from the name.
- Containers that exit by themselves, and containers not created by the worker.
- Worker.Serve: commands do not overlap; overlapping loads of one id are the subject of OverlappingLoads, where cleanup calls succeed and nobody unloads.
- Worker.Serve: runs in which two deployments, or a deployment and a group replica, use one container name; what one load then breaks is said by LoadModel and GroupsSurviveIff.
- GroupRuntime.GroupTable.LoadDeploymentGroup: at least one prefill replica, because the source indexes the first one.
- The runtime's two maps are split over the classes Runtime and GroupTable, which share one Docker; their common mutex is not modelled where calls do not overlap.
- OverlappingLoads: setContainerID and setState(Starting) are one step, as are setState(Failed) and drop.
- Tunnel: WriteInput and Resize change no modelled state; a malformed frame body only sends a refusal for the empty stream id. Sending never blocks and the order of frames of different streams on the wire is not modelled.
- Tunnel: sessions and pumps are values of the state machine rather than objects, since their steps interleave.
- ProgressLogs: channels are numbered values in a map rather than references.
- Histogram.PeakHistogram.constructor: asks for at least one slot and one limit; with none of either the source's Observe indexes out of range on its first call.
- Histogram: bucket counts and totals are unbounded, not int64.
- PullProgress.PercentageIsTrue: for non-negative counts whose total times 100 fits an int64; beyond that Aggregate and EmitPhase still give the wrapped arithmetic.
- PullProgress.Phase.EmitPhase: asks for a clock at least minGap past the zero time, which makes the first line due.
- GpuAllocation.SortByLoad: an insertion sort stands for the library sort; only order and permutation are used.
- GpuAllocation: that the stored list and the returned one do not share memory is implicit in values.
- GpuAllocation.Dispatcher.LoadModel: what the recipe table, the recipe and the runtime answer are inputs; the runtime's own loads are the subject of Runtime and GroupTable.
- Dispatcher without an allocator, the proxy registry and the metrics it drives.
- OverlappingRuns: a caller reads the clock and looks up in one step, so lookups happen in the order of their times.
