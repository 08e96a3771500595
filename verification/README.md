# Explorer platform: a verified model

This project models the parts of the Explorer platform (a control plane and a node agent for
checkpointed game servers) in which state is shared, retried or rebuilt, and proves what they
guarantee. `dafny verify dfyconfig.toml` checks all of it.

**The node** (`Status`, `PortAllocator`, `NodeProtocol`, `NodeSafety`, `NodeTheorems`, `NodePorts`,
`NodeCleanup`, `NodeTicks`, `NodeProgress`, `NodeWitnesses`, `Reconciler`, `Checkpoint`, `CheckpointSteps`,
`Reports`).
The reconciler, stop requests, checkpoint jobs and the garbage collector share one status store and one port allocator.
`NodeProtocol` is a state machine over their single shared-memory accesses together with the rows the
control plane keeps; an event is one access and the answer of the external call it makes. Theorems about
runs quantify over all event sequences, so over all schedules and all failures. `Reconciler` and
`Checkpoint` are the same code in imperative form; each access of `Reconciler` is proved to be a step of
the machine, and `CheckpointSteps` proves the checkpoint job and the collector's sweep to be paths of it.

**Versions and blobs** (`Paths`, `Diff`, `Blob`, `ImageBuild`, `VersionHistory`, with `Order` for orders
and sorting). Manifests are cleaned, compared and stored; a build unpacks a delta and fetches the rest
from a content-addressed store.

**Joined rows and pages** (`Collect`, `Grouping`, `Pages`). Flat left-join rows are folded back into
nested chunks, and list endpoints page through them.

**Build pipeline and archive** (`Pipeline`, `PipelineSafety`, `PipelineTheorems`, `PipelineRequests`,
`BuildJobs`, `ArchivePass`, `PassSteps`). `Pipeline` interleaves requests, retrying build jobs and any number of archive
passes; `BuildJobs` shows the two workers taking its steps; `ArchivePass` is one pass over the database,
and `PassSteps` proves it to be a path of the machine.

**CNI** (`Datapath`, `PortReuse`). The BPF map entries written by ADD and deleted by DEL, and what the DEL of
one instance's pod does to another instance that got its port from the node.

## Where the code does not do what one would expect

Each of these is stated with the exact condition.

- A stop request that names a checkpoint the store still has dereferences a nil status and ends the node
  agent (platformd/workload/server.go:78, platformd/status/store.go:65-66). So does a checkpoint job whose
  first write finds the entry that a stop request left after the job's id was handed out and before it was
  written (platformd/checkpoint/service.go:86-99). Over all runs the node crashes if and only if one of the
  two happened (`NodeTheorems.CrashedIffClashed`; `NodeWitnesses.StopCrashes` and
  `NodeWitnesses.FirstWriteCrashes` are such runs).
- `View` of the status store copies the outer map only (platformd/status/store.go:101-109), so a view
  taken before a stop request shows its effect. A terminal status can therefore be dropped without the
  control plane having been told: `NodeWitnesses.StatusLost` is such a run, and
  `NodeCleanup.DroppedUnreportedIff` says it happens exactly when the stop was handled after the report
  item was built.
- Ports are exclusive in every run if and only if the range starts above 0
  (`NodeWitnesses.PortsExclusiveIff`): 0 means "no port" in the store, and the collector frees it.
- Running instances are shown with the port they run on in every run if and only if the range starts above
  0 or holds nothing but 0 (`NodeWitnesses.RunningPortTrueIff`, `NodeWitnesses.WrongPortShown`): writing
  port 0 leaves the port of an earlier attempt in the store.
- A collection pass goes on to remove the pod of an unfinished checkpoint if and only if the checkpoint
  started after the pass took its view and its pod was there when the pass listed them
  (`NodeCleanup.RemovesRunningIff`; `NodeWitnesses.RunningPodRemoved` and `NodeWitnesses.RunningPodSpared`).
- A failed creation attempt frees its port before its pod is removed (platformd/reconciler.go:331-340). The
  CNI DEL of that pod finds the map entries by port, so it deletes those of another instance exactly when
  that one has got the port meanwhile (`PortReuse.TearDownSparesIff`), which can happen if and only if the
  range has a port other than 0 (`PortReuse.ReusedIff`, `Datapath.DelAndAdd`).
- A checkpoint ends as completed without a pushed image exactly when one of the calls between the
  container being ready and the checkpoint proper fails (`Checkpoint.Run`, with
  `Checkpoint.CompletedWithoutPush` for an input).
- A version in a building status is without a job if and only if a job of it gave up and could not record
  that, and then it stays so for ever (`PipelineTheorems.StuckIff`, `PipelineTheorems.StuckForever`;
  `PipelineTheorems.StuckRun` is such a run). A checkpoint job whose last attempt is cancelled while polling
  always ends so, because the failure is recorded through the cancelled context
  (`BuildJobs.CheckpointWork`, `BuildJobs.EndedUnrecorded`).
- The archive worker never reads a chunk's deletion mark (`ArchivePass.ChunkMarkIgnored`,
  `ArchivePass.UnmarkedArchived`).
- A version built before its predecessor lacks unchanged blobs unless its own tarball has them
  (`VersionHistory.BuiltFirstIff`).
- A file not at its start is stored whole under the hash of its tail, which breaks content addressing unless
  the hashes collide or the key is taken (`Blob.PutAnywhere`, `Blob.MidwayKey`).
- DNAT targets carry the host interface exactly when its index is below 256 (`Datapath.TargetIndexIff`).
- ADD then DEL restores the BPF maps exactly when the container's keys were unused and its address, as a
  key, is not its port; where they are equal the DEL stops half-way (`Datapath.AddThenDel`,
  `Datapath.TargetLeftBehind`). In that case alone it restores maps that already held the container's own
  leftovers.

## What is assumed

- Node: UUIDs are fresh, so nobody names one before it is handed out; the node does not restart; collection passes do not overlap; a failed report call has been applied fully, up to the
  deletes, or not at all when it returns; the two bulk statements are each all or nothing; the
  unsynchronised `attempts` map behaves as if accessed atomically per id. The machine also lets the control
  plane set an instance to DELETING at any time: the node handles that state (platformd/reconciler.go:222-224),
  but nothing in the repository writes it.
- Pipeline: request handlers and transactions are atomic; a database write that returns an error was not
  applied; a job is not run again after its last status write.
- Versions: nothing is assumed of the hash function or the tree hash, both are parameters. The file system
  below a server root is a map from paths to contents.
- Queries do what their SQL says; clocks, random draws and call outcomes are parameters.

## Model

| member | source | states |
|---|---|---|
| `Status.MemStore.constructor` | platformd/status/store.go:33-42 | a new store is empty |
| `Status.MemStore.Update` | platformd/status/store.go:44-83 | a new entry is stored as given, an existing one takes over the set fields in place: the entry's cell does not move, so earlier views see the write; every update is logged |
| `Status.MergeMeans` | platformd/status/store.go:54-82 | field by field, an update leaves what it sets and otherwise what was there |
| `Status.MemStore.TryUpdate` | platformd/status/store.go:44-83 | panics exactly when the entry has a part the update lacks, and then has written nothing |
| `Status.MemStore.Get` | platformd/status/store.go:85-92 | the caller gets the live cell |
| `Status.MemStore.Del` | platformd/status/store.go:94-99 | exactly this id goes |
| `Status.MemStore.View` | platformd/status/store.go:101-109 | the map of live cells |
| `Status.ViewObservesLaterUpdate` | platformd/status/store.go:44-109 | a workload entry seen in an earlier view reads Deleted after a stop request: the view is no snapshot |
| `PortAllocator.PortAllocator.constructor` | platformd/workload/port_allocator.go:38-44 | no port is taken |
| `PortAllocator.PortAllocator.Allocate` | platformd/workload/port_allocator.go:46-69 | the first of five drawn ports that was free, now taken; fails exactly when all five were taken, and then changes nothing |
| `PortAllocator.PortAllocator.Free` | platformd/workload/port_allocator.go:71-75 | the port is free, freeing a free one does nothing |
| `Reconciler.Reconciler.Reconcile` | platformd/reconciler.go:201-249 | for every state and every answer of the calls what is left in store, counters, workloads and allocator: a healthy or unreachable running instance is left alone, an unhealthy or unwanted one becomes Deleted once removed or, save after a failed creation, not found, a pending one is given up after five attempts, skipped or tried; all of it a legal path of the machine, and other ids are untouched |
| `Reconciler.Reconciler.HandleCreation` | platformd/reconciler.go:251-353 | given up, skipped, or tried: without a free port the attempt counts, else the workload runs and is recorded on the first free port, or the port is free again and the attempt counts |
| `Reconciler.Reconciler.HandleRemoval` | platformd/reconciler.go:355-408 | Deleted when removed, and when not found except for a failed creation; otherwise nothing changes |
| `Reconciler.Reconciler.DrawPort` | platformd/reconciler.go:290-293 | drawing a port, or failing to and counting the attempt, is the machine's step |
| `Reconciler.Reconciler.GiveBack` | platformd/reconciler.go:327-331 | freeing the port, before the failed pod is removed, is the machine's step |
| `Reconciler.Reconciler.RemoveFailed` | platformd/reconciler.go:338-344 | removing the failed pod, successfully or not, and counting the attempt is the machine's step |
| `NodeSafety.AdvanceFine` | platformd/reconciler.go:201-353 | a goroutine step keeps the invariant of its instance and never dereferences a missing status |
| `NodeSafety.TickFine` | platformd/reconciler.go:130-199 | discovering, viewing, building, reporting and forgetting keep the invariant of every id |
| `NodeSafety.RequestFine` | platformd/workload/server.go:64-85 | stop requests for any id, a checkpoint's too, keep the invariant of every id whenever they come, and crash the node exactly when the store has a checkpoint under the id; so do new instances, and DELETING if something sets it |
| `NodeSafety.JobFine` | platformd/checkpoint/service.go:213-310 | a checkpoint job's steps, from the id being handed out, keep the invariant of every id, and crash the node exactly when the first write meets a workload entry |
| `NodeSafety.GcFine` | platformd/checkpoint/service.go:107-211 | a collection's steps keep the invariant of every id |
| `NodeTheorems.RunInv` | platformd/reconciler.go:130-199 | the invariant of every id holds in every state of every run, also in the state a run crashes in |
| `NodeTheorems.CrashedIffClashed` | platformd/status/store.go:54-67 | over whole runs: the node crashes if and only if some stop request, at its time, named a checkpoint in the store, or some job wrote its first status while a stop request for its id stood; no other update meets an entry of the wrong kind and no view leads to a vanished entry |
| `NodeTheorems.CrashedIff` | platformd/status/store.go:54-67 | the same by the last step and the entry it meets |
| `NodeTheorems.StandsMeans` | platformd/checkpoint/service.go:86-99 | in every run there is an entry under an id that is handed out and not yet written exactly when it was stopped since and that is not forgotten |
| `NodeWitnesses.StopCrashes` | platformd/workload/server.go:64-85 | hand out a checkpoint's id, let it write its first status, stop it as a workload: the node crashes |
| `NodeWitnesses.FirstWriteCrashes` | platformd/checkpoint/service.go:86-99 | hand out a checkpoint's id, stop it, let the job write its first status: the node crashes though no stop named a stored checkpoint |
| `NodeTheorems.AtMostOneRun` | platformd/reconciler.go:201-353 | in every run each instance has at most five failed creation attempts and at most one successful RunWorkload; the recorded count is the number of failures |
| `NodeTheorems.PortsExclusive` | platformd/reconciler.go:290-331 | with a positive lower bound, in every reachable state running workloads, attempts in flight and checkpoints not yet collected hold pairwise distinct allocated ports |
| `NodeWitnesses.PortsExclusiveIff` | cmd/platformd/main.go:37-38 | exclusivity holds in every run if and only if the port range starts above 0 |
| `NodeWitnesses.PortZeroShared` | platformd/checkpoint/service.go:126-133 | a run in which two instances hold port 0, freed for a checkpoint that never drew one |
| `NodePorts.RunningPortTrue` | platformd/reconciler.go:298-352 | for a range that starts above 0 or holds only 0, in every reachable state a row that says RUNNING, a report item that says so and a running store entry all carry the port the workload runs on |
| `NodeWitnesses.RunningPortTrueIff` | cmd/platformd/main.go:37-38 | it holds in every run if and only if the range starts above 0 or holds only 0 |
| `NodeWitnesses.WrongPortShown` | platformd/status/store.go:54-63 | for every other range a run in which the instance runs on 0 and the store says 1 |
| `NodeCleanup.DropsOnlyOwn` | platformd/reconciler.go:182-195 | an entry leaves the store only as a terminal workload dropped by the reconciler, or as a checkpoint past retention dropped by the collector |
| `NodeCleanup.FinishedReadable` | platformd/checkpoint/service.go:107-133 | a job's final status is readable and unchanged in state, message, completion time and port for the whole retention period, whatever happens in between |
| `NodeCleanup.FreedOnce` | platformd/checkpoint/service.go:118-133 | in every run the collector frees a job's port at most once, after the job finished and its status is gone |
| `NodeCleanup.RemovesRunningIff` | platformd/checkpoint/service.go:139-208 | a pass that is removing pods takes that of an unfinished job if and only if the job started after the view and its pod was there at the list |
| `NodeCleanup.DroppedUnreportedIff` | platformd/reconciler.go:155-195 | an entry whose report was not terminal is dropped if and only if a stop was handled since its item was built; a row reported deleted is gone, another shows the reported state or DELETING |
| `NodeCleanup.NotedMeans` | platformd/reconciler.go:155-195 | the ids noted as stopped are those with a stop request since their item was built, in every run |
| `NodeCleanup.SinceMeans` | platformd/checkpoint/service.go:107-116 | the jobs noted as started since the view are those with a start after the last view, in every run |
| `NodeCleanup.ListedMeans` | platformd/checkpoint/service.go:171-180 | a pod that is there is on the list of the pass exactly when it had been run by the time of the list, in every run |
| `NodeWitnesses.StatusLost` | platformd/workload/server.go:64-85 | a run in which the instance stays RUNNING at the control plane while the node has forgotten it |
| `NodeTicks.DiscoversAll` | platformd/reconciler.go:130-153 | a tick starts on exactly the node's instances, each in the state the control plane has |
| `NodeTicks.ItemTells` | platformd/reconciler.go:155-175 | a report item carries the entry's port and its state by the control plane's name |
| `NodeTicks.ReportsAll` | platformd/reconciler.go:155-175 | in every run the report of a tick covers exactly the workloads its view had |
| `NodeTicks.ReportedForgotten` | platformd/reconciler.go:182-195 | in every run what was reported as deleted or failed is out of the store when its turn in the cleanup is over, unless it was stopped after its item was built or a checkpoint started under the id |
| `NodeWitnesses.RunningPodRemoved` | platformd/checkpoint/service.go:171-208 | a run in which a pass is about to remove the pod of a running job |
| `NodeWitnesses.RunningPodSpared` | platformd/checkpoint/service.go:171-208 | a run in which the same job runs its pod after the list and is spared |
| `NodeProgress.NeedsFewer` | platformd/reconciler.go:130-264 | the error-free ticks a never-starting instance still needs never rise in any continuation and fall with every tick that ends without an error |
| `NodeProgress.GoneAfterSevenTicks` | platformd/reconciler.go:130-264 | an instance whose runs fail and whose removals succeed, requested at any moment, is gone from rows and store once seven error-free ticks that began after the request have ended, in every interleaving and at every later point |
| `Reports.InstanceTable.ApplyStatusReports` | controlplane/postgres/instance.go:267-312 | on success the rows are as the reports ask, on failure the updates are in or nothing is |
| `Reports.InstanceTable.BulkUpdate` | controlplane/postgres/instance.go:294-297 | each row carries its last reported state and port, unknown ids match nothing |
| `Reports.InstanceTable.BulkDelete` | controlplane/postgres/instance.go:299-304 | exactly the named rows go |
| `Reports.SplitReports` | controlplane/postgres/instance.go:273-283 | updating with the one batch and deleting with the other is what the reports ask for |
| `Reports.ReportsMean` | controlplane/postgres/instance.go:267-312 | a row goes exactly when some report calls it deleted; one that stays has the state and port of the last report about it |
| `Reports.BatchIsApply` | controlplane/postgres/instance.go:267-312 | for any order of the batch: reported-deleted rows are absent, other reported rows carry state and port, the rest is unchanged; this is the step the machine takes |
| `Checkpoint.Run` | platformd/checkpoint/service.go:213-310 | panics exactly when an entry was left under the id; on every other exit path what the store logged is exactly one running-to-final transition with a completion time; each final state exactly for the calls that fail; the message is empty exactly when the image was pushed; a drawn port stays allocated and is in the status |
| `Checkpoint.Work` | platformd/checkpoint/service.go:240-384 | the final state from the calls spelled out, for every combination of failing ones; the only write is the port, saved before the pod runs |
| `Checkpoint.Proceed` | platformd/checkpoint/service.go:240-310 | the same for the calls alone, with a message that names the first failing one |
| `Checkpoint.Finish` | platformd/checkpoint/service.go:225-238 | the deferred update is one write, the final one, and keeps the port |
| `Checkpoint.CompletedWithoutPush` | platformd/checkpoint/service.go:263-285 | a job that only fails to read the container's info ends as completed with nothing pushed |
| `CheckpointSteps.JobIsPath` | platformd/checkpoint/service.go:213-310 | for all outcomes of the calls the job is a path of enabled steps of the machine that writes the same statuses in the same order |
| `CheckpointSteps.PanicIsPath` | platformd/checkpoint/service.go:213-221 | a job whose id was stopped first is the one step that crashes the machine |
| `CheckpointSteps.RunInNode` | platformd/checkpoint/service.go:213-310 | running the job on a node's store and allocator is such a path, whatever was left under its id: same log, same store, same allocator, and a crash exactly when the code panics |
| `Checkpoint.Sweep` | platformd/checkpoint/service.go:107-137 | for every order of the walk: a status goes exactly when its completion time is more than the retention period ago, and gives back its port; all else stays as it is, and exactly the running checkpoints are kept |
| `CheckpointSteps.SweepIsPath` | platformd/checkpoint/service.go:107-137 | in whatever order the view is walked, the sweep is a path of enabled steps of the machine |
| `CheckpointSteps.SweepInNode` | platformd/checkpoint/service.go:107-137 | sweeping a node's store and allocator is such a path: same store, allocator and checkpoints to keep |
| `Checkpoint.RemoveAllBut` | platformd/checkpoint/service.go:144-208 | what is kept survives, the first failing removal ends the loop, and without one exactly the kept ids are left |
| `Checkpoint.CollectGarbage` | platformd/checkpoint/service.go:107-211 | files and pods of running checkpoints survive every pass, a pass without a failing call removes all others, and which failing calls end it |
| `Paths.CleanIdempotent` | controlplane/chunk/flavor.go:239 | cleaning a cleaned path changes nothing |
| `Paths.CleanRules` | controlplane/chunk/flavor.go:239 | cleaning keeps what a path names: ".", doubled separators and a name followed by ".." can be dropped without changing the result |
| `Paths.AcceptedIff` | controlplane/chunk/flavor.go:239-250 | a path is accepted exactly when it is relative, never climbs above its root and ends strictly below it |
| `Paths.GoodMeans` | controlplane/chunk/flavor.go:236-259 | an accepted path is exactly a chain of names: non-empty, relative, no empty, "." or ".." component |
| `Paths.CleanFileHashPaths` | controlplane/chunk/flavor.go:236-259 | every acceptable path is cleaned in place, the violations are exactly the bad indexes in order, and none means all paths are good |
| `Paths.RootRoundTrip` | controlplane/worker/create_image.go:230-244 | a good path joined to the server root is /tmp/<job>/files/opt/paper/<path>, and stripping the root once returns it |
| `Paths.RootInjective` | controlplane/worker/create_image.go:243-244 | distinct good paths never meet below the root |
| `Order.Sort` | internal/file/hash.go:85-89 | a permutation with no element below an earlier one, nothing said of equal elements |
| `Order.SortedUnique` | internal/file/hash.go:85-89 | a strictly sorted list is determined by its elements |
| `Order.BeforeIff` | internal/file/hash.go:85-89 | strings compare by their first difference, a proper prefix first |
| `Diff.Index` | controlplane/chunk/flavor.go:160-168 | the last entry for a path counts |
| `Diff.ToMapLast` | controlplane/chunk/flavor.go:160-168 | of the entries for a path the last one counts, for every list |
| `Diff.CompareWithPrevious` | controlplane/chunk/flavor.go:170-186 | for every order of the walk the unchanged, changed and removed files, each once |
| `Diff.FindAdded` | controlplane/chunk/flavor.go:188-196 | for every order of the walk the added files, each once |
| `Diff.SortByPath` | controlplane/chunk/flavor.go:203-208 | the strictly sorted listing |
| `Diff.Compare` | controlplane/chunk/flavor.go:160-226 | an exact diff, and the uploaded map's strictly sorted listing as manifest |
| `Diff.PatchGivesUpload` | controlplane/chunk/flavor.go:170-202 | carrying the diff out on the previous manifest gives the uploaded one |
| `Diff.PartsDisjoint` | controlplane/chunk/flavor.go:170-196 | added, changed, unchanged and removed share no path, the first three make up the upload |
| `Diff.ListingUnique` | controlplane/chunk/flavor.go:218-226 | a manifest has one listing |
| `Diff.CreateFlavorVersion` | controlplane/chunk/flavor.go:83-233 | one equivalence per error, from the first check to the insert; otherwise the diff spelled out and sorted, and a manifest of good paths that equals the client's cleaned list exactly when that list is strictly sorted, and the checked root is that list's |
| `Blob.ComputeHashStr` | internal/file/hash.go:53-65 | hashes what is left of the file and rewinds it, so hashing never truncates a later upload |
| `Blob.ObjectHash` | controlplane/blob/object.go:45-58 | computed at most once; with a cached hash the file is not touched |
| `Blob.Bucket.PutOne` | controlplane/blob/s3.go:133-157 | for any object, position and failure: which key gets which body |
| `Blob.Bucket.PutBlob` | controlplane/blob/s3.go:130-160 | failing midway or not, nothing stored is overwritten or dropped and whatever is new is one object's whole content under its own hash; success stores every object; failure has a cause |
| `Blob.GrowsForEver` | controlplane/blob/s3.go:130-160 | after any sequence of calls every key is the hash of its whole content and everything stored earlier is unchanged |
| `Blob.MidwayKey` | internal/file/hash.go:53-65 | a file of two bytes standing at the second is stored whole under the hash of that one byte |
| `Blob.PutAnywhere` | controlplane/blob/s3.go:133-157 | an upload of an unhashed object from any position keeps the store addressed by content if and only if it stored nothing or the two hashes agree; without collision, for a new key, exactly when the file stood at its start |
| `ImageBuild.Untar` | internal/tarhelper/tar.go:80-129 | regular entries in order below the root, a later one overwriting an earlier one |
| `ImageBuild.UnpackLast` | internal/tarhelper/tar.go:80-129 | under each target the content of the last regular entry written there |
| `ImageBuild.UnpackElsewhere` | internal/tarhelper/tar.go:80-129 | where no regular entry is written, what was there before |
| `ImageBuild.TargetsMean` | internal/tarhelper/tar.go:80-129 | the paths handed on are the targets of the regular entries |
| `ImageBuild.UploadFiles` | controlplane/worker/create_image.go:204-222 | the store grows by the unpacked files only; success has them all |
| `ImageBuild.Wanted` | controlplane/worker/create_image.go:225-241 | the manifest's files that were not unpacked, in order |
| `ImageBuild.DownloadMissing` | controlplane/worker/create_image.go:224-261 | succeeds exactly when every wanted blob is there and fetched, and then has written exactly those |
| `ImageBuild.DeltaPlusStore` | controlplane/worker/create_image.go:153-164 | unpacking a matching delta and fetching the rest by hash gives exactly the manifest's snapshot, over any leftovers of an earlier attempt |
| `ImageBuild.UploadedHashes` | controlplane/worker/create_image.go:158-160 | what the store holds once the delta is uploaded |
| `ImageBuild.Build` | controlplane/worker/create_image.go:132-164 | success means exactly the manifest's files with their hashes and a store complete for the version; without a failing call it succeeds if and only if every file outside the tarball is available |
| `VersionHistory.BuildVersion` | controlplane/worker/create_image.go:132-164 | a build is such a step of a history |
| `VersionHistory.BuiltStaysComplete` | controlplane/worker/create_image.go:158-164 | over any history the store stays addressed by content and complete for every version ever built |
| `VersionHistory.NeverLacksABlob` | controlplane/chunk/flavor.go:160-226 | a version diffed against a built one never fails for want of a blob |
| `VersionHistory.ChainBuilds` | controlplane/worker/create_image.go:143-164 | by induction over the versions, building one after the other without a failing call builds them all |
| `VersionHistory.BuiltFirstIff` | controlplane/worker/create_image.go:224-261 | a version built into an empty store succeeds if and only if each left-out file has the hash of a file in its tarball |
| `VersionHistory.PredecessorSkipped` | controlplane/worker/create_image.go:224-261 | a history in which a version fails for want of an unchanged file |
| `Collect.Gather` | controlplane/postgres/chunk.go:474-520 | whatever the rows' order and repetitions, the four maps hold only what the tables hold and everything the rows say |
| `Collect.AttachFiles` | controlplane/postgres/chunk.go:522-526 | each version gets its files |
| `Collect.AttachVersions` | controlplane/postgres/chunk.go:528-533 | each version goes to the flavor that owns it, once |
| `Collect.SortFlavor` | controlplane/postgres/chunk.go:535-545 | versions newest first, files strictly by path, nothing lost |
| `Collect.TakeFlavors` | controlplane/postgres/chunk.go:547-551 | all flavors, each once, newest first |
| `Collect.CollectChunk` | controlplane/postgres/chunk.go:437-556 | the chunk holds exactly what the tables hold, newest first and files by path; with different creation times it is the only such chunk |
| `Collect.OrderedNewest` | controlplane/postgres/chunk.go:535-552 | its order is latest first by creation time for flavors and versions, and by path for files |
| `Collect.ChunkUnique` | controlplane/postgres/chunk.go:536-552 | the tables determine the chunk when creation times differ |
| `Collect.TablesOf` | controlplane/postgres/schema.sql:630-655 | every chunk with unique ids, at least one file per version and one per path is what some consistent tables hold |
| `Collect.RoundTrip` | controlplane/postgres/chunk.go:437-556 | folding any permutation of a chunk's rows, with any duplicates, gives back the chunk |
| `Grouping.Group` | controlplane/postgres/instance.go:76-83 | rows by id in order of first appearance, each group complete and in order |
| `Grouping.RowsOfAppend` | controlplane/postgres/instance.go:76-83 | a group keeps the order of the rows |
| `Grouping.FirstSeenAppend` | controlplane/postgres/instance.go:76-83 | later rows only add ids behind, each once |
| `Grouping.FirstSeenSorted` | controlplane/postgres/query.sql:58-64 | rows ordered by id give ids in strict order |
| `Grouping.ListChunks` | controlplane/postgres/chunk.go:131-209 | a page comes out complete and in order, chunk by chunk what the tables hold |
| `Pages.FormatParse` | vendor/github.com/google/uuid/uuid.go:68-117 | every UUID is read back from its canonical spelling |
| `Pages.ParseIff` | vendor/github.com/google/uuid/uuid.go:68-117 | parsing accepts exactly the four spellings of a UUID, in either case, and gives its digits |
| `Pages.TokenIff` | controlplane/pagination/pagination.go:30-45 | a token is accepted exactly when it is empty or spells a UUID whose version digit is 7 |
| `Pages.CastIff` | controlplane/postgres/query.sql:50-64 | the query reads an accepted token as the UUID it spells, unless it is a URN or in brackets other than braces |
| `Pages.TokenAccepted` | controlplane/pagination/pagination.go:30-49 | every token handed out for a version 7 UUID is accepted again |
| `Pages.List` | controlplane/chunk/server.go:107-141 | more than 100 per page is refused, and so is every token but the empty one and the spellings of a version 7 UUID; a URN or foreign brackets fail in the query; otherwise the next ids, ten by default, and a token if and only if more follow |
| `Pages.NextPage` | controlplane/instance/server.go:57-91 | a page takes the next ids off what remains |
| `Pages.WalkPages` | controlplane/chunk/server.go:107-141 | walking from the empty token ends and gives the whole list, for every allowed page size |
| `Pages.WalkSorted` | controlplane/postgres/query.sql:50-64 | while ids come and go a walk lists nothing twice and keeps the order |
| `Pages.WalkReal` | controlplane/postgres/query.sql:50-64 | it lists only ids that were there when their page was read |
| `Pages.WalkComplete` | controlplane/postgres/query.sql:50-64 | once it ends it has listed every id that was there all the time |
| `PipelineSafety.StepInv` | controlplane/worker/archive.go:38-162 | every request, job step and archive step, failing reads and moves among them, keeps the invariant, including what passes read earlier |
| `PipelineSafety.PassKept` | controlplane/worker/archive.go:84-162 | what a pass read about a deleted flavor stays true: deletion is final |
| `PipelineTheorems.ArchiveSafe` | controlplane/worker/archive.go:84-162 | in every run no live instance and no queued or running job refers to an archived version, without help from the foreign key |
| `PipelineTheorems.OneActiveJob` | controlplane/chunk/flavor.go:311-352 | in every run at most one active job per version, its kind agreeing with the build status |
| `PipelineTheorems.InsertsOnlyWhenIdle` | controlplane/postgres/flavor.go:456-474 | a build request inserts a job only for a version with none active |
| `PipelineTheorems.RequestGetsWork` | controlplane/chunk/flavor.go:279-352 | an accepted build request leaves a job at work on the version, unless it is completed or stuck |
| `PipelineRequests.BuildDoes` | controlplane/chunk/flavor.go:279-352 | a build request for a deleted flavor or without files changes nothing; another one marks the files and inserts the job its status asks for, or none |
| `PipelineRequests.RunDoes` | controlplane/instance/service.go:107-145 | an instance is created exactly when the flavor is not deleted |
| `PipelineRequests.DeleteDoes` | controlplane/chunk/chunk.go:188-206 | deleting marks a flavor, or a chunk and all its flavors the first time, and removes nothing |
| `PipelineRequests.DeletedIff` | controlplane/worker/archive.go:38-44 | in every run a flavor is marked deleted if and only if a request deleted it or its chunk |
| `PipelineRequests.UploadedIff` | controlplane/chunk/flavor.go:293-306 | in every run a version is marked uploaded if and only if a build request that was let through found its change set |
| `PipelineRequests.JobsUploaded` | controlplane/chunk/flavor.go:293-352 | in every run the version of every job had such a request before: nothing is built without its files |
| `PipelineRequests.PendingUntilAsked` | controlplane/chunk/flavor.go:279-352 | in every run a version nobody asked to build is PENDING, without files and without a job |
| `PipelineRequests.FiveAttempts` | controlplane/server.go:455 | in every run a job is attempted at most five times and gives up only in the fifth |
| `PipelineTheorems.StatusWrites` | controlplane/worker/create_checkpoint.go:81-99 | a failed status is written only after the last attempt, COMPLETED only by a job that saw its checkpoint completed, and COMPLETED is never left |
| `PipelineTheorems.StatusEarned` | controlplane/worker/create_image.go:183-199 | in every run COMPLETED follows a poll that saw it, and CHECKPOINT_BUILD or later follows a push of the base image |
| `PipelineTheorems.StuckIff` | controlplane/worker/create_image.go:91-97 | a version in a building status has an active job if and only if no job of it gave up without recording it |
| `PipelineTheorems.StuckForever` | controlplane/chunk/flavor.go:308-315 | after such a giving up the version keeps its building status and has no job in every continuation of the run, whatever is requested, built or archived |
| `PipelineTheorems.StuckRun` | controlplane/worker/create_image.go:82-97 | a run with five failed attempts and a failing write that leaves a version in IMAGE_BUILD without a job |
| `PipelineTheorems.MarksHappened` | controlplane/worker/create_checkpoint.go:81-99 | what the state remembers of pushes, completed polls and unrecorded failures is exactly what happened in the run |
| `PipelineTheorems.ExactlyOneTable` | controlplane/postgres/archive.go:14-84 | over all runs every chunk, flavor and version ever created is in exactly one of live and archive tables, and nothing else is |
| `BuildJobs.ImageWork` | controlplane/worker/create_image.go:74-202 | the worker takes the machine's steps; the push comes before the checkpoint job; what it writes on which attempt |
| `BuildJobs.Poll` | controlplane/worker/create_checkpoint.go:134-183 | completed exactly when the first decisive poll says so, cancelled exactly when the context ends first |
| `BuildJobs.VerdictMeans` | controlplane/worker/create_checkpoint.go:136-175 | which sequences of answers end in completed, and which in a cancellation |
| `BuildJobs.CheckpointWork` | controlplane/worker/create_checkpoint.go:74-184 | the worker takes the machine's steps; COMPLETED only after such a poll; what it writes on which attempt, and nothing on a last attempt that is cancelled while polling |
| `BuildJobs.Deferred` | controlplane/worker/create_checkpoint.go:81-99 | nothing before the last attempt, then one try to record the failure |
| `BuildJobs.EndedUnrecorded` | controlplane/worker/create_checkpoint.go:81-99 | a job that ends unrecorded leaves its version in its building status and without a job, in every continuation of the run |
| `ArchivePass.Database.ArchiveVersion` | controlplane/postgres/archive.go:62-84 | moved, or nothing changed: refused insert, refused delete and failed commit all roll back |
| `ArchivePass.Database.ArchiveFlavor` | controlplane/postgres/archive.go:38-60 | the same for a flavor, whose versions are deleted with it |
| `ArchivePass.Database.ArchiveChunk` | controlplane/postgres/archive.go:14-36 | the same for a chunk, refused while a flavor refers to it |
| `ArchivePass.ArchiveVersions` | controlplane/worker/archive.go:95-105 | for every order of the walk exactly the flavor's unused, settled versions are moved |
| `ArchivePass.TryArchiveFlavor` | controlplane/worker/archive.go:84-124 | the flavor goes exactly when all its versions do |
| `ArchivePass.Visit` | controlplane/worker/archive.go:44-79 | one round: the flavor, then its chunk if no flavor is left |
| `ArchivePass.Pass` | controlplane/worker/archive.go:38-82 | for every order of the walk an error-free pass moves a version exactly when its flavor is deleted, no instance runs it and it is not being built, a flavor exactly when it is deleted and all its versions go, a chunk exactly when it has flavors and all go; all else is as it was |
| `ArchivePass.PassIdempotent` | controlplane/worker/archive.go:38-82 | it leaves nothing another pass would move |
| `ArchivePass.ChunkMarkIgnored` | controlplane/worker/archive.go:57-71 | marking or unmarking a chunk before a pass is the same as doing so after it: what goes, goes either way |
| `ArchivePass.UnmarkedArchived` | controlplane/worker/archive.go:57-71 | the loop archives a chunk nobody deleted with its one deleted flavor |
| `PassSteps.PassIsPath` | controlplane/worker/archive.go:38-124 | in whatever order the deleted flavors are visited, the pass is a path of possible steps of the machine |
| `PassSteps.PassInSystem` | controlplane/worker/archive.go:38-124 | a pass over a system's tables is such a path, ending with the same tables |
| `Datapath.IpRoundTrip` | internal/datapath/objects.go:436-444 | no address is lost between bytes and key |
| `Datapath.ValueRoundTrip` | internal/datapath/objects.go:280-305 | a map value keeps all of a container but the interface names |
| `Datapath.TargetIndexIff` | cni/handler.go:234-244 | the DNAT target has the host interface exactly when its index fits a byte |
| `Datapath.Objects.AddNetData` | internal/datapath/objects.go:260-278 | one value under two keys |
| `Datapath.Objects.GetNetData` | internal/datapath/objects.go:280-305 | the value under the port, converted back |
| `Datapath.Objects.DelNetData` | internal/datapath/objects.go:307-321 | both keys go, or the call ends at the first missing one |
| `Datapath.Objects.AddDNATTarget` | internal/datapath/objects.go:323-333 | the target, the pod's address and MAC by `EntriesMean`, under the port |
| `Datapath.Objects.DelDNATTarget` | internal/datapath/objects.go:335-337 | the port goes, a missing one is an error |
| `Datapath.Objects.AddVethPairEntry` | internal/datapath/objects.go:354-369 | one entry under both interface indexes |
| `Datapath.Objects.DelVethPairEntry` | internal/datapath/objects.go:371-381 | both indexes go, or the call ends at the first missing one |
| `Datapath.Objects.ExecAdd` | cni/cni.go:105-150 | the map writes of an ADD |
| `Datapath.Objects.DelMapEntries` | cni/handler.go:265-285 | succeeds exactly when all keys are there and different; otherwise the maps are what the deletions up to the first missing key leave |
| `Datapath.Objects.ExecDel` | cni/cni.go:200-232 | looks the container up by its port and deletes its entries as far as they go; an unknown port changes nothing, and afterwards the port is unknown |
| `Datapath.AddThenDel` | cni/cni.go:105-232 | for all maps and containers: ADD then DEL restores the maps exactly when, port and address being different keys, none of the keys was in use, or, being one key, the maps held just the container's own leftovers |
| `Datapath.RestoredWhereExact` | cni/handler.go:265-285 | in maps that hold exactly some containers' entries: restored if and only if the keys were unused and the address is not the port |
| `Datapath.TargetLeftBehind` | cni/handler.go:265-285 | pod address 0.0.117.48 with port 30000 in empty maps: after ADD and DEL the DNAT target and the interface entries are still there |
| `Datapath.SparedIff` | cni/cni.go:200-232 | a DEL spares a container's entries exactly when it is not for the container's port, whoever's pod it is for |
| `Datapath.DelAndAdd` | cni/cni.go:105-232 | two containers on one port: a DEL of the first before the ADD of the second leaves exactly the second's entries; after it, it deletes the second's and leaves the first's address and interfaces |
| `PortReuse.TearDownSparesIff` | platformd/reconciler.go:327-342 | in every run the DEL outstanding for a failed attempt spares another container exactly when that one has not got the attempt's port |
| `PortReuse.ReusedIff` | platformd/reconciler.go:327-342 | in some run an instance holds the port of a failed attempt whose pod is still there, if and only if the range has a port other than 0 |
| `PortReuse.ReusedRun` | platformd/reconciler.go:290-342 | for every such port a run in which the other instance already runs on it |
| `PortReuse.PortsInRange` | platformd/workload/port_allocator.go:46-69 | in every run the port of an attempt is one of the range |
| `Datapath.LookupReturnsAdded` | internal/datapath/objects.go:280-305 | the port lookup returns the container that was added, names aside |
| `Datapath.EntriesMean` | cni/handler.go:234-249 | what the datapath reads for a live container: port and address lead to its own pod and host values, the DNAT target is the pod's address and MAC and leads back to the container, both interfaces lead to the host's index and address |
| `Datapath.ExactUnique` | internal/datapath/objects.go:260-381 | the live containers determine the maps |
| `Datapath.RunCommands` | cni/cni.go:68-236 | after every sequence of ADDs and DELs over containers with distinct ports, addresses and interfaces the maps hold exactly the live containers' entries |

## Left out

- The reconciler's goroutines are interleaved one shared access at a time in `NodeProtocol`; a data race on the unsynchronised `attempts` map itself is not modelled.
- The control plane's request handlers and the reconciler's `tick` are atomic steps on values in `Pipeline` and `NodeProtocol`, not methods.
- Slices sorted in place by `collectChunks`, the diff and the tree hash are local to their functions and modelled as values; aliasing between a flavor's copies and its slices is not.
- File system errors such as a file where a directory is needed are failing calls; permissions, symbolic links and partial writes of a failed build are not modelled.
- Path names are sequences of characters on a Unix separator; Windows separators and Unicode normalisation are not modelled.
- Pages.NextPage: the chunk and the instance endpoint have the same shape and are modelled once, over ids.
- PipelineTheorems.InsertsOnlyWhenIdle: the queue's own deduplication by job arguments is not modelled; the arguments contain the span context.
- PipelineTheorems.OneActiveJob: two build requests for one version handled at the same time are outside the atomic-request assumption.
- NodeCleanup.RemovesRunningIff: is about pods; the files a pass removes are in `Checkpoint.CollectGarbage` only, where nothing interferes.
- PortReuse.TearDownSparesIff: is about the map entries; the same DEL also removes the route, the listeners and the interface pair it finds, which are not modelled.
- ArchivePass.Pass: is about a pass without failing calls; passes with failures and interleaving are in `Pipeline`.
- Datapath.RunCommands: an ADD that fails half-way releases its addresses only, its map entries stay; such ADDs are not commands here.
- Versions without file rows: a null file row becomes an empty hash entry in `collectChunks`; the tables here have a file per version.
- How authorisation, ownership and Minecraft version checks decide (only their answers are inputs), users, thumbnails, resource packs and presigned URLs.
- Workload health and pod details beyond "runs", "removed", "not found" and "failed"; labels, resources and images of a workload.
- SNAT targets, routes, proxies, listeners, interface creation and the BPF programs themselves.
- gRPC and HTTP plumbing, telemetry, configuration parsing and the command line.
