# Verified model of the proxmops reconciliation core

proxmops keeps a Proxmox cluster in the state that a set of manifests declares. This project models the part that
decides and acts: the three planners, the engine that reports and dispatches, the concurrent dispatcher, the Proxmox
client with the seed images it generates, and the status fan-out. The cluster itself is modelled as far as these
parts read and change it, so the control loop is closed and its long-run behaviour can be stated and proved.

Check everything with `dafny verify dfyconfig.toml`.

## How the model is built

- `manifest.dfy`, `proxmox.dfy`: the declared resources, observed objects, create specifications, actions.
- `text.dfy`, `naming.dfy`: the string functions, and the names and tags that are printed and parsed back.
- `cluster.dfy`: the cluster as guests by VMID plus ISO files. A guest operation is a program of API calls; each call
  is one atomic step that succeeds, is refused, or takes effect and is still reported as failed.
- `pve.dfy`: the client class, which makes those calls one after the other; `programs.dfy`: what complete runs leave;
  `scripts.dfy`: what holds whichever calls fail.
- `guest_planner.dfy`, `template_planner.dfy`, `iso_planner.dfy`: the planners, as loops and as functions.
- `drift.dfy`, `plans.dfy`: what drift detection, creation and the combined plan mean in terms of the cluster.
- `ranking.dfy`, `interleaving.dfy`, `convergence.dfy`: the loop settles.
- `dispatcher.dfy`: the dispatcher as a step system and as a class.
- `controller.dfy`, `confinement.dfy`, `exclusion.dfy`, `ordering.dfy`, `ownership.dfy`, `pruning.dfy`: scans, submissions, single API
  calls and changes from outside interleaved arbitrarily, and what holds in all such runs.
- `inventory.dfy`: the generated seed files.
- `status_rows.dfy`, `status_history.dfy`, `engine.dfy`: snapshots, events, transition stamps, and the engine class.
- `status_store.dfy`: the drop-oldest fan-out with interleaved consumers.

## What turned out not to hold, and exactly when it does

- An update writes the observed core count, which is cores times sockets, back as the number of cores. One update
  removes all drift and leaves undeclared fields alone if and only if the guest has one socket
  (`Drift.UpdateSettles`). A clone that declares cores observes as declared if and only if its template has one
  socket (`Drift.CreateThenObserve`).
- A clone keeps its template's ide0. Creating a guest keeps the seed inventory exact if and only if the guest does not
  take over a generated seed that way (`SeedInventory.CreateInventory`, with a concrete case in
  `SeedInventory.CloneSharesSeed`).
- Mutual exclusion per VMID rests on names: a guest that is renamed between two scans can be deleted by two actions at
  once (`Exclusion.RenamedGuestTwice`).
- A create that stops halfway is not taken up again when the VM it leaves already looks as declared. For a validated
  image manifest without a disk storage this is so if and only if it asks for no running state, user-data or
  cloud-init values (`Scripts.HalfBuiltLooksSettled`).
- A clone that stops between cloning and tagging leaves a guest that is never taken up again
  (`Scripts.HalfClonedIsForeign`).
- Right after a slot is released more keys than the concurrency limit can be held (`Dispatch.KeysMayExceedLimit`).

## Model

| member | source | states |
|---|---|---|
| Convergence.Converges | internal/reconcile/guest.go:75-204 | Over any run of passes with a fixed valid desired set, each waiting for its actions, no action is dispatched any more once as many passes have run as the summed initial ranks, and from then on the cluster does not change. |
| Convergence.PassOutcome | internal/reconcile/engine.go:88-114 | A pass from a state where something is dispatched strictly lowers the summed rank, whatever subset of the actions the dispatcher takes and however their API calls interleave; a pass from an idle state changes nothing. |
| Convergence.PassEffect | internal/reconcile/guest.go:75-204 | Every VMID acted on in a pass comes strictly closer to its declared state; all others are untouched. |
| Convergence.IdleIsInSync | internal/reconcile/guest.go:159-180 | When every VM allows reboots, a state in which nothing is dispatched is the declared state. |
| Convergence.SettledRunsDeclared | internal/reconcile/guest.go:121-179 | Once the loop has settled and reboots are allowed, every owned declared VM matches its manifest, and if it runs it was started with its declared user-data and values. |
| Convergence.JointPlanTargets | internal/reconcile/template.go:38-91 | No two actions of one scan concern the same VMID. |
| Ranking.VmActionLowers | internal/reconcile/guest.go:75-181 | Every applied VM action, run to its end, lowers absent > drifted > user-data stale > restart pending > settled. |
| Ranking.TemplateActionLowers | internal/reconcile/template.go:38-74 | Every applied template action lowers absent > unconverted > ready. |
| Ranking.OrphanActionLowers | internal/reconcile/guest.go:187-204 | Every applied deletion takes its orphan away. |
| Ranking.TemplateReady | internal/reconcile/template.go:46-73 | A build or conversion that has run to its end leaves an owned template at the declared VMID, stopped and with the declared values when built, otherwise as it was, and changes no other guest. |
| Interleaving.InterleavedAsAlone | internal/reconcile/dispatcher.go:64-79 | Actions on different guests, interleaved call by call, leave each guest as if its action had run alone. |
| Engines.AcceptedPicks | internal/reconcile/dispatcher.go:47-64 | What an idle dispatcher accepts from a scan is an ordered selection of the actions, at least one if there are any, each started with its whole program. |
| Engines.ScanIsPass | internal/reconcile/engine.go:88-114 | What a scan submits to an idle dispatcher is a pass of the convergence theorem, with the ISO downloads after it. |
| Engines.ScanIsMoves | internal/reconcile/engine.go:88-114 | What a scan submits is what the planning and submitting moves of the whole-loop runs submit. |
| Exclusion.OneWriterPerGuest | internal/reconcile/dispatcher.go:47-80 | In every interleaving of scans, submissions, API calls and outside changes that keep names, no two actions in flight address the same guest, now or in a call to come. |
| Exclusion.KeyedInRun | internal/reconcile/guest.go:94-204 | The reason: every planned, queued or running action bears the one key that belongs to its VMID. |
| Exclusion.RenamedGuestTwice | internal/reconcile/guest.go:187-204 | Without stable names it fails: a run in which two deletions of one guest are in flight. |
| Confinement.ConfinedInRun | internal/reconcile/guest.go:75-204 | With a fixed desired set, every call of every action addresses its own VMID, creates declared guests only, converts declared templates only, removes none, and clones from declared templates only. |
| Plans.EmptyPlanExactly | internal/reconcile/guest.go:75-204 | With distinct VMIDs the joint plan is empty if and only if templates are finished or foreign, VMs are foreign, fully as declared, or clones deferred behind a foreign guest, and nothing owned lies outside the declarations. |
| Plans.GuestPlanMembers | internal/reconcile/guest.go:26-207 | The guest plan contains exactly the lines of the declared VMs against the true cluster and the deletions of its orphans. |
| Plans.TemplatePlanMembers | internal/reconcile/template.go:23-94 | The same for the template plan. |
| Engines.FullPlanEmptyExactly | internal/reconcile/engine.go:62-76 | With distinct VMIDs and accurate listings the combined plan is empty if and only if the guests are in sync with the declarations and every declared ISO is listed at its place. |
| Engines.FullPlanFailsExactly | internal/reconcile/engine.go:62-76 | The combined plan fails if and only if a guest listing fails or the place of some declared ISO cannot be listed. |
| Pruning.PlanTyped | internal/reconcile/template.go:84-90 | Whatever the listings show, an action is typed delete if and only if it deletes, typed create if and only if it makes something, and informational if and only if it does nothing. |
| Pruning.PruneOffRemovesNothing | internal/reconcile/engine.go:104-105 | With pruning off, in every run, whatever the desired sets, interleavings and outcomes, the loop removes no guest. |
| Pruning.PlansDeleteLast | internal/reconcile/guest.go:74-204 | In either plan all creates and updates come before all deletes. |
| Pruning.VmStepsInOrder | internal/reconcile/guest.go:75 | Of two VM actions the earlier one belongs to the earlier manifest. |
| Manifest.FilteredInOrder | internal/reconcile/reconciler.go:20-28 | Filtering by kind keeps the manifests' order. |
| Manifest.ValidateExactly | internal/manifest/vm.go:140-174 | A manifest is accepted if and only if it is sound: identified, one root disk origin, cloud-init only where it can be carried, user-data alone in the drive, supported buses. |
| Ownership.ForeignUntouched | internal/reconcile/guest.go:104-106 | For any sequence of desired sets, any interleaving and any failures, a guest untagged at the start stays exactly as it was. |
| Ownership.ForeignInRun | internal/reconcile/template.go:38-91 | The same guest when people change it in between: only their changes change it. |
| Ownership.GuestPlanSpares | internal/reconcile/guest.go:78-106 | Against a listing that shows the guest untagged, every planned action addresses another guest or starts with a call that must fail. |
| TemplateOrdering.NeverPlannedForDeletion | internal/reconcile/guest.go:194-196 | Whatever a listing shows at a declared template's VMID, at any step of its build, no plan deletes it. |
| TemplateOrdering.TemplateStays | internal/reconcile/template.go:62-73 | In every run a guest at a declared template's VMID is never removed, and a finished template stays one. |
| TemplateOrdering.CloneSourceStays | internal/reconcile/guest.go:82-86 | In every run the source of each planned, queued or running clone is a declared, converted template until the clone is over. |
| SeedInventory.InventoryExact | internal/proxmox/cidata.go:93-142 | After any run of successful operations the generated files on storage are exactly those attached at ide0, one per guest. |
| SeedInventory.CreateInventory | internal/proxmox/pve.go:165-244 | A create keeps the inventory exact if and only if the guest does not take over its template's seed. |
| SeedInventory.CloneSharesSeed | internal/proxmox/pve.go:363-427 | A concrete clone that leaves two guests with one seed. |
| SeedInventory.ReseedInventory | internal/proxmox/cidata.go:123-142 | Replacing the user-data attaches the new seed and removes the old one, unless they are the same file. |
| SeedInventory.DeleteInventory | internal/proxmox/pve.go:581-611 | Deleting a guest deletes its seed and no other. |
| Scripts.AttachedSeedsExist | internal/proxmox/cidata.go:93-142 | Over any run of operations, failing at any call, every generated seed attached to a guest is on the storage. |
| Scripts.RestartsOnlyWithSeed | internal/reconcile/guest.go:144-155 | However a sync with restart is answered, the guest is stopped or started only once the declared seed is attached, and after a start it runs with that seed. |
| Scripts.FailedSyncKeepsPower | internal/reconcile/guest.go:148-150 | A failed sync ends the action with the power state and all the guest runs with untouched. |
| Scripts.HalfBuiltLooksSettled | internal/proxmox/pve.go:249-252 | A validated image manifest without a disk storage leaves a bare owned VM, for which the next scan plans nothing if and only if the manifest asks for nothing more. |
| Scripts.HalfClonedIsForeign | internal/proxmox/pve.go:377-418 | A clone whose second half is refused leaves an untagged guest, for which the next scan plans nothing. |
| Scripts.PowerOnlyAfterConfigure | internal/proxmox/pve.go:615-650 | However an update is answered, a guest is switched on or off only once its new values are in, and a started guest runs with them. |
| Scripts.SyncSurvives | internal/proxmox/cidata.go:128-140 | Neither a failed read of the old attachment nor a failed removal of the old seed fails a sync. |
| Scripts.OtherFilesStay | internal/proxmox/cidata.go:135-140 | No operation, however it is answered, removes a file that proxmops did not generate. |
| Drift.CreateThenObserve | internal/proxmox/pve.go:165-244 | Creating any validated manifest's VM on the blank, image or clone path and observing it plans nothing more, except for a clone declaring cores from a template with several sockets. |
| Drift.CreateSucceedsExactly | internal/reconcile/guest.go:284-333 | The planned create of a validated VM can run to its end if and only if its VMID is free, an image has a disk storage, and a template is declared, a VM on the same node, and converted or cloned in full. |
| Drift.BuildSucceedsExactly | internal/reconcile/template.go:98-128 | A template build can run to its end if and only if its VMID is free and its image has a disk storage. |
| Drift.DeleteSucceedsExactly | internal/proxmox/pve.go:581-611 | The deletion of an observed guest, running or not, can run to its end if and only if it is a VM. |
| Drift.ReseedSucceedsExactly | internal/reconcile/guest.go:144-155 | A planned sync can run to its end if and only if the template resolves and the manifest names the guest's node. |
| Drift.CloneKeepsTemplate | internal/proxmox/pve.go:363-427 | A created clone keeps every field of its template that its manifest leaves open. |
| Drift.CreatedCdrom | internal/proxmox/pve.go:486-491 | A created VM has its declared ISO in the drive. |
| Drift.CreatedIsOwned | internal/reconcile/guest.go:284-333 | The created guest carries the ownership tag, the declared name and the declared node, and is no template. |
| Drift.CreatedTags | internal/reconcile/guest.go:284-333 | Clean user tags are observed as declared, followed by the ownership tag. |
| Drift.DriftExact | internal/reconcile/guest.go:213-262 | Drift is reported if and only if some declared field differs from the guest after normalisation. |
| Drift.UpdateSettles | internal/proxmox/pve.go:615-650 | One update removes all drift and keeps every undeclared field if and only if the guest has one socket; a guest it starts runs with the new values, and one that keeps running is not restarted. |
| Drift.NormalizeIPIdempotent | internal/reconcile/guest.go:266-271 | Normalising an address twice is normalising it once. |
| Drift.VmStepQuiet | internal/reconcile/guest.go:103-180 | A present VM has an empty plan line if and only if it is foreign, or matches, carries the current seed and has no restart pending. |
| Drift.RestartsAreGated | internal/reconcile/guest.go:121-179 | A guest without drift is restarted if and only if it needs to be and its manifest allows it; it is only reported if and only if it needs to be and the manifest does not. |
| Drift.ReseedSettles | internal/reconcile/guest.go:144-155 | After a sync the declared seed is attached, a running guest was started with it, nothing is pending, and nothing else has changed. |
| GuestPlanner.Plan | internal/reconcile/guest.go:26-207 | The loops over maps and slices compute the plan function, and a failed listing fails the plan. |
| GuestPlanner.CompareGuest | internal/reconcile/guest.go:213-262 | Overwriting field by field computes the update that the drift function describes. |
| GuestPlanner.CompareCloudInit | internal/reconcile/guest.go:226-246 | The cloud-init scalars to set are exactly the declared ones that differ. |
| GuestPlanner.IndexDesired | internal/reconcile/guest.go:37-46 | The VMID index and the manifest order, later manifests overriding earlier ones. |
| GuestPlanner.IndexObserved | internal/reconcile/guest.go:50-59 | The observed VMs that are no templates, and the VMIDs of ready templates. |
| GuestPlanner.IndexTemplates | internal/reconcile/guest.go:63-70 | Template VMIDs by name, and the set of VMIDs claimed. |
| GuestPlanner.PlanDeclared | internal/reconcile/guest.go:75-181 | The lines of the declared VMs, in manifest order. |
| GuestPlanner.PlanVm | internal/reconcile/guest.go:76-181 | The branches for one VM, with their early exits. |
| GuestPlanner.PlanOrphans | internal/reconcile/guest.go:187-204 | The deletions of owned, undeclared VMs, in listing order. |
| TemplatePlanner.Plan | internal/reconcile/template.go:23-94 | The loops compute the template plan, and a failed listing fails it. |
| TemplatePlanner.PlanDeclared | internal/reconcile/template.go:38-74 | Builds and conversions in manifest order, and the set of declared VMIDs. |
| TemplatePlanner.PlanPrunes | internal/reconcile/template.go:77-91 | The deletions of owned templates that are no longer declared. |
| IsoPlanner.Plan | internal/reconcile/iso.go:23-68 | The cached planner returns exactly the plan that lists anew for every manifest, errors included, and lists no place twice. |
| IsoPlanner.IsoPlanDownloads | internal/reconcile/iso.go:46-66 | The plan is one create action for each ISO that is not at its place, and carrying it out brings exactly that file to that storage. |
| IsoPlanner.FilenameIsLastPart | internal/manifest/iso.go:33-38 | An ISO is named after the last part of its URL's path, or of its source when there is none. |
| IsoPlanner.DownloadsSettle | internal/reconcile/iso.go:46-66 | Once all planned downloads have landed, the next plan is empty. |
| IsoPlanner.ListISOs | internal/proxmox/pve.go:699-716 | The names of the volumes that are ISOs, in content order. |
| IsoPlanner.NowPresent | internal/proxmox/pve.go:804-810 | A downloaded image is listed under the name the planner looks for. |
| Dispatch.SlotsAlways | internal/reconcile/dispatcher.go:50-71 | In every interleaving the semaphore holds exactly the actions not yet released, never more than the limit; the keys held are exactly those of the actions not yet removed, pairwise distinct. |
| Dispatch.AcceptedExactly | internal/reconcile/dispatcher.go:50-64 | An action is accepted if and only if nothing runs under its key and a slot is free, and then starts with its whole program. |
| Dispatch.KeysMayExceedLimit | internal/reconcile/dispatcher.go:65-70 | Between release and removal more keys than the limit may be held. |
| Dispatch.HistoryAlways | internal/reconcile/dispatcher.go:64-80 | In every interleaving each accepted action gets exactly one terminal event, with its own commit; per key starts and terminal events alternate; started actions are those recorded plus those running. |
| Dispatch.AppliedExactly | internal/reconcile/dispatcher.go:72-78 | In every interleaving the terminal event of an action says applied if and only if none of its calls failed, that is, its whole program ran to its end. |
| Dispatch.StepDrains | internal/reconcile/dispatcher.go:64-79 | Without submissions every step, whatever its outcome, leaves strictly less work. |
| Dispatch.NeverStuck | internal/reconcile/dispatcher.go:64-71 | While an action is unfinished one of its steps can be taken. |
| Dispatch.WaitLeavesNothing | internal/reconcile/dispatcher.go:89-92 | When no goroutine is left, the semaphore and the key set are empty. |
| Dispatch.Dispatcher.constructor | internal/reconcile/dispatcher.go:30-39 | A new dispatcher is empty and bounded by the limit, or by the default of 4 for a limit that is not positive. |
| Dispatch.Dispatcher.Submit | internal/reconcile/dispatcher.go:47-63 | A held key or a full pool leaves everything unchanged; otherwise the slot, the key and the start are taken together; the invariants stay. |
| Dispatch.Dispatcher.Record | internal/reconcile/dispatcher.go:72-78 | The terminal event, applied or failed, with the action's commit. |
| Dispatch.Dispatcher.Release | internal/reconcile/dispatcher.go:66 | The slot is given back while the key is still held. |
| Dispatch.Dispatcher.Remove | internal/reconcile/dispatcher.go:67-69 | The key is removed. |
| Dispatch.Dispatcher.Wait | internal/reconcile/dispatcher.go:89-92 | Terminates for every order and outcome of the remaining calls and leaves no action, no slot taken and no key. |
| Controller.SlotsInRun | internal/app/app.go:293-299 | The dispatcher's invariant holds in every run of the whole loop. |
| Controller.StepAt | internal/proxmox/pve.go:165-244 | One call changes at most its target, keeps its name, never unmakes a template, and brings a guest into being only at a free VMID. |
| Cluster.StepShrinks | internal/proxmox/pve.go:165-660 | Every API call leaves a program with less to do, so every operation ends. |
| Cluster.Observe | internal/proxmox/pve.go:61-135 | An observed object has the guest's identity, template mark, power state and ownership. |
| Programs.RunCreate | internal/proxmox/pve.go:165-244 | What a successful create leaves, with its seed and power state, on the blank, image and clone paths; nothing on an occupied VMID. |
| Programs.RunUpdate | internal/proxmox/pve.go:615-650 | What a successful update leaves: the configuration, then the power state if it differs. |
| Programs.RunReboot | internal/proxmox/pve.go:655-660 | A stop and start leaves the guest running with its configured values. |
| Programs.RunReseed | internal/proxmox/cidata.go:123-142 | What a successful sync leaves: the new seed uploaded and attached, a different generated one removed. |
| Programs.RunDelete | internal/proxmox/pve.go:581-611 | What a successful deletion leaves: neither the guest nor its generated seed. |
| PveClient.PVE.CreateGuest | internal/proxmox/pve.go:165-244 | The calls, made one by one and stopping at the first error, leave what the create program leaves for every script of answers. |
| PveClient.PVE.CloneFromTemplate | internal/proxmox/pve.go:363-427 | Clone, then finish. |
| PveClient.PVE.ProvisionCidata | internal/proxmox/cidata.go:93-118 | Upload, then attach; nothing without user-data. |
| PveClient.PVE.SyncUserData | internal/proxmox/cidata.go:123-142 | A failed read counts as no seed; a failed removal of the old seed is ignored. |
| PveClient.PVE.UpdateGuest | internal/proxmox/pve.go:615-650 | Read, configure, and set the power state only when it differs from the one read. |
| PveClient.PVE.RebootGuest | internal/proxmox/pve.go:655-660 | Stop, then start, and no start after a failed stop. |
| PveClient.PVE.DeleteGuest | internal/proxmox/pve.go:581-611 | Stop if running, destroy, then remove the generated seed, ignoring a failure of the last. |
| PveClient.PVE.ConvertToTemplate | internal/proxmox/pve.go:341-357 | The conversion of a VM on its node. |
| PveClient.PVE.BuildTemplate | internal/reconcile/template.go:53-58 | Create, and convert only after a successful create. |
| PveClient.ExecuteAllDone | internal/proxmox/pve.go:165-660 | When every call succeeds the scripted execution is the complete run. |
| Naming.SeedVolumeParsesBack | internal/proxmox/pve.go:140-153 | The ide0 value printed at attach time parses back to the hash and to the storage and file it names. |
| Naming.IsoVolumeParsesBack | internal/proxmox/cidata.go:147-154 | Any ISO volume parses back to its storage and file name. |
| Naming.CidataFilenameInjective | internal/proxmox/cidata.go:87-89 | Seeds of different guests or contents have different file names. |
| Naming.IsoFilenameParsesBack | internal/proxmox/pve.go:804-810 | A volume stored under a base name is read back under that name. |
| Naming.ManagedTagRecovered | internal/proxmox/pve.go:814-826 | Whatever the user's tags are, the ownership tag survives joining and splitting. |
| Naming.TagsRecovered | internal/proxmox/pve.go:814-826 | Trimmed, non-empty tags without a semicolon all survive, in order. |
| Naming.TagsExactly | internal/proxmox/pve.go:814-826 | The tags are exactly the trimmed, non-empty parts between semicolons, and each of them is clean. |
| Naming.ParseTags | internal/proxmox/pve.go:814-826 | The loop keeps exactly the trimmed, non-empty parts. |
| Engines.Engine.Scan | internal/reconcile/engine.go:88-114 | A failed plan records the error and submits nothing; otherwise the status is recorded and exactly the applicable actions are submitted, in order, with the commit. |
| Policy.DispatchedExactly | internal/reconcile/engine.go:96-113 | With auto-sync on and dry-run off exactly the planned actions that are not informational, and delete only when pruning is on, are submitted, each with the commit; otherwise none. |
| Engines.Engine.RecordStatus | internal/reconcile/engine.go:121-222 | The snapshot and the events of a pass, with the orphan rows and removals in whatever order the maps are walked. |
| Engines.Engine.RecordError | internal/reconcile/engine.go:244-254 | The rows stay, the snapshot is out of sync and failed. |
| Engines.ComputePlan | internal/reconcile/engine.go:62-76 | Templates, guests and ISOs in this order; the first failure fails the plan. |
| Engines.ScanStatusAgrees | internal/reconcile/engine.go:147-197 | For the plans of the three reconcilers: one row per declared resource and per other action, none besides; a row is out of sync if and only if an action has its key, and names its type; in sync if and only if all rows are. |
| StatusHistory.StatusAgrees | internal/reconcile/engine.go:147-197 | The same for any plan of reported kinds. |
| StatusHistory.DeclaredRows | internal/reconcile/engine.go:154-173 | Every reported declared resource has a row with its node and VMID, out of sync if and only if an action has its key. |
| StatusHistory.LatestPassShown | internal/reconcile/engine.go:244-254 | In every reachable snapshot: failed if and only if the latest pass failed, in sync if and only if it succeeded with nothing to do, and the commit is that of the last successful pass. |
| StatusHistory.EventCommits | internal/reconcile/engine.go:202-221 | Every event belongs to a successful pass and carries its commit. |
| StatusHistory.EventReplay | internal/reconcile/engine.go:202-221 | Over any run of successful and failed scans, a key's events are exactly the record of its state changes. |
| StatusHistory.LatestEvent | internal/reconcile/engine.go:202-221 | A key's latest event is a drift if and only if its row is out of sync, and every resync comes right after a drift. |
| StatusHistory.StampIsEntry | internal/reconcile/engine.go:126-145 | A row's stamp is the clock of the first pass of the unbroken run over which its key has had its current state, failed passes in between not counting. |
| StatusStore.Store.Set | internal/status/status.go:67-75 | The snapshot becomes current and is delivered to every subscriber, consumers reading at any point in between; every channel stays an ordered suffix of what was published, at most 8 long, with the newest buffered or received. |
| StatusStore.Store.Broadcast | internal/status/status.go:103-121 | The same for the loop over the subscribers; channels that are not subscribed are only read. |
| StatusStore.Store.Offer | internal/status/status.go:106-119 | The second send always finds room; at most one snapshot is dropped, and none when there was room. |
| StatusStore.Store.Get | internal/status/status.go:78-82 | The current snapshot. |
| StatusStore.Store.Subscribe | internal/status/status.go:88-98 | A new, empty, registered channel. |
| StatusStore.Store.Cancel | internal/status/status.go:93-97 | The channel gets nothing more and keeps what it has. |
| StatusStore.Store.Receive | internal/status/status.go:84-88 | A consumer gets the oldest buffered snapshot, and the channel stays in order. |
| StatusStore.DroppingDelivery | internal/status/status.go:109-118 | Reading, dropping the oldest, reading again and sending keeps the channel an ordered suffix with the newest in it. |
| StatusStore.UnreadKeepsLastEight | internal/status/status_test.go:72-93 | A channel that nobody reads holds the last eight snapshots. |

## Left out

- Disk import details, resizing, NIC, boot, serial and display options: set once at creation and never compared again.
- `kindFromType`, `parseSizeGB`, `diskSlot`, `storageOf`, `powerWord` and reason texts: would only add easy members.
- Containers and networks as managed resources: not reconciled; containers appear as occupants of VMIDs.
- Deletions from the web UI: they address a VMID without looking at the tag, so they count as changes from outside.
- The unconfigured pass that wipes the status rows: the history theorems are about runs of scans.
- Git, YAML, SQLite, HTTP, authentication, settings, ISO 9660 building and the web UI.
- SHA-256: the content hash is an arbitrary function to eight hexadecimal digits.
- URL parsing: the path that the URL library reads from an ISO source is a field of the manifest.
- ListGuests: a listing is one accurate snapshot; a swallowed failure to read one guest's configuration is not modelled.
- Clocks: a pass reads the clock once, where the code reads it several times in a row; a reading is never the zero time.
- A cloned guest starts without tags, as the code that tags it afterwards requires; what else a clone copies follows Proxmox, as does that a running VM cannot be destroyed.
- Live values of a guest that is stopped and started are those configured; hot-plugging is not modelled.
- The engine's status store is the field holding the current snapshot; its fan-out is modelled on its own.
- Channels and goroutines are step systems: each API call, event, release and removal is one atomic step.
- Passwords and SSH keys are written at creation and never observed.
- Convergence.Converges: covers guest and template actions, not ISO downloads, and assumes one socket per guest, no declared VMID held by a container and no VM's VMID held by a template.
- Exclusion.OneWriterPerGuest: assumes distinct VMIDs, no VM's VMID held by a template at the start, and outside changes that keep names and template marks.
- SeedInventory.InventoryExact: speaks of operations whose calls all succeed, with one ISO storage; a call lost midway can leave a file behind.
- IsoPlanner.DownloadsSettle: asks for storage names without a colon.
