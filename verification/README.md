# villa, modelled and proved

A Dafny model of the stateful parts of villa's command tier and of the packages they
drive, with proofs about every run, every fault and every interleaving of them. Each host
a verb works on is a class whose calls may fail; a failed call may or may not have taken
effect, as fault schedules that the proofs quantify over decide. `dafny verify
dfyconfig.toml` checks the project.

- **Recall index** (`RecallWorld`, `RecallPlan`, `RecallHost`, `RecallIndex`, `RecallRun`,
  `RecallHistory`): the crash-resumable sync of live chats into a remote collection through
  a state file. `Host.trace` records the world after every call, so "at every point" is a
  statement about the trace. People may write, edit and delete chats between any two calls.
- **Stack** (`StackHost`, `StackApply`, `Lifecycle`): config, unit files, what systemd has
  loaded of them, and the text each running service was started from. *Coherent* means
  every running service runs the unit on disk, *synced* that systemd has read the disk.
- **Resident models** (`ResidentChange`, `ResidentSet`): the add/rm transaction with its
  rollback, and the port and memory admission over histories.
- **Swap frame** (`SwapFrame`): capture, apply, prove, roll back.
- **Update** (`UpdateHost`, `Snapshots`, `UpdateMoves`, `UpdateFlow`, `SerialFloor`): on the
  same stack, the mutation with the restarts it spreads, data snapshots in the stopped
  window, the per-subsystem transaction with its rollback, cleanup, and the recorded serial.
- **Sandbox bridge and streams** (`Bridge`, `Lines`, `Sse`): the relay, the line protocol
  on both ends, and the event stream.
- **Small state** (`ScrapeCache`, `Rerank`).

## What was found

Where the code does less than its comments promise, the model follows the code, and a
lemma says exactly when the promise holds.

- A run of `recall index` cut between removing a transcript and recording that leaves an
  entry whose file is gone. If the server refuses to remove a file it does not hold, no
  later run passes without `--rebuild` (`RemovalWedgesIff`, `WedgeIsForEver`).
- A listing that names a chat twice, because another was written between two pages, makes a
  run that passes with nobody touching a chat any more break crash consistency on its way, by
  an update, or orphan a file, by an add, exactly when the chat is to be worked on, has text
  to upload and, for an update, has not moved on again (`RunIndex`, `AgainBreaksThePromise`,
  `AddOrphansIff`, `TwiceListedStaleChat`).
- A listing that misses a chat, because another was deleted between two pages, takes the chat
  for deleted; such a run breaks crash consistency exactly when the entry is current
  (`RunIndex`, `DeletesKeepThePromiseIff`, `OverlookedCurrentChat`). The next listing that
  names it adds it again.
- A `--rebuild` cut short leaves entries that look current without files, exactly where
  entries were current (`WindowBreaksThePromiseIff`). A later run leaves them alone
  (`NotHealed`); they heal with another rebuild, or against a lenient server once their
  chats have changed or are gone (`HealedIffMovedOn`), when a strict one is wedged
  (`MovedOnIsWedged`).
- A daemon-reload that failed is never made up for, because the next apply is empty
  (`RestartCoheresIff`); `up` after `down` starts nothing (`UpAfterUpOrDownDoesNothing`); a
  targeted `up` can strand other services for good (`UpKeepsCoherenceIff`,
  `StrandedStaysStranded`).
- A resident rollback leaves stopped what it had touched while it was still activating
  (`UndoneExactly`), does not undo a first config save that failed after its rename
  (`ApplyResidentChange`), and an activating chat UI keeps its old unit
  (`ChangeKeepsCoherenceIff`).
- Admission never sees a shared unit name (`OnlyPortsCollide`), admits the primary's own
  model under another length (`PrimaryAdmittedTwiceIff`), and its sum could wrap
  (`AddIsHonestIff`).
- A swap rollback does not remove files the swap created (`RestoreGivesBackIff`,
  `GivenBackIffCovered`) and leaves the proven service running (`GivenBackServices`).
- An update of one subsystem restarts services of others whose units the apply changed, so
  only pins and tuples of the others are left alone; a complete rollback gives their
  services back too, but for services of retired registry units, whose files it does not
  bring back (`Mutate`, `CompleteRollback`).
- An update's rollback whose stop fails returns without a start: the comment that every
  path out of the window starts the services does not hold there, the report that the
  rollback is incomplete does (`Rollback`, `FailedStopLeavesDown`).
- The snapshot of a rolled back update is pointed at by nothing and never released, whatever
  updates follow (`Update`, `ForgottenForEver`).
- A capture that cannot read the pin record takes the vetted pins for what ran, and a
  rollback that reports itself complete puts those on record (`PinsPutBackIff`).
- `update` over a pin record it cannot read forgets serial, pins and rollback targets
  (`SerialDropsIff`, `TuplesSurviveIff`), although the writes of the apply flow refuse to.

## Assumptions

- Recall: the collection found is the recorded one, live chats have a positive
  `updated_at`, file ids are fresh, ids of deleted chats are never used again, a version of
  a chat fixes its text, and the users, whose listing the client deduplicates, do not change
  during a run. What a listing names has had the version it names while its pages were read.
- Ids and instants are natural numbers, the empty string being 0. Units whose hashes are
  equal are equal. The render names no file twice, names the same files whatever the key,
  and gives each resident slot its own unit or refuses.
- A removal that fails leaves the file. No one but villa touches units, snapshots or
  volumes during a verb, and the stack lock excludes other verbs.
- A service that opens a subsystem's data rewrites it as a function of its unit's text and
  the data. Where a theorem gives data back, the data already suited the units on disk: a
  service opening it from them would leave it as it is.
- A pin changes what a unit file says, not which unit files there are, and the services of a
  subsystem are units the config renders.
- Encoded messages are single lines that decode to what was encoded.

## Model

| member | source | states |
|---|---|---|
| `RecallPlan.Plan` | internal/recall/recall.go:43-68 | Adds, updates and deletes are exactly the diff of listing and record by id and `updated_at`, each list sorted by id, multiplicities of a repeated reference kept |
| `RecallPlan.PlanMembers` | internal/recall/recall.go:43-68 | Membership of each of the three lists, both ways; a listing that names each chat once yields lists that do |
| `RecallPlan.PlanIsAFixpoint` | internal/recall/recall.go:43-68 | Planning again after a plan was carried out finds nothing to update or delete and adds only chats the first pass skipped |
| `RecallPlan.ClearedEntryRequalifiesIff` | cmd/villa/recall.go:391-404 | An entry cleared by an interrupted update comes back as work exactly when the chat's listed `updated_at` is positive |
| `RecallWorld.RemovalKeepsThePromiseIff` | cmd/villa/recall.go:385-404 | Removing a file keeps crash consistency exactly when no entry claiming it is current |
| `RecallHost.Host.ListUserChats` | internal/openwebui/knowledge.go:58-84 | References are chats of that user, each at a version it had between the first page and the last; every chat is named but those overlooked by this call; when nobody touches a chat meanwhile each is named once and as it is |
| `RecallHost.Host.RemoveKnowledgeFile` | cmd/villa/recall.go:386-389 | A failed removal may have removed the file; a strict server refuses a file it does not hold |
| `RecallHost.Host.UploadToKnowledge` | cmd/villa/recall.go:418-422 | An upload takes a file id never used before, and may have landed when it fails |
| `RecallHost.Host.WriteState` | internal/pathsafe/pathsafe.go:105-172 | The state file is the old one or the new one, and may be the new one when the write fails |
| `RecallIndex.RemoveOld` | cmd/villa/recall.go:384-404 | Removing the old transcript and clearing its entry keeps crash consistency at every point, if the entry was stale; orphans stay the same |
| `RecallIndex.FetchAndRecord` | cmd/villa/recall.go:405-432 | Fetch, render, upload, record: on failure anywhere at most one new orphan, never a false entry; a skip drops the entry |
| `RecallIndex.IndexChat` | cmd/villa/recall.go:384-433 | One chat, whatever fails: the entry left is the listed version behind a fresh file, or none; other entries untouched; the promise kept throughout |
| `RecallIndex.DeleteAll` | cmd/villa/recall.go:435-447 | All planned deletes: entries gone with their files, every other entry and its file spared, no orphan; the promise kept at every point if none of these entries was current, and broken on the way if one was and nobody touches a chat |
| `RecallIndex.IndexAll` | cmd/villa/recall.go:448-467 | All updates (replacing) or adds, whatever the list repeats: references reconciled, the rest spared, uploaded plus skipped equals the list's length; if what is updated again is harmless the promise holds throughout; while nobody touches a chat it breaks exactly if not, and adds leave a new orphan exactly when one is added again with text |
| `RecallIndex.AgainBreaksThePromise` | cmd/villa/recall.go:448-457 | The second update of a chat removes the file its current entry names: a world that breaks the promise is on the trace |
| `RecallRun.HumanUsers` | cmd/villa/recall.go:214-223 | The users counted are exactly those that are not the service account |
| `RecallRun.ListChats` | cmd/villa/recall.go:228-241 | One call for each person; after it every reference is a chat at a version it had, every current entry is named but those of overlooked chats, listed versions agree with a kept promise, and if nobody touched a chat the listing is exactly the live chats, each once |
| `RecallRun.OpenRun` | cmd/villa/recall.go:270-354 | A refusal changes nothing; a run that opens stands on the prepared state with its stamp cleared; the promise holds at every point but for a rebuild's reset window |
| `RecallRun.EnterCollection` | cmd/villa/recall.go:337-354 | Reset, collection, opening write: the only place where disk may claim files that are gone, and only on a rebuild |
| `RecallRun.WindowBreaksThePromiseIff` | cmd/villa/recall.go:337-354 | With some files reset the promise holds exactly when none of them stood for a current entry; with all, exactly when no entry of the record before was current |
| `RecallRun.Execute` | cmd/villa/recall.go:435-467 | Deletes, updates, adds in that order: counts equal the plan, what was carried out, orphans; the promise at every point if the listing was harmless; while nobody touches a chat, a pass that was not breaks it on the way; it fails only on a removal the server refuses or a chat that is gone |
| `RecallRun.DeletesKeepThePromiseIff` | cmd/villa/recall.go:435-447 | The removals of a plan each keep crash consistency exactly when the listing overlooked no chat with a current entry |
| `RecallRun.IndexCollection` | cmd/villa/recall.go:357-502 | A pass, known from its own trace: the world the plan is made in, what the listing may lack there, the promise and exactly when it breaks while nobody touches a chat any more, honest stamps, and which passes go through |
| `RecallRun.CarriedOutConverges` | cmd/villa/recall.go:366-467 | A carried out plan leaves every listed chat reconciled and no other chat an entry |
| `RecallRun.CarriedOutIndexesAll` | cmd/villa/recall.go:366-467 | In a quiet run exactly the renderable human chats are indexed, each at its version behind a file holding exactly that version |
| `RecallRun.ConvergedIsConsistent` | cmd/villa/recall.go:366-467 | Where every listed chat is reconciled and no other has an entry, the promise holds, whatever the runs before left |
| `RecallRun.NotHealed` | cmd/villa/recall.go:366-467 | An entry that looks current and whose file is lost is touched by no plan of an undisturbed run: it stays as it is, and the file stays lost |
| `RecallRun.NothingMissingIffNotWedged` | internal/recall/recall.go:43-68 | The files a quiet run's plan removes are all present exactly when no stale entry names a lost file |
| `RecallRun.Finish` | cmd/villa/recall.go:469-498 | The completion stamp reaches disk only after retrieval was attached and only when done equals planned |
| `RecallRun.RunIndex` | cmd/villa/recall.go:270-502 | One run under every fault schedule, every use of chats and every listing meanwhile: the promise at every recorded point outside the reset window if the listing overlooked no current entry and named nothing to be updated twice; if nobody touches a chat once they are listed, a passing run keeps it exactly then, and adds leave no orphan exactly when none is added twice with text; every planned delete, update and add carried out behind a new stamp; convergence; exactly which undisturbed runs pass |
| `RecallRun.OverlooksNothing` | cmd/villa/recall.go:228-241 | A run whose calls overlook no chat, whatever people do, misses no current entry |
| `RecallRun.QuietIsUnmistaken` | cmd/villa/recall.go:228-241 | A run that nobody disturbs misses nothing and repeats nothing |
| `RecallHistory.FreshWorldIsSound` | internal/recall/store.go:79-82 | A host on which recall never ran meets everything the runs assume of their start |
| `RecallHistory.PromiseSurvivesHistory` | cmd/villa/recall.go:384-447 | Crash consistency is an invariant of every sequence of runs without a cut-short rebuild, unless the listing of a run overlooked a chat with a current entry or named one to be updated twice |
| `RecallHistory.ResumeConverges` | cmd/villa/recall.go:366-501 | After any such history of failed runs an undisturbed admitted run, whatever its listing repeats, passes exactly when it rebuilds or nothing it must remove is already gone from a strict server, and then everything is indexed |
| `RecallHistory.OrphansBoundedByFailures` | cmd/villa/recall.go:418-432 | Over any history in which no chat with text was added twice, unclaimed files grow by at most one for each run that did not pass |
| `RecallHistory.RemovalWedgesIff` | cmd/villa/recall.go:386-404 | A run cut between removal and record leaves a lost file exactly when the entry was stale |
| `RecallHistory.WedgeIsForEver` | cmd/villa/recall.go:386-389 | On a strict server, no run without a rebuild ever passes again after that |
| `RecallHistory.HealedIffMovedOn` | cmd/villa/recall.go:366-467 | After a rebuild cut short, the next undisturbed run against a lenient server passes, and has healed the record exactly when every chat behind a lost file has changed or is gone |
| `RecallHistory.MovedOnIsWedged` | cmd/villa/recall.go:386-389 | Against a strict server such an entry becomes a wedge exactly when its chat changes or goes |
| `RecallHistory.TwiceListedStaleChat` | cmd/villa/recall.go:448-457 | A record and a listing, as the pages yield it when another chat is written between them, at which a passing run breaks the promise: one stale chat, named twice |
| `RecallHistory.OverlookedCurrentChat` | cmd/villa/recall.go:435-447 | A record and a listing, as the pages yield it when another chat is deleted between them, at which a passing run breaks the promise: one current chat, not named |
| `RecallHistory.AddOrphansIff` | cmd/villa/recall.go:458-467 | An add leaves the orphans alone exactly when its chat had no file; a second add orphans the first's |
| `StackApply.Reconcile` | internal/orchestrate/reconcile.go:30-84 | The plan is the rendered units that differ, those that do not, and the registry's files on disk that are not rendered; an unreadable file refuses |
| `StackApply.MakePlan` | internal/stackapply/stackapply.go:101-115 | Which plans can be made: exactly those of configs that render, when none of the reads this takes fails |
| `StackApply.ApplySettles` | internal/stackapply/stackapply.go:174-210 | Carrying a plan out makes the directory hold the render and nothing of the registry beside it, touching no other file |
| `StackApply.EmptyIffSettled` | internal/stackapply/stackapply.go:174-210 | A plan is empty exactly when the directory is settled on the render |
| `StackApply.RunningRemoved` | internal/stackapply/stackapply.go:218-236 | Exactly the removed units' services that are up, or a refusal when one cannot be read |
| `StackApply.CarryOut` | internal/stackapply/stackapply.go:174-210 | On success files, manager and services are as specified; on any failure the report names every file and service touched |
| `StackApply.Apply` | internal/stackapply/stackapply.go:142-155 | Heal, plan, carry out: same report guarantee, an empty plan touches and reloads nothing, and it succeeds exactly when the render accepts the config and no call fails |
| `Lifecycle.ManagedServices` | cmd/villa/lifecycle.go:126-145 | The container services in render order, then the dashboard |
| `Lifecycle.ResolveTargets` | cmd/villa/lifecycle.go:151-168 | A named service is accepted exactly when it is managed |
| `Lifecycle.ApplyStack` | cmd/villa/lifecycle.go:174-183 | A successful apply leaves exactly the specified host; one with nothing to do leaves it as it was |
| `Lifecycle.RunUp` | cmd/villa/up.go:56-144 | A passing `up` leaves exactly the specified host and starts or restarts exactly the targets that are down or changed; with settled files it starts nothing, whatever runs; without a target it is a whole-stack verb of the history theorem; without a failed call an admitted one passes |
| `Lifecycle.BringUp` | cmd/villa/up.go:115-143 | Restart if running and changed, leave if running and unchanged, start otherwise, in order |
| `Lifecycle.BroughtUpMeans` | cmd/villa/up.go:118-143 | Every target ends up running, freshly started exactly when it was down or its unit changed |
| `Lifecycle.InNeedOnly` | cmd/villa/up.go:118-143 | What `up` starts or restarts is exactly the targets that were down or whose unit changed |
| `Lifecycle.RunRestart` | cmd/villa/restart.go:38-80 | A passing `restart` leaves exactly the specified host and restarts every target once, in order; it passes exactly when the target is admitted, no call fails and systemd knows every target |
| `Lifecycle.RunDown` | cmd/villa/down.go:36-67 | A passing `down` stops exactly the targets and touches no file; it passes exactly when the target is managed and no call fails |
| `Lifecycle.ApplyIsIdempotent` | cmd/villa/up.go:104-110 | Applying the same config again finds nothing to do |
| `Lifecycle.UpAfterUpOrDownDoesNothing` | cmd/villa/up.go:98-113 | A second `up` fires nothing, and neither does an `up` after a `down`: the stopped services stay down |
| `Lifecycle.UpKeepsCoherenceIff` | cmd/villa/up.go:98-144 | From a coherent, synced host a passing `up` stays coherent exactly when no running service outside its targets has a changed unit; it is always synced |
| `Lifecycle.WholeStackStrandsNobody` | cmd/villa/up.go:98-144 | A whole-stack `up` meets that condition always |
| `Lifecycle.WholeStageIsProper` | cmd/villa/lifecycle.go:126-145 | The targets of a whole-stack verb are the services of the config it applies, though it takes them from the one before the key was healed |
| `Lifecycle.StrandedStaysStranded` | cmd/villa/up.go:98-113 | A service stranded by a targeted `up` is helped by no later `up` |
| `Lifecycle.RestartCoheresIff` | cmd/villa/restart.go:67-80 | From any state a passing whole-stack `restart` puts every managed service on its unit exactly when it had a file to write or remove, or systemd had read the directory already |
| `Lifecycle.CoherenceIsForEver` | cmd/villa/up.go:98-144 | Any sequence of passing whole-stack ups, restarts and of downs, under any config edits, keeps coherence |
| `ResidentChange.CapturePrior` | cmd/villa/model_resident.go:616-653 | Without a failed call the capture holds the bytes of every file the change may touch and exactly the affected services that are plainly active; with one it never holds anything else |
| `ResidentChange.ApplyStaysWithinCapture` | cmd/villa/model_resident.go:473-480 | Every file the later apply writes or removes was captured, though it renders a healed config from a directory the orphan has left |
| `ResidentChange.RetireOrphan` | cmd/villa/model_resident.go:509-521 | The retired slot's service and file, recorded before and after as the source does |
| `ResidentChange.RetireAndApply` | cmd/villa/model_resident.go:509-536 | What was recorded covers what was touched, at whatever step it failed |
| `ResidentChange.Mutate` | cmd/villa/model_resident.go:509-562 | Succeeds exactly when the healed config renders and no call fails, and then leaves exactly the specified host; on failure a record covering every effect |
| `ResidentChange.Rollback` | internal/install/transaction.go:163-253 | A rollback is complete exactly when no call of it failed and systemd knows what it is to start again; then it has restored every recorded file, the config, and every recorded service to running or stopped |
| `ResidentChange.UndoneExactly` | cmd/villa/model_resident.go:482-500 | A complete rollback over a readable capture gives the services back exactly, but for touched ones that were up and still activating: those are left stopped |
| `ResidentChange.UndoneDisk` | cmd/villa/model_resident.go:482-500 | and gives the unit directory back byte for byte |
| `ResidentChange.RolledBackCleanly` | internal/install/transaction.go:163-253 | One failed call in the change leaves capture and rollback whole, so the host is given back |
| `ResidentChange.ApplyResidentChange` | cmd/villa/model_resident.go:467-562 | The whole transaction: without a failed call the change is made; unready or refused saves touch no unit; with at most one failed call, whichever it is, what is rolled back is rolled back completely from a coherent host and is exactly as it was, as above; a first save that landed though it failed is not undone |
| `ResidentChange.ChangeKeepsCoherenceIff` | cmd/villa/model_resident.go:509-562 | A change that passes has its slot up and its orphan gone, and stays coherent exactly when it rewrote no running service's unit but that of a plainly active chat UI |
| `ResidentSet.AllocPort` | cmd/villa/model_resident.go:740-751 | The least free port of the range, and 0 exactly when the range is full |
| `ResidentSet.FindCollision` | internal/residentset/admit.go:73-88 | A collision is reported exactly when two slots share a port or a unit |
| `ResidentSet.UsedBytes` | internal/residentset/admit.go:115-121 | The sum of footprints modulo 2^64 |
| `ResidentSet.Admit` | internal/residentset/admit.go:19-67 | The verdict, check by check, with the sum taken in a 64-bit word |
| `ResidentSet.AddIsHonestIff` | internal/residentset/admit.go:37-42 | An admitted candidate fits envelope less headroom exactly when the sum fits the word |
| `ResidentSet.SmallEnvelopeNeverWraps` | internal/residentset/admit.go:37-42 | Below 2^63 bytes of envelope that is always so, from a set that fits |
| `ResidentSet.ResidentSlots` | cmd/villa/model_resident.go:671-687 | The primary first, then every configured slot, or nothing when one cannot be sized |
| `ResidentSet.AdmitResident` | cmd/villa/model_resident.go:305-368 | An admitted slot has the least free port, its own workload, its unit name and fits |
| `ResidentSet.RunResidentAdd` | cmd/villa/model_resident.go:264-400 | Whatever happens, the configured slots are as before or have exactly the admitted one appended; an added slot is up; without a failed call an admitted model that renders is added |
| `ResidentSet.RunResidentRm` | cmd/villa/model_resident.go:404-458 | Whatever happens, the configured slots are as before or lack exactly the named model; the primary is refused untouched; without a failed call a configured model is removed |
| `ResidentSet.SetStaysSound` | cmd/villa/model_resident.go:264-458 | Over every history of adds and removals, however each ends: ports distinct, in range, never the primary's; units and models of slots distinct; total plus one headroom within the envelope |
| `ResidentSet.SurvivorsKeepTheirPorts` | cmd/villa/model_resident.go:382-388 | A slot present before and after a step is the same slot, port included |
| `ResidentSet.OnlyPortsCollide` | cmd/villa/model_resident.go:346-368 | Admission never sees a shared unit, because only one side carries the .service suffix: a collision is always one of ports |
| `ResidentSet.AddedIffNotServed` | internal/residentset/admit.go:19-67 | On any sound set with a free port and room, a candidate is added exactly when neither the primary nor a slot already serves that model, quant and length |
| `ResidentSet.PrimaryAdmittedTwiceIff` | internal/residentset/residentset.go:24-33 | On any sound set with a free port and room, the primary's own model is admitted as a second server exactly when its configured quant or length differs from the catalog's and no slot serves it yet |
| `SwapFrame.CaptureUnits` | cmd/villa/backend.go:81-110 | The captured bytes are those of exactly the rendered and registry files on disk, or of every villa file when the prior config does not render or a read of its plan fails |
| `SwapFrame.CapturedIff` | cmd/villa/backend.go:81-110 | Which files that is, file by file |
| `SwapFrame.Restore` | internal/stackapply/stackapply.go:248-262 | Writes the captured bytes back and removes nothing |
| `SwapFrame.RestoreGivesBackIff` | internal/stackapply/stackapply.go:248-262 | Restore gives the directory back byte for byte exactly when nothing outside the capture changed |
| `SwapFrame.RestartChanged` | internal/stackapply/transact.go:181-205 | Restarts the changed services that are up, every one of them if no call fails, and the named ones whether they are or not; every one it tried is reported, at whichever it failed |
| `SwapFrame.CutOver` | internal/stackapply/transact.go:148-168 | What was touched is within what is reported, and what was restarted is what systemd was asked; without a failed call it succeeds |
| `SwapFrame.CutOverCoheresIff` | internal/stackapply/transact.go:181-205 | From a coherent host every running service ends on its unit exactly when each that ran on a changed one was restarted |
| `SwapFrame.GivenBackDiskIff` | internal/stackapply/transact.go:118-146 | After any prefix of the apply, rollback restores the directory if every changed file was captured, and after a full apply only if |
| `SwapFrame.CoveredIffCaptured` | internal/stackapply/transact.go:118-146 | Everything the swap writes over is captured exactly when each differing file of the next render is on disk and is rendered by the prior config or in the registry (or is a villa file, when the prior cannot be planned) |
| `SwapFrame.GivenBackIffCovered` | internal/stackapply/transact.go:118-146 | So under that condition, which a caller can check beforehand, rollback restores the directory from any prefix, and after a full apply only then |
| `SwapFrame.GivenBackServices` | internal/stackapply/transact.go:118-146 | A clean rollback runs what ran before, from the same text, plus the proven service if the cutover reached it |
| `SwapFrame.RolledBackCleanly` | internal/stackapply/transact.go:118-146 | A rollback after the one failed call of a swap, or after a failed proof alone, is complete from a coherent host |
| `SwapFrame.Transact` | internal/stackapply/transact.go:98-174 | The whole frame: refusals change nothing and mean a failed call; a switch is settled, synced, proven, and coherent exactly when it restarted each service that ran on a changed unit; a clean rollback has the config and services back, and the directory if what the next render changes was on disk and is kept by the capture of the prior one, only then once the cutover was begun; which end a run without a failed call comes to, and that one failed call is rolled back completely from a coherent host |
| `Snapshots.SubsystemStop` | cmd/villa/update_snapshot.go:80-92 | Succeeds exactly when none of its calls fails, two for each service; then none of the subsystem's services is up, and no other was touched |
| `Snapshots.SubsystemStart` | cmd/villa/update_snapshot.go:103-112 | Every service is tried; it succeeds exactly when no call fails and systemd knows each that is down, and then all are up; data that fits its pin is left as it is |
| `Snapshots.RetainKeepsSafeIff` | cmd/villa/update_snapshot.go:48-71 | Retaining an export keeps every rollback target safe exactly when no target of the same name held anything else |
| `Snapshots.SnapshotData` | cmd/villa/update_snapshot.go:121-179 | A snapshot taken is complete, not empty and holds the volume; without a failed call one is taken exactly when there is data; with a clock that stamps every capture anew it has a new name and every finished snapshot stays untouched |
| `Snapshots.RestoreData` | cmd/villa/update_snapshot.go:197-246 | On a stopped subsystem it succeeds exactly when the snapshot is usable and no call fails, and then leaves exactly the snapshot, though import merges; a missing or empty snapshot is refused with nothing touched |
| `UpdateMoves.CaptureState` | cmd/villa/update_apply.go:167-210 | The rollback point: the bytes of exactly the rendered files on disk, the effective pins and the displaced snapshot, an empty record standing for one exactly when the call that reads it fails |
| `UpdateMoves.Mutate` | cmd/villa/update_apply.go:224-245 | Pins recorded, the whole stack applied, the subsystem and every running service whose unit changed restarted; whatever fails, all it changed is within what it reports; if no call to the stack fails a coherent stack stays coherent, and if none fails at all it succeeds |
| `UpdateMoves.PutTupleBack` | cmd/villa/update_apply.go:262-287 | Captured pins and files back, manager reloaded, and everything the mutation restarted running fresh |
| `UpdateMoves.Rollback` | internal/updateflow/updateflow.go:562-661 | A complete rollback has the captured pins, files and data back, everything it restarted fresh and the subsystem up; with data captured its services are asked to start exactly when each of them could be stopped, and a failed stop is reported incomplete with nothing else touched; one without a failed call puts everything back that systemd can start, and is complete if the proof passes |
| `UpdateMoves.Undo` | internal/updateflow/updateflow.go:562-661 | From a coherent host, a rollback in which no call and no proof fails is complete, from anything a mutation can leave |
| `UpdateMoves.CompleteRollback` | internal/updateflow/updateflow.go:562-661 | From anything a mutation can leave, a complete rollback has every captured file back and every service of any subsystem up that was up, on the text it ran if the host was coherent |
| `UpdateMoves.PinsPutBackIff` | cmd/villa/update_apply.go:172-179 | Every component has its pin back exactly when the capture could read the record or it held only the vetted pins |
| `UpdateFlow.FailedStopLeavesDown` | internal/updateflow/updateflow.go:599-607 | A concrete host on which a rollback's stop takes the service down, reports failure, and nothing is asked to start |
| `UpdateFlow.FinishAfterMutation` | internal/updateflow/updateflow.go:504-551 | Only a pass commits; anything else is undone; the stack that was proven is the one that is left; where nothing fails it commits and is recorded |
| `UpdateFlow.CommitProven` | internal/updateflow/updateflow.go:520-551 | The tuple recorded is the one captured before the mutation; an unrecorded commit leaves what runs, and displaces nothing |
| `UpdateFlow.RunStatefulMutation` | internal/updateflow/updateflow.go:425-488 | The stopped window: a refusal changes nothing but restarts, and asks every service to start again; a commit has the whole stack on the new render and the volume in the snapshot; a complete rollback puts back files, services, data and readable pins; rollback targets are safe throughout under fresh stamps |
| `UpdateFlow.RunOne` | internal/updateflow/updateflow.go:343-415 | One subsystem, each outcome with what it leaves; where nothing fails it commits; pins and tuples of the others untouched; their services still up unless the result says incomplete, their data changed only if a service of theirs was restarted from a unit that does not suit it; with a commit in which no call to the stack failed a coherent stack stays coherent; rollback targets safe throughout under fresh stamps |
| `UpdateFlow.Run` | internal/updateflow/updateflow.go:314-336 | One result per target; after the first halt all are not tried; what was committed stays on record with its tuple, and its services run unless something later was incomplete; nothing that ran before is down after a complete run, and a coherent stack is still coherent if no call to the stack failed in what was committed; each snapshot of the run is still held under fresh stamps |
| `UpdateFlow.ReleaseKeepsSafeIff` | internal/snapshotprune/snapshotprune.go:114-155 | Removing a snapshot keeps every rollback target safe exactly when no tuple points at it |
| `UpdateFlow.Cleanup` | cmd/villa/update_snapshot.go:263-296 | Removes only what a committed subsystem displaced and nothing on record points at; targets safe at every point |
| `UpdateFlow.RunSnapshotSurvives` | cmd/villa/update_snapshot.go:281-296 | Every snapshot a run took, that of a subsystem that rolled back included, is still there after the cleanup |
| `UpdateFlow.Update` | cmd/villa/update.go:315-351 | Run and cleanup together under a clock that stamps each capture anew: every rollback target safe at every point, every snapshot of the run held at the end, that of a rolled back transaction pointed at by nothing; what was committed runs as `Run` says |
| `UpdateFlow.ForgottenForEver` | cmd/villa/update_snapshot.go:263-296 | Over any history of updates and cleanups, a retained snapshot no tuple points at is never pointed at again and never removed |
| `SerialFloor.Verb.RunUpdate` | cmd/villa/update.go:205-317 | What is recorded, what reaches the apply flow and what that writes, flag by flag: never with `--check` or `--dry-run`, never a manifest below the floor read; a run that could read its record is a step of the history theorem |
| `SerialFloor.Verb.WritePinState` | cmd/villa/update_apply.go:305-361 | A write of the apply flow changes pins, and on commit one tuple, over a fresh read; on a record it cannot read it writes nothing |
| `SerialFloor.WritesKeepTheFloor` | cmd/villa/update_apply.go:305-361 | Any sequence of such writes, wherever they fail, keeps serial and time of check and never replaces an unreadable record |
| `SerialFloor.AppliedRunsAreSteps` | cmd/villa/update_apply.go:224-236 | A run that applies and moves a pin is one of the steps the history theorem speaks of |
| `SerialFloor.SerialDropsIff` | cmd/villa/update.go:205-256 | The recorded serial goes back exactly when the run could not see it and concluded on an older manifest |
| `SerialFloor.TuplesSurviveIff` | cmd/villa/update.go:205-256 | A concluded check keeps pins and rollback targets on record exactly when it saw them or there were none |
| `SerialFloor.FloorNeverDrops` | cmd/villa/update.go:205-261 | Over any history of runs that could read their record, applied ones with all their pin and tuple writes included, the serial never goes back, nothing older than any earlier record is applied, and the time of check moves only if a check concluded |
| `Bridge.RunSandboxBridge` | cmd/villa/sandbox_bridge.go:221-319 | Under every interleaving: no workspace, prompt, grant or cancel before the pinned version was reported; a started child is stopped last; one ready at most, before anything; events out are a prefix of Crush's; calls are those of a prefix of the commands; a completion is followed by exactly one word; a refusal ends in bridge_error |
| `Bridge.Relay` | cmd/villa/sandbox_bridge.go:269-318 | The select loop keeps all of that, whichever branch it takes when |
| `Bridge.ApplyCommand` | cmd/villa/sandbox_bridge.go:324-343 | One command, at most one call; a cancel goes to the session of the last prompt that went through, and to none if that came back empty |
| `Bridge.CheckVersion` | cmd/villa/sandbox_bridge.go:247-261 | A drifted version is refused with nothing done to a task |
| `Bridge.Complete` | cmd/villa/sandbox_bridge.go:288-303 | The end of a completed task, action by action |
| `Lines.ReadMessages` | cmd/villa/taskrun_live.go:267-282 | The reader of either end yields exactly the messages of the scanned lines |
| `Lines.RoundTrip` | cmd/villa/sandbox_bridge.go:225-232 | What is sent is read, in order, with any foreign lines in between |
| `Lines.OverlongTruncates` | cmd/villa/sandbox_bridge.go:348-367 | One line of 4 MiB or more ends the stream at exactly the messages before it |
| `Lines.AllArriveIff` | cmd/villa/taskrun_live.go:241-248 | Sent messages all arrive exactly when each of them fits a line |
| `Sse.ScanSse` | cmd/villa/taskapi.go:164-185 | The callback sees a prefix of the stream's frames, all of them unless it declines one; an overlong line is an error |
| `Sse.PrintedComesBack` | internal/dashboard/api_tasks.go:204-206 | Scanning printed frames gives them back and goes on behind them as if they had not been there |
| `Sse.RoundTripIff` | internal/dashboard/api_tasks.go:204-206 | All frames come back exactly when none is empty in both parts |
| `Sse.CutFrameIsDropped` | cmd/villa/taskapi.go:168-183 | A last frame without its empty line is dropped |
| `Sse.DataLinesJoin` | cmd/villa/taskapi.go:181-182 | Several data lines of a frame are joined with nothing in between |
| `Sse.AgreesWithStandardIff` | cmd/villa/taskapi.go:181-182 | That agrees with section 9.2.6 of the WHATWG HTML standard exactly for at most one data line |
| `ScrapeCache.ScrapeClient.Current` | cmd/villa/dashboard.go:207-215 | The client returned was built from the config of less than one TTL ago; loads are at least one TTL apart |
| `ScrapeCache.LoadsInWindow` | cmd/villa/dashboard.go:177-215 | A window of length L sees at most L/TTL + 1 loads |
| `ScrapeCache.LoadsCanFillWindow` | cmd/villa/dashboard.go:177-215 | Calls exactly one TTL apart load every time, so the bound is met |
| `Rerank.ParseScores` | cmd/villa/eval.go:193-217 | Accepted exactly when every index is in range and every document covered; each document has the score of its last result |
| `Rerank.ReadsBack` | cmd/villa/eval.go:193-217 | On a ranking of each document once, reading is the inverse of writing |
| `Rerank.RepeatKeepsTheLast` | cmd/villa/eval.go:206-211 | A document named again keeps the later score, the others theirs |

## Left out

- RecallHost.Host.ListUserChats: single pages are not modelled, only what they lead to: chats named again, at any version they had meanwhile, and chats missed, all quantified over.
- Snapshots.SnapshotData: stamps are numbers from a clock the proofs quantify over; what holds when the clock repeats a stamp is said by RetainKeepsSafeIff alone.
- ResidentSet.Admit: the eviction half of the package, which neither verb offers.
- UpdateMoves.Mutate: the agent's binary is a step that may fail, without a file of its own.
- UpdateFlow.RunOne: budgets are failures of a step; that the capture could not read the pin record is a ghost result, because the source keeps no trace of it either.
- UpdateFlow.Run: the config is read anew for each subsystem, so that a key which one apply generated is kept by the next; the source loads it once and, with none configured, generates another for each.
- SwapFrame.Transact: the proof is a verdict given from outside; the stack lock is a step that may fail.
- Bridge.RunSandboxBridge: event and command streams are finite sequences, and what makes a branch ready is left to the choice of branch; contents of error messages are dropped.
- Sse.ScanSse: trimming knows the ASCII spaces only; bytes are characters.
- ScrapeCache.ScrapeClient.Current: the clock is monotone, as Go's is, and config.toml is read at the instant the clock was.
- Rerank.ParseScores: scores are reals.
- The inference-secret file and crush.json that an apply heals, and the chat UI's stored connection list, are steps that succeed or fail without state.
- The container image prune, `recall status`, `--json` output, narration, preflight gates, doctor, install, backup, benchmark and eval verbs, evalMemoryProof, topScore and qdrantWritableProbe: single readings of one body, or wiring of cores modelled here.
- Podman, systemctl, HTTP, signals, file modes and process exit codes: each is a step with an effect on the stores above.
- execBridge.Wait's once-guard and the goroutines and channels of both stdio readers: a reader is the function from its stream to its messages.
- Signature verification and JSON decoding: predicates and a lawful codec.
