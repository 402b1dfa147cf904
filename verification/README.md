# Models of the storage engine's protocols

Dafny models of the parts of the engine that keep data through moves, crashes and restarts, and of
the small stateful parts around them, with proofs of what each promises. Verify everything with
`dafny verify dfyconfig.toml`.

| module | models |
|---|---|
| `Restart` | what a restart maps each extent to: the records reconciled with the slot tables |
| `Relocation` | legs copied, published, owed, persisted and freed by several movers at once, slots shared with clones, flushes and restarts between any two steps |
| `SlotTables`, `Records` | what the slot tables and the records keep through every step |
| `Recovery` | what a restart reads after any run |
| `FailedPersists` | persists that fail part-way, and freeing without looking at the answer: exactly when each is safe |
| `Losses`, `FailureRuns` | what a restart loses otherwise, and runs from an empty node to where it does |
| `Checkpoints` | the callers: a leg moved, a checkpoint, a persist then a release |
| `CrashDevices` | the power-cut test device: a volatile write cache over a durable image, FUA, flush, an armed cut, torn writes |
| `RebuildQueue` | the rebuild scheduler: queue and index, running set, reruns, jobs |
| `Rebalance` | the rebalance planner and the run of its plan |
| `ReleaseErase` | the release erase, cut after any act and run again at the next boot |
| `Logcast` | the log follower, its backlog and its destinations |
| `Latency` | the latency histogram kept per second in a ring |
| `FreeMaps` | the free bitmap with its per-chunk summary |
| `Direct` | short reads and writes continued, and the ring thread's bookkeeping |
| `Retry`, `Transfer` | bounded retries, the resumed transfers over them, and redirects |
| `Drain` | draining a drive, over the slots, maps and persists of `Checkpoints` |
| `SlabMigration` | emptying a slab where the slot tables are the only record, with the power cut after any act |
| `Migrate` | waiting for a mirror before its remote member goes |
| `Arithmetic`, `Sets`, `Options` | shared facts and types |

Each imperative part of the engine is a class or method here, proved equal to a specification on
values; the theorems are about that specification, over every run.

## Where the code and what is said of it differ

- A persist that writes only some of its records is marked written all the same
  (`src/volume/mod.rs:3806-3841`), and an older one that comes to its turn after it answers that "a
  newer snapshot is already on disk, and it holds all of this" (`src/volume/mod.rs:3785-3791`). That is
  so of format 1 records; the change lists of format 2, the default (`src/drive/slab.rs:32-41`), are
  applied before (`src/volume/mod.rs:3773-3780`). So with format 1 even a caller that checks the answer
  frees slots the records on disk still name. A restart reconciles those with the slot tables and takes
  the newest slot of an extent of one leg, so such an extent loses nothing it flushed
  (`Recovery.AFlushedWriteSurvives`); it goes by the record of what a clone shares, and of a mirror's
  legs. `FailedPersists.MarkedWrittenIff` says exactly when those records go on naming slots of their
  own. Otherwise a restart drops the clone's extent, `Losses.APartialFailureDropsAClone`, or a mirror's
  leg reads another extent's bytes, `Losses.APartialFailureMixesUpAMirror`;
  `FailureRuns.AFalseSuccessIsPossible` gives a run. The theorems over runs are for runs in which no
  persist fails part-way while an older one relies on what it did not write.
- A drain and a rebalance free their source slots without looking at whether the persist succeeded
  (`src/drain.rs:143-151`, `src/rebalance.rs:330-338`): `FailedPersists.UncheckedIff` says exactly when
  that keeps what a restart needs. Otherwise it drops a clone's extent
  (`Losses.AnUncheckedFailureDropsAClone`, `Losses.AnUncheckedFailureDropsARecordUnderWay`), takes an
  extent of one leg back to an older copy, or drops it, when its new slot's flush had failed
  (`Losses.AnUncheckedFailureGoesBack`), or lets a mirror's leg read another extent's bytes
  (`Losses.AnUncheckedFailureMixesUpAMirror`). `FailureRuns.SuchAFailureIsPossible`,
  `FailureRuns.AFailedFlushIsPossible` and `FailureRuns.AMirrorCanBeMixedUp` give runs from an empty
  node. A moved mirror leg keeps its extent's generation so that legs can be told from stale copies
  (`src/placement/mod.rs:567-569`); so its new slot is never newer than the record that names the old one.
- A slab migration moves extents to "any other available slabs if needed" (`src/migrate.rs:164-166`) and
  makes only the new one durable before it frees the sources: nothing is lost if and only if every
  copy went to that one, `SlabMigration.NothingIsLostIff`; `SlabMigration.ItCanGoElsewhere`.
- The rebuild scheduler lets go of its lock between ending a pass and requeueing it
  (`src/rebuild.rs:530-536`): `RebuildQueue.RequeueIff` and `RebuildQueue.AStartInTheGapBreaksTheIndex`.
  The theorems over runs are for runs in which no start of that volume falls in the gap.
- A start on a volume whose cancelled pass still runs ends cancelled, and no other does that nobody
  cancels: `RebuildQueue.AnEntryEndsCancelledIff`; `RebuildQueue.AStartUnderACancelledPassIsCancelled`.
- The rebalance's recheck says the legs are still apart and looks only at slabs
  (`src/rebalance.rs:382-393`): `Rebalance.RecheckKeepsApartIff`, over runs
  `Rebalance.RunKeepsApartIff`; `Rebalance.TheRecheckCanPutLegsTogether`.
- "What was already laid again is laid again" (`src/release_erase.rs:34-37`) holds only for volumes
  still there, or laid and already marked: `ReleaseErase.WhatACutLoses`. A state volume planned kept
  is deleted all the same: `ReleaseErase.KeptSurvivesUnlessItIsTheStateVolume`. A sealed one takes no
  writes, so `ReleaseErase.ASealedStateVolumeIsLost` has the declaration in its ticket already; what
  seals volumes is not part of this model. A golden with the temporary name is erased:
  `ReleaseErase.RelaySourceIsKeptIff`.
- A transfer into a file need not end (`src/http.rs:602-629`), where one into a channel does:
  `Transfer.AFileTransferNeedNotEnd`. It goes on without end exactly when the server, while it goes on,
  starts over more often than any number: `Transfer.AFileTransferNeverEndsIff`. Over a file left by something else it can succeed with the
  wrong content: `Transfer.ResumingIsRightIff`.
- The bearer is said to be dropped once a hop leaves the first host (`src/http.rs:454-455`); it is
  sent again exactly when the answers lead away from the first origin and back there:
  `Transfer.TheBearerComesBackIff`, `Transfer.TheBearerComesBack`.
- A leg that changed while a drain waited for it is said to be as one in use, with nothing moved and the
  next pass looking again (`src/drain.rs:347-349`); it is counted as failed,
  `Drain.AChangedLegCountsAsFailed`, and is tried again exactly when the map no longer has it as its
  extent's leg on that slab, `Drain.TriedAgainIff`.
- Durations of 2^32 us and more are put in the last bin, which does not hold them:
  `Latency.ADurationIsInItsBinIff`.

## Model

| member | source | states |
|---|---|---|
| `Restart.RecordIsTakenIff` | src/volume/mod.rs:4600-4614 | A restart takes a record over the tables if and only if it names the first slot of the extent's newest generation on disk, or its own first leg is of that generation |
| `Restart.TheNewestIsTaken` | src/volume/gem.rs:1182-1200 | An extent of one leg, whose slots are of different generations, is found in its newest slot on disk, whatever the record says |
| `Restart.AShareIsWhereTheRecordSays` | src/volume/mod.rs:4546-4597 | What a volume shares is found where its record has it, while that slot is its ancestor's at the same place |
| `Restart.AMappingIsDroppedIff` | src/volume/mod.rs:4546-4597 | A mapping whose extent has no slot on disk is dropped if and only if the slot on record has no entry, or one of its own volume, or of an ancestor elsewhere, or of a volume on record that one map alone has and that is no clone of this sealed one there; otherwise it stays as recorded |
| `Restart.ASupersededRecordGivesWay` | src/volume/gem.rs:1182-1200 | Where the record is not taken the legs are exactly the slots of the highest generation on disk, in the order of their slabs |
| `Restart.ARecordIsTakenAgain` | src/volume/mod.rs:4600-4614 | A record that a newer slot had superseded is taken again once its first leg comes back to the slot it names |
| `SlotTables.StepKeeps` | src/placement/mod.rs:557-578 | Every step of any mover keeps the tables' invariant: an extent of one leg is mapped to its newest slot, its slots are of different generations, no slot is freed or due while it is the newest of its extent on disk, and what is on record of it has an entry there |
| `SlotTables.TheNewestComesBack` | src/volume/gem.rs:1158-1200 | From that, a restart maps an extent of one leg to its newest slot on disk, if it has one there |
| `Records.StepKeeps` | src/placement/mod.rs:794-951 | Every step (create, clone, write, copy, give back, publish, take records, flush, write them, free, a slot-table entry on its own, a restart) keeps that, and: the records a restart goes by, on disk and under way, name allocated slots that are their extent's own, or its ancestor's there, and hold what was saved |
| `Recovery.RunKeeps` | src/volume/mod.rs:3206-3229 | The invariant holds over every run of steps by any number of movers, with persists that fail, finish out of order, or write a part or all of their records although they report failure, as long as none fails part-way while an older one relies on the rest |
| `Recovery.RecoveryReadsWhatWasSaved` | src/volume/mod.rs:4192-4251 | After any run and a restart at its end nothing on record is dropped: what a clone shares, and every leg of a mirror whose record is taken, is in its slot and reads what was saved; another mirror comes back at a newer slot of its own, and an extent of one leg at its newest slot on disk |
| `Recovery.AfterACrash` | src/volume/mod.rs:4492-4625 | The same from the invariant alone |
| `Recovery.AFlushedWriteSurvives` | src/placement/mod.rs:557-566 | What an extent of one leg holds when its slot's entry is flushed, moved since its record was written or not, is what it reads after any run that writes nothing to it, however many moves, failed persists and restarts there are in it |
| `Recovery.StepSurvives` | src/placement/mod.rs:557-566 | Every step but a write to it keeps it so, a persist that fails part-way included, whatever relies on it |
| `Recovery.SavedChangesOnlyByWritesAndPersists` | src/volume/mod.rs:3777-3842 | What is saved of an extent changes only by a write to the slot on record, or by a persist that wrote its record and was not older than one marked written |
| `Recovery.NothingElseChangesWhatIsRead` | src/placement/mod.rs:905-941 | Moving, sharing, persisting and freeing change no byte any volume reads |
| `Recovery.TheLastWriteIsRead` | src/volume/thin.rs:1870-1878 | Until the power goes, what was written or created last under a key is what is read, whatever is moved, shared, persisted and freed meanwhile |
| `Recovery.AStoredAndFlushedIsRead` | src/placement/mod.rs:557-566 | And what was stored in an extent of one leg and then flushed is read after any run that writes nothing to it, however often the power goes |
| `Recovery.SharesAreCounted` | src/placement/mod.rs:910-935 | Until the power goes, the count kept beside each slot in use is the number of map entries that name it, however slots were created, cloned and moved: a copy takes the count over |
| `Recovery.FreedOnlyWhenNothingNeedsIt` | src/placement/mod.rs:228-246 | A slot is freed only when no map names it, no record a restart goes by does, on disk or under way, and an extent of one leg has a newer one on disk |
| `FailedPersists.MarkedWrittenIff` | src/volume/mod.rs:3783-3842 | A persist marked written keeps the invariant if and only if it wrote every record on disk that a restart goes by and that names a slot an older persist still under way is paying for |
| `FailedPersists.UncheckedIff` | src/drain.rs:143-151 | Freeing after a persist whose answer is not looked at keeps the invariant if and only if, before it ends, neither what stays on disk nor the records of another persist under way, of what a restart goes by, name a slot it is paying for, and each such slot of an extent of one leg has a newer one on disk; so it does whenever all the records were written, even if it reports failure |
| `FailedPersists.DueAgain` | src/placement/mod.rs:228-246 | Slots made due are safe to free where no such record names them and newer ones are on disk |
| `Losses.APartialFailureDropsAClone` | src/volume/mod.rs:3785-3791 | Where a clone's record that is not written names what an older persist is paying for: that one is told that all is well, the slot is freed, and a restart drops the clone's extent |
| `Losses.APartialFailureMixesUpAMirror` | src/volume/mod.rs:3785-3791 | Where a mirror's does, and the tables without the slot still bear the record out: the slot is given to another extent, and after a restart the leg reads that one's bytes |
| `Losses.AnUncheckedFailureDropsAClone` | src/drain.rs:143-151 | Freed without a look at the answer while a clone's record on disk names it: a restart drops the clone's extent |
| `Losses.AnUncheckedFailureDropsARecordUnderWay` | src/drain.rs:143-151 | So it does when the records of another persist under way name it, and are written |
| `Losses.AnUncheckedFailureGoesBack` | src/volume/gem.rs:1182-1200 | Freed while it is the newest of its extent on disk: a restart finds the extent at an older generation, or not in a slot of its own |
| `Losses.AnUncheckedFailureMixesUpAMirror` | src/volume/mod.rs:4600-4614 | Freed while a mirror's record that the tables bear out names it: it is given to another extent, and after a restart the leg reads that one's bytes |
| `FailureRuns.AFalseSuccessIsPossible` | src/volume/mod.rs:3837-3841 | A run from an empty node to where a persist that did not fail is told that all is well and a clone's extent is lost |
| `FailureRuns.SuchAFailureIsPossible` | src/rebalance.rs:330-338 | A run to where every slab is flushed, the persist fails all the same, and freeing loses a clone's extent |
| `FailureRuns.AFailedFlushIsPossible` | src/volume/mod.rs:3759-3771 | A run to where a flush may fail, and freeing takes an extent of one leg back |
| `FailureRuns.AMirrorCanBeMixedUp` | src/placement/mod.rs:567-578 | A run to where freeing lets a mirror's leg read another extent's bytes |
| `Checkpoints.Store.Checkpoint` | src/rebuild.rs:448-461 | A rebuild's checkpoint: on a checked success exactly the owed slots are freed and the disk has the map; on a failure nothing is freed and the disk has what was written, some of the records, all or none; the invariant is kept if and only if no persist under way relied on the rest |
| `Checkpoints.Store.PersistThenRelease` | src/drain.rs:143-151 | A drain's: the records taken and flushed, the persist ended however it does, and exactly the owed slots freed |
| `Checkpoints.PaidOffIff` | src/drain.rs:143-151 | That keeps the invariant if and only if, before it, no record a restart goes by that is not replaced, nor one that may yet be written, names what is owed, no persist under way relied on a record not written, and, where the slabs are not flushed, what is owed is not the newest on disk of an extent of one leg |
| `Checkpoints.PaidOffIs` | src/drain.rs:143-151 | It changes nothing any volume reads, and frees exactly what is owed |
| `Checkpoints.Store.ReleaseSlots` | src/placement/mod.rs:228-246 | Exactly the listed slots become free |
| `Checkpoints.Store.MoveLeg` | src/placement/mod.rs:794-951 | One leg copied, published in every map that names it, and its source owed; nothing is freed |
| `Checkpoints.MovedIs` | src/placement/mod.rs:905-941 | After a move every volume reads what it did, no map names the source, and it is owed with the others |
| `SlabMigration.NothingIsLostIff` | src/migrate.rs:193-222 | Wherever the power goes, the map rebuilt from the tables on disk reads every extent as it was, if and only if every copy went to the slab that is synced before the sources are freed |
| `SlabMigration.EveryCutReads` | src/migrate.rs:193-222 | Then at every cut each extent has a slot in a table on disk, and its newest ones hold its bytes |
| `SlabMigration.ElsewhereIsLost` | src/placement/mod.rs:1346-1348 | A copy on another slab is in no table on disk when all is done, and its extent has no home |
| `SlabMigration.ScriptLeaves` | src/migrate.rs:193-222 | When all is done the tables on disk hold, each as it was, slots that were not moved, and on the synced slab copies one generation on; nothing else |
| `SlabMigration.ItCanGoElsewhere` | src/placement/mod.rs:1855-1900 | A node and a move where that happens |
| `SlabMigration.Slabs.Evacuate` | src/placement/mod.rs:1310-1398 | Each extent on the source is moved once, to a free slot elsewhere, or skipped once it failed, until all were tried or it is stopped |
| `SlabMigration.Slabs.MigrateToSlab` | src/migrate.rs:168-222 | The copies are made, the destination synced, and only then the sources freed; a sync that fails part-way frees nothing |
| `CrashDevices.Step` | src/drive/crashdev.rs:227-277 | Each operation keeps `view == durable with the cached writes replayed in order` |
| `CrashDevices.ReadsSeeTheLastWrite` | src/drive/crashdev.rs:227-277 | After any history a byte reads as the last plain or FUA write in range that covers it left it, and as the image has it where there was none |
| `CrashDevices.FuaUnderReplay` | src/drive/crashdev.rs:247-266 | Patching overlapping cached writes with a FUA write's bytes is what keeps that invariant: replaying the patched cache over the new image is the old view with the FUA write |
| `CrashDevices.TornImageIsUntornInEachUnit` | src/drive/crashdev.rs:118-150 | Every crash image, in each atomic unit, is the image of an untorn crash that keeps some of the writes whole |
| `CrashDevices.UntornIsReplay` | src/drive/crashdev.rs:118-150 | An untorn crash that keeps some writes is those writes replayed over the durable image |
| `CrashDevices.AnUntornCrash` | src/drive/crashdev.rs:118-150 | A crash that tears nothing leaves the writes the draws keep, in order, over the durable image |
| `CrashDevices.KeepNothingKeepAll` | src/drive/crashdev.rs:108-155 | Keeping nothing gives exactly the durable image, keeping all exactly the view |
| `CrashDevices.CertainIffFixed` | src/drive/crashdev.rs:108-155 | A byte has the same value in every crash image if and only if the durable image and every cached write over it agree on it |
| `CrashDevices.SettledBytesSurviveEveryCrash` | src/drive/crashdev.rs:227-277 | For every history, kept subset and tear: a byte whose last write was a FUA, or was followed by a flush, is in every crash image as reads see it |
| `CrashDevices.StepFixes` | src/drive/crashdev.rs:227-277 | Which operations settle a byte, and that a settled one stays so |
| `CrashDevices.AfterTheCutNothingChanges` | src/drive/crashdev.rs:233-236 | Once an armed cut has fired, no later write, FUA or flush changes what may survive |
| `CrashDevices.CutTakesTheStateAtArrival` | src/drive/crashdev.rs:174-179 | A cut armed for the nth write takes the state just before it arrives |
| `CrashDevices.NotCutYet` | src/drive/crashdev.rs:174-184 | Until then nothing is cut |
| `CrashDevices.MasksByMode` | src/drive/crashdev.rs:130-140 | An untorn write lands whole; a prefix tear lands as many pieces as are drawn, at least one and not all; a scatter lands the pieces drawn |
| `CrashDevices.Pieces` | src/drive/crashdev.rs:124-145 | The loop splits a write exactly at unit boundaries: piece k is the bytes in the kth unit it touches |
| `CrashDevices.BuildImage` | src/drive/crashdev.rs:108-155 | The loops build exactly the image the draws describe, and count the torn writes |
| `CrashDevices.CrashDevice.FromImage` | src/drive/crashdev.rs:75-98 | A new device shows its image |
| `CrashDevices.CrashDevice.Read` | src/drive/crashdev.rs:217-225 | A read answers the view, or refuses past the end |
| `CrashDevices.CrashDevice.WritePlain` | src/drive/crashdev.rs:227-245 | A write in range is read at once and waits in the cache, the durable image untouched; one past the end changes nothing; either is the step of the model |
| `CrashDevices.CrashDevice.WriteFua` | src/drive/crashdev.rs:247-267 | A FUA write in range is in what reads see and in the durable image; one past the end changes nothing; the cache is as the step of the model has it |
| `CrashDevices.CrashDevice.FlushCache` | src/drive/crashdev.rs:269-277 | After a flush the durable image is what reads see, which did not change, and the cache is empty |
| `CrashDevices.CrashDevice.ArmCut` | src/drive/crashdev.rs:174-179 | Arming a cut changes nothing else, and forgets one that fired |
| `CrashDevices.CrashDevice.CrashWith` | src/drive/crashdev.rs:108-155 | The device after a crash shows the image the draws describe of what survived; with nothing torn and no cut, the writes kept over the durable image |
| `RebuildQueue.RunKeeps` | src/rebuild.rs:262-551 | Over every interleaving of starts, cancels, pumps, ends of passes, requeues and changes of the limit, the queue, its index, the running set, the rerun set and the job table agree |
| `RebuildQueue.StartKeeps` | src/rebuild.rs:281-352 | A start keeps it; each volume asked for is due another pass if it is being rebuilt, and no other is, and else is queued once, at the most urgent margin anyone gave it: in its old place if it already waits that urgently, else after all that wait |
| `RebuildQueue.TheNewJobIs` | src/rebuild.rs:285-337 | The job a start makes is remembered, with an entry for each volume named, in order, running where the volume is being rebuilt and waiting otherwise |
| `RebuildQueue.HowAnEntryChanges` | src/rebuild.rs:490-526 | What one step of any run makes of one entry: done if and only if its volume's pass, not told to stop and with no other pass due, ends with the volume healthy or gone; partial if and only if it ends with it unhealthy; cancelled with its job or when a pass told to stop ends; running from the pump that starts its volume, waiting again from the requeue |
| `RebuildQueue.JobStatesSay` | src/rebuild.rs:386-410 | Over every run a job is done only with all its entries, partial only with one that is and none cancelled, cancelled only with one that is, waiting only with none running, and unfinished only with one that is |
| `RebuildQueue.WhatACancelTakes` | src/rebuild.rs:362-375 | A cancel takes exactly the volumes its job alone still waits for: out of the queue, not run again, their passes told to stop; every other stays as it was |
| `RebuildQueue.PumpStarts` | src/rebuild.rs:416-423 | What a pump takes off the queue it starts, with a pass begun now and not told to stop; what runs goes on, and what is left waits as it did |
| `RebuildQueue.ForgottenIff` | src/rebuild.rs:339-346 | A job is forgotten if and only if it has ended and 64 newer ones have |
| `RebuildQueue.CancelKeeps` | src/rebuild.rs:356-383 | A cancel keeps it |
| `RebuildQueue.PumpKeeps` | src/rebuild.rs:413-438 | A pump keeps it, fills the room there is, and never takes the running set past the limit |
| `RebuildQueue.FinishPassKeeps` | src/rebuild.rs:490-530 | The end of a pass keeps it |
| `RebuildQueue.RequeueKeeps` | src/rebuild.rs:531-549 | A requeue keeps it |
| `RebuildQueue.NoReportIsLost` | src/rebuild.rs:298-301 | An entry that ended done or partial was ended by a pass of its volume that began after its job was asked for |
| `RebuildQueue.NeverStranded` | src/rebuild.rs:413-438 | While a job is unfinished a pass is running, or a requeue or a pump is still to come |
| `RebuildQueue.FinishedJobsStay` | src/rebuild.rs:386-410 | A finished job never changes; only a later start may forget it |
| `RebuildQueue.CancelSparesOthers` | src/rebuild.rs:362-380 | Cancelling one job changes no other job |
| `RebuildQueue.PumpTakesTheMostUrgent` | src/rebuild.rs:416-419 | What a pump leaves queued comes, by margin and then arrival, after everything it started |
| `RebuildQueue.WorkFalls` | src/rebuild.rs:490-551 | With no new start the measure 3·rerun + 2·queue + running + 3·requeueing never rises, and falls at every end of a pass and requeue |
| `RebuildQueue.WorkBoundsTheRun` | src/rebuild.rs:490-551 | So the passes still to end are bounded by the work at hand |
| `RebuildQueue.NoWorkLeftMeansAllEnded` | src/rebuild.rs:386-410 | When no work and no pump is left, every job has ended |
| `RebuildQueue.RequeueIff` | src/rebuild.rs:531-549 | A requeue keeps the queue and its index in agreement if and only if nothing queued or started the volume since its pass ended |
| `RebuildQueue.AStartInTheGapBreaksTheIndex` | src/rebuild.rs:530-541 | A start between the two critical sections leaves an entry of the queue that its index does not have |
| `RebuildQueue.AnEntryEndsCancelledIff` | src/rebuild.rs:493-498 | Over every run, an entry of a job nobody cancels ends cancelled if and only if its volume's pass, when it was asked for, had been told to stop; every other that ends is ended by a pass that began after |
| `RebuildQueue.AStartUnderACancelledPassIsCancelled` | src/rebuild.rs:298-301 | A run from an idle node where that happens |
| `RebuildQueue.Rebuilds.Start` | src/rebuild.rs:262-352 | The loop over the volumes and the trimmed history are the model's start |
| `RebuildQueue.Rebuilds.Cancel` | src/rebuild.rs:356-383 | The loop is the model's cancel; answers whether the job is known |
| `RebuildQueue.Rebuilds.PumpQueue` | src/rebuild.rs:413-438 | The loop is the model's pump |
| `RebuildQueue.Rebuilds.FinishPass` | src/rebuild.rs:490-530 | The first critical section is the model's end of a pass; answers whether to requeue |
| `RebuildQueue.Rebuilds.RequeueHit` | src/rebuild.rs:531-549 | The second is the model's requeue: the volume waits at the margin it is given, after all that wait |
| `RebuildQueue.Rebuilds.TrimHistory` | src/rebuild.rs:340-346 | The last 64 finished jobs are kept, the oldest forgotten first |
| `Rebalance.PlanIsSound` | src/rebalance.rs:159-219 | A pool's plan keeps the sum of used slots, carries no slab past its target, lowers the distance to the targets by exactly two a move, stays within its limit, and fits every slab |
| `Rebalance.TargetsFit` | src/rebalance.rs:165-166 | A target is never more than the slab holds |
| `Rebalance.TargetsHoldEverything` | src/rebalance.rs:165-166 | The targets together have room for all the pool holds |
| `Rebalance.ThePoolIsSettled` | src/rebalance.rs:163-217 | The plan of one pool, in terms of its slots: each move is of a leg that may move, off a slab more than one slot and more than a hundredth of its slots above its share and still above it then, to a slab that has room, none with room being less full; and each slab so far above its share ends at it, or the list is full, or every extent walked with a leg there (of several that share its slot the first) may not move, has that leg planned away, or had no slab with room when it was considered |
| `Rebalance.EveryPoolIsSettled` | src/rebalance.rs:145-219 | So it is of each pool of the whole plan, and the rest of the plan moves nothing off its slabs |
| `Rebalance.EachLegCounts` | src/rebalance.rs:180-206 | Every leg considered is planned away or counted as left, once |
| `Rebalance.SameAtIff` | src/placement/domain.rs:136-155 | Two known domains fail together at a rung if and only if they agree on every label down to it, or on all they have where neither names it |
| `Rebalance.BestIsTheEmptiestThatFits` | src/rebalance.rs:196-202 | The destination is a slab that fits, with the least fill, and there is none exactly when no slab fits |
| `Rebalance.PoolPlanKeepsLegsApart` | src/rebalance.rs:172-216 | For every extent that lives in the pool: each of its moves applies in turn, and its legs end on different slabs, apart at its rung if they were; no leg is moved twice |
| `Rebalance.PlannedFrom` | src/rebalance.rs:145-219 | The same for a plan over any number of pools, whose list stays within the limit |
| `Rebalance.RunningThePlanKeepsLegsApart` | src/rebalance.rs:382-398 | Running the whole plan on the maps it was made from, every copy succeeding: no move of an unshared extent that lives in one pool is skipped, and its legs end on different slabs, apart at its rung if they were |
| `Rebalance.RunKeepsSlabsDistinct` | src/rebalance.rs:380-397 | Whatever fails, is skipped or quarantined, an extent no other map shares keeps its legs on different slabs |
| `Rebalance.RunKeepsApartIff` | src/rebalance.rs:380-397 | And its legs stay apart at its rung through the whole run if and only if each of its moves that is made goes apart from the legs that stay |
| `Rebalance.RecheckKeepsApartIff` | src/rebalance.rs:382-393 | A move that passes the recheck keeps the legs apart at the rung if and only if its destination is apart from the legs that stay |
| `Rebalance.TheRecheckCanPutLegsTogether` | src/rebalance.rs:383-393 | A move the recheck lets through that puts two legs on one drive |
| `Rebalance.TheRestIsSkipped` | src/rebalance.rs:176-178 | Leaving the inner loop early is the same as considering the rest of the extents |
| `Rebalance.Destination` | src/rebalance.rs:195-202 | The loop over the slabs finds that destination |
| `Rebalance.ScanSlab` | src/rebalance.rs:174-217 | The inner loop, with its early exit, is the specification's scan |
| `Rebalance.PlanPool` | src/rebalance.rs:147-219 | The plan of one pool by its loops is the specification's |
| `Rebalance.Plan` | src/rebalance.rs:117-242 | The loop over the pools is the specification's plan; every pool is settled by it |
| `Rebalance.RunPlan` | src/rebalance.rs:365-425 | Each move is made, skipped or failed once, and counted as what became of it, until the end or a cancel; a persist at each 64 moves made and one at the end |
| `Rebalance.WhatAMoveRewrites` | src/rebalance.rs:383-404 | A move that is made rewrites the leg in every map that names it and nothing else; one whose extent has no leg on the source, has one on the destination, or whose destination is quarantined, changes nothing |
| `ReleaseErase.TheStateIsNeverLost` | src/release_erase.rs:345-376 | However many boots are cut, and wherever: there is a volume called `stormblock-state` or its `.release-new`, and while the old one is there its ticket is pending with the declaration first read |
| `ReleaseErase.OneWholeBootFinishes` | src/release_erase.rs:238-250 | After any cuts, one whole boot in which nothing fails leaves exactly one state volume, with no ticket |
| `ReleaseErase.BootStands` | src/release_erase.rs:238-376 | One boot from any such state, cut after any act, leaves such a state |
| `ReleaseErase.DescendantsGoFirst` | src/release_erase.rs:279-286 | No volume is deleted before a descendant of it that goes too |
| `ReleaseErase.RelaySourceIsKeptIff` | src/release_erase.rs:134-146 | What a volume is laid again from is itself kept, if and only if it does not have the temporary name |
| `ReleaseErase.KeptSurvivesEveryCut` | src/release_erase.rs:134-141 | The machine record, and every release golden not under the temporary name, is untouched wherever a run is cut, unless it is the ticketed state volume |
| `ReleaseErase.KeptThroughEveryBoot` | src/release_erase.rs:14-16 | However many boots are cut, and wherever, the machine record and the release's goldens are there as they were |
| `ReleaseErase.PlannedIs` | src/release_erase.rs:134-149 | What is planned for a volume: kept, if and only if it is one of those; laid again from a golden, if and only if it is the release's, not sealed, under no name kept or temporary, and cloned from that sealed release golden; erased otherwise |
| `ReleaseErase.NothingWithoutATicket` | src/release_erase.rs:222-230 | With no state volume whose ticket is pending, nothing is run |
| `ReleaseErase.KeptSurvivesUnlessItIsTheStateVolume` | src/release_erase.rs:377-385 | A whole run keeps such a volume if and only if it is not the state volume, which is deleted even then |
| `ReleaseErase.WhatAReleaseLeaves` | src/release_erase.rs:282-385 | What an uncut run leaves, whatever fails in it. Of what was there, the state volume aside: exactly the machine record, the release goldens not under the temporary name, and what could not be deleted, unchanged. Each unsealed release volume that was deleted and whose release golden is still there is laid again, once, as a fresh clone of it under its name, `stormcos-state` with the declaration, unless its laying fails. The state volume is fresh, or still the old one with its ticket. There is nothing else |
| `ReleaseErase.DeclaredIs` | src/release_erase.rs:257-276 | The declaration carried is the one saved in the ticket, or else what `stormcos-state` holds, or nothing |
| `ReleaseErase.WhatACutLoses` | src/release_erase.rs:292-320 | After a cut, a volume to lay again is so by the next run if and only if it is still there, or its clone is there already marked the release's |
| `ReleaseErase.WhatIsLostStaysLost` | src/release_erase.rs:292-320 | Otherwise the next whole run leaves no volume of its name |
| `ReleaseErase.ACutLosesAVolume` | src/release_erase.rs:294-305 | A run cut right after its first delete has lost that volume |
| `ReleaseErase.SuchARunIsPossible` | src/release_erase.rs:127-155 | A sound node where that first delete is of a volume to lay again |
| `ReleaseErase.DeletionOrder` | src/release_erase.rs:279-286 | The order holds each volume that goes once, deepest first |
| `ReleaseErase.Manager.Perform` | src/release_erase.rs:400-408 | Each change of the volumes is the act it is logged as |
| `ReleaseErase.Manager.RunTicket` | src/release_erase.rs:253-376 | The run's loops make exactly the acts of the specification, in an order that goes deepest first |
| `ReleaseErase.Manager.BootLocal` | src/cli.rs:9899-9912 | A boot finishes a release cut short, then runs the pending ticket: exactly the acts of the specification |
| `Logcast.StreamingIsSplitting` | src/logcast.rs:150-159 | However a file grows between reads, the lines given so far are the split of the bytes read so far, and the partial line is its unterminated rest |
| `Logcast.SplitInvertsJoin` | src/logcast.rs:154-157 | Splitting joined lines gives them back |
| `Logcast.JoinInvertsSplit` | src/logcast.rs:154-157 | Joining what was split gives the bytes back |
| `Logcast.SplitInPieces` | src/logcast.rs:153-157 | Splitting the rest with what comes next is splitting it all |
| `Logcast.ItCatchesUp` | src/logcast.rs:149-152 | A file that stopped growing is read to its end, 4 MiB at a time |
| `Logcast.Follow.Read` | src/logcast.rs:129-160 | A read starts over exactly when the file is shorter than what was read, and gives the whole lines of the rest and what it read; with `last` the unterminated rest too |
| `Logcast.ChunkIs` | src/logcast.rs:144-152 | A read takes the next 4 MiB of the file, or what there is, from its start again when it has become shorter |
| `Logcast.TrimCrIs` | src/logcast.rs:154 | The carriage returns at a line's end go, and nothing else |
| `Logcast.NoTextIsHeldBackTooOften` | src/logcast.rs:413-434 | No line but a follower's note is held back more often than the copied file produced its text; the copied file is kept whole; at most 4096 copies are awaited |
| `Logcast.WhatIsHeldBack` | src/logcast.rs:413-434 | While no more than 4096 lines were copied, a line is held back if and only if it is of another file and is a follower's note, or a copy of its text is still to come: one more for each line of the copied file, one less for each line of another, never below none |
| `Logcast.AwaitedAreDue` | src/logcast.rs:413-434 | The copies awaited of a text are those still to come |
| `Logcast.TheOldestIsForgotten` | src/logcast.rs:417-421 | Past 4096 the copy awaited the longest is forgotten |
| `Logcast.Logcast.NoneIsHeldBackTooOften` | src/logcast.rs:400-435 | The same of everything read so far, however many reads it came in |
| `Logcast.KeptJoins` | src/logcast.rs:411-434 | What is kept of more lines is kept on from the copies still awaited |
| `Logcast.NoMoreGoThanMust` | src/logcast.rs:351-358 | The oldest lines go until the rest fits, and no more of them than must |
| `Logcast.WhatADestinationIsSent` | src/logcast.rs:483-496 | A destination is sent a strictly increasing run of the log, and what it has passed is the lines it was sent and those it was told are lost |
| `Logcast.TheLinesAreThose` | src/logcast.rs:488-494 | The lines it got are the log's at those positions |
| `Logcast.CatchUpFollows` | src/logcast.rs:483-496 | Sent what it had not had, a destination is at the end of the log, with the rest told as lost |
| `Logcast.Logcast.Push` | src/logcast.rs:348-360 | A line joins the log; the buffer is its latest lines within 100 000 lines and 16 MiB |
| `Logcast.Logcast.TakeAll` | src/logcast.rs:400-435 | The loops keep what the specification keeps, the copied file's lines first |
| `Logcast.CopiedComeFirst` | src/logcast.rs:402-410 | The copied file's lines come before all others |
| `Logcast.EachFileInOrder` | src/logcast.rs:405-410 | Each file's lines are those it added, in order |
| `Logcast.Logcast.DropCopy` | src/logcast.rs:423-430 | A matched copy is forgotten; the counts stay those of the copies awaited |
| `Logcast.Logcast.AwaitCopy` | src/logcast.rs:414-421 | A copied line is awaited, the oldest forgotten past the limit; the counts stay those of the copies awaited |
| `Logcast.Logcast.AddDest` | src/logcast.rs:389-393 | A destination named late starts at the log's first line |
| `Logcast.Logcast.Send` | src/logcast.rs:447-501 | Each reachable destination is at the end of the log, sent what it had not had and told how many lines it missed; the others are untouched; new ones are noted after |
| `Logcast.NotesAreOfTheNew` | src/logcast.rs:479-482 | A note is made of each destination first reached, and of no other |
| `Logcast.Logcast.Drained` | src/logcast.rs:504-507 | Drained exactly when every destination is at the end of the log |
| `Latency.ADurationIsInItsBinIff` | src/fglat.rs:61-66 | A duration lies in its half-octave bin if and only if it is below 2^32 us; a longer one is in the last bin |
| `Latency.BinsAreMonotone` | src/fglat.rs:61-66 | A longer duration is never in an earlier bin |
| `Latency.TheMiddleIsClose` | src/fglat.rs:69-74 | A bin's middle is within 5/6 to 5/4 of every duration in it |
| `Latency.TheBinHoldsTheTrueQuantile` | src/fglat.rs:124-133 | The bin found is the bin of the true quantile of the records in the window |
| `Latency.TheTrueQuantile` | src/fglat.rs:126-133 | There is a record of the window whose duration is the quantile, and it is of the rank sought |
| `Latency.TheRankIsTheShare` | src/fglat.rs:126 | The rank sought is the share of the records, rounded up, and at least one |
| `Latency.TheBinIsReported` | src/fglat.rs:69-74 | What is read off a duration's bin: five quarters of the greatest power of two in it, or seven where it is at least half as much again, in whole microseconds |
| `Latency.TheReportIsClose` | src/fglat.rs:124-133 | So its middle is within 5/6 to 5/4 of the true quantile |
| `Latency.SlotAdds` | src/fglat.rs:113-121 | What a ring slot adds to a bin of the window is what the whole unbounded log has there |
| `Latency.Ring.RecordAt` | src/fglat.rs:91-103 | A record joins the log; every slot goes on telling the counts of its second |
| `Latency.Ring.QuantileAt` | src/fglat.rs:111-135 | Nothing exactly when the window is empty; else how many records it has, and what is reported of the duration of one such that at least the share `q` of them are no longer and fewer than that share are shorter: five or seven quarters of the greatest power of two in it |
| `FreeMaps.FreeMap.constructor` | src/drive/freemap.rs:26-31 | All slots free or all used, summarised by a count for each 65536 |
| `FreeMaps.FreeMap.Recount` | src/drive/freemap.rs:33-41 | The summary is each chunk's count |
| `FreeMaps.FreeMap.Set` | src/drive/freemap.rs:56-66 | One bit changes, the summary follows without going below zero, and the total changes by one |
| `FreeMaps.FreeMap.FirstFree` | src/drive/freemap.rs:70-75 | The least free slot, or none exactly when none is free |
| `FreeMaps.FreeMap.Resize` | src/drive/freemap.rs:78-81 | Old slots keep their state, new ones take the one given |
| `FreeMaps.FreeMap.CountFree` | src/drive/freemap.rs:83-85 | The summary's sum is the number of free slots |
| `FreeMaps.TotalIsOnes` | src/drive/freemap.rs:83-85 | The chunk counts sum to the ones of the bits |
| `FreeMaps.SetKeepsSummary` | src/drive/freemap.rs:56-66 | Changing one bit and one count keeps every count |
| `Direct.Device.WriteAll` | src/drive/direct.rs:201-219 | Requests go on while the counts so far are short of the buffer, each but the first bringing some; it fails exactly when the last request failed, or was a retry that wrote nothing; what is written is a beginning of the buffer as long as the counts say, all of it on success; nothing else changes |
| `Direct.Device.Read` | src/drive/direct.rs:165-177 | A request that fails fails the read; else what came is the device's and the rest zeros, the rest being what is past its end unless a request before the end brought nothing, which ends the read early |
| `Direct.EachGetsItsOwnResult` | src/drive/direct.rs:331-341 | A request in flight is answered with the result of the first completion of its tag |
| `Direct.ReapedKeeps` | src/drive/direct.rs:331-341 | Completions, repeated or of no request or the wake-up, keep every request in exactly one place and change no answer |
| `Direct.RingThread.Turn` | src/drive/direct.rs:274-343 | Each turn keeps every request received in exactly one place, in flight under one tag, waiting in order, or answered for good; the thread ends exactly when it is hung up and nothing is outstanding, on the error path too |
| `Direct.RingThread.Receive` | src/drive/direct.rs:275-284 | What came in waits after what was waiting |
| `Direct.RingThread.SubmitPending` | src/drive/direct.rs:285-315 | Waiting requests go in flight in order until the ring is full; one not taken stays first, its tag spent |
| `Direct.RingThread.TakeUp` | src/drive/direct.rs:286-314 | The tag a request takes is no other's in flight, while fewer than 2^64 - 2 tags are taken during a request's life |
| `Direct.RingThread.FailAll` | src/drive/direct.rs:323-328 | A broken ring answers every outstanding request with an error, once, and changes no answer |
| `Direct.RingThread.Reap` | src/drive/direct.rs:331-341 | The loop answers what the specification answers |
| `Retry.Delay` | src/retry.rs:80-84 | A wait is between half the step and the step |
| `Retry.StepsDouble` | src/retry.rs:80-84 | Steps start at the base, double sixteen times, and stop at the cap |
| `Retry.CallsAreBounded` | src/retry.rs:213-252 | At most the tries, and as many less one again for each failure after progress |
| `Retry.NoAttemptStartsLate` | src/retry.rs:231-249 | No attempt but the first starts at or past the deadline counted from the last restart |
| `Retry.OnlyTransientGoesOn` | src/retry.rs:227-240 | Only a transient failure is tried again |
| `Retry.AllTheTriesAreUsed` | src/retry.rs:213-252 | Transient failures that get nowhere are tried again until exactly the tries are used up, as long as the attempts and the longest waits stay short of the deadline |
| `Retry.ItEndsIff` | src/retry.rs:227-249 | After a failure the loop ends if and only if it is permanent, the tries are used up, or the wait would reach the deadline, both counted anew from a transient failure of an attempt that got further than it began, where progress is watched |
| `Retry.Run` | src/retry.rs:205-254 | The loop ends at the attempt the specification ends at, with its outcome |
| `Transfer.GetToChannel` | src/http.rs:558-589 | What is delivered is always a beginning of the resource, all of it on success, whatever drops, restarts and refusals there are; the retries are told of each answer what it came to |
| `Transfer.ChannelTryTells` | src/http.rs:571-589 | An attempt gets as far as the bytes that come go on from what was delivered; a refusal, a body nobody takes and a server that starts over are given up on, no answer and a body cut or ended short are tried again |
| `Transfer.AChannelTransferEnds` | src/http.rs:571-589 | A transfer into a channel makes at most the tries, and as many less one again for each byte of the resource |
| `Transfer.GetToFile` | src/http.rs:602-637 | The file always holds a beginning of the resource, all of it on success, and is removed when the transfer gives up |
| `Transfer.FileStaysABeginning` | src/http.rs:611-628 | Appending to a beginning, or starting over, leaves a beginning |
| `Transfer.WhatAFileTurnDoes` | src/http.rs:602-629 | What an answer makes of the file, on from what it holds or from the start, and what the retries are told of it |
| `Transfer.ResumingIsRightIff` | src/http.rs:611-628 | Going on from what a file holds makes it the resource if and only if it held a beginning of it |
| `Transfer.AFileTransferEnds` | src/http.rs:602-629 | A transfer into a file makes at most the tries, and as many less one again for each byte of the resource, once more for each time the server starts over |
| `Transfer.AFileTransferNeverEndsIff` | src/http.rs:602-629 | It goes on without end if and only if, going on, the server starts over more often than any number |
| `Transfer.AFileTransferNeedNotEnd` | src/http.rs:602-629 | A server that starts over and drops can keep a transfer into a file going for any number of attempts |
| `Transfer.Exchange` | src/http.rs:458-515 | At most ten redirects, never from https to http, the bearer sent exactly to the first origin, the kind of request changed as each status says |
| `Transfer.TheBearerComesBackIff` | src/http.rs:474-478 | The bearer is sent again after a request without it, if and only if the answers that are followed lead away from the first origin and later back there |
| `Transfer.TheBearerComesBack` | src/http.rs:474-478 | A chain whose third request carries it again |
| `Transfer.OnceSecureAlways` | src/http.rs:494-499 | Once on https a chain of http and https URLs stays on https |
| `Drain.Job.Run` | src/drain.rs:161-382 | The loop's moves and persists are those of the books it keeps with the node, a persist after each 64 moves and at the end; it ends when it is cancelled or no leg is left to try, empty exactly when nothing is listed then; only a stuck drive stays quarantined |
| `Drain.WhatADrainLeaves` | src/drain.rs:315-336 | Whatever its persists came to, every volume reads what it did, every source it moved has been freed, and one that found nothing to try lists nothing exactly when the maps name nothing on the drive |
| `Drain.NothingIsLostOrKept` | src/drain.rs:346-378 | So it is before the end too, with fewer than 64 sources still owed |
| `Drain.PassOnIs` | src/drain.rs:346-378 | A pass keeps the books: it changes no byte read, and makes no persist while fewer than 64 sources are owed |
| `Drain.SafePersistsKeep` | src/drain.rs:143-151 | As long as each persist is safe to free after, the durable map names allocated slots that hold what was saved |
| `Drain.TheLastPersistIff` | src/drain.rs:227-228 | And after the last one if and only if that is safe too |
| `Drain.PassesAreBounded` | src/drain.rs:224-382 | A drain makes no more passes than there were legs and passes that found a leg busy or changed, while others only take legs off the drive |
| `Drain.ADrainIsBounded` | src/drain.rs:224-382 | A drain that alone moves legs makes no more passes than there were legs, and passes that found one in use, with nothing else supposed |
| `Drain.AloneAFailureIsGivenUp` | src/drain.rs:347-362 | Such a drain never tries a leg again whose move failed |
| `Drain.WhatIsLeftFailed` | src/drain.rs:311-372 | What a stuck drain leaves was found in its place after a move that failed, and is the leg that move was of, where no extent gains another leg on the drive |
| `Drain.TriedAgainIff` | src/drain.rs:350-362 | A leg whose move failed is tried again if and only if the map does not have it as its extent's leg on that slab, and the drain does not end while it is listed |
| `Drain.AChangedLegCountsAsFailed` | src/drain.rs:347-366 | Whenever the map has another leg of the extent there, or none, the leg tried counts as failed and is not given up, and nothing is when there is none |
| `Drain.OnePass` | src/drain.rs:311-372 | Each other pass takes one leg off those to move |
| `Migrate.Wait` | src/migrate.rs:110-147 | It waits on exactly while some member is rebuilding, none has failed and there is time; it ends synced when all are active, failed when one is, unclear when none is rebuilding, late when one still is |
| `Migrate.ToLocal` | src/migrate.rs:77-155 | The remote member is removed if and only if at some look every member was active and no look before was a failure, unclear or late |

## Left out

- Slabs, the extent map, placement and parity internals: a slot is a number with contents, its entry and its place in the maps, and a copy is exact; parity legs are not modelled.
- Format 2 records, which are change lists: a record here is a snapshot.
- Records.StepKeeps: does not model deletes and discards, which free slots at once, copy-on-write, what a clone of a mirror shares, or legs a resync adds otherwise than as new ones; contents are durable as they are written; a freed slot is taken again only once its free entry is on disk; and a slot whose owner's map names another, as after a restart that took a newer one, is not moved again.
- Restart.RecordIsTakenIff: every slab is attached (`src/volume/mod.rs:4527-4544` is for when one is not), and slots a sealed volume's record reclaims are not handed back to it in the tables.
- Recovery.RecoveryReadsWhatWasSaved: which volumes are on record, and which are sealed, is any; an extent of one leg comes back whether or not its volume does. Of a mirror whose record is superseded it says where it comes back, and not what it reads.
- FailedPersists.MarkedWrittenIff: counts every record of a mirror, though a restart passes over one that a newer slot has superseded, because such a record is taken again once its first leg comes back to the slot it names (`Restart.ARecordIsTakenAgain`).
- RebuildQueue.RunKeeps: is over runs in which no start or requeue of a volume falls between the end of its pass and its requeue, because the agreement does not hold otherwise (`RebuildQueue.RequeueIff`).
- RebuildQueue.Rebuilds.Start: job names, reasons, drives, counts and wall-clock times are not kept; a step counter stands for the clock.
- CrashDevices.CrashDevice.CrashWith: the seeded generator is replaced by arbitrary draws; `discard`, which does nothing there, is left out.
- Rebalance.PlanIsSound: fills, means and the tolerance are exact fractions where the code uses `f64`.
- Rebalance.RunningThePlanKeepsLegsApart: is for extents no other map shares and whose legs lie in one pool; and for a run in which every copy succeeds and nothing is quarantined meanwhile, because otherwise the rung may not be kept (`Rebalance.TheRecheckCanPutLegsTogether`; `Rebalance.RunKeepsApartIff` says when it is); slots handed out for copies are free ones.
- Rebalance.RunPlan: pacing by live I/O and by rate is left out.
- ReleaseErase.TheStateIsNeverLost: acts reach the disk in their order, though a volume is marked the release's in memory until the next persist (`src/volume/mod.rs:1027`) while what is carried into it is written at once (`src/release_erase.rs:318-343`), so that a cut can leave one carried and not yet marked; a failed delete leaves its volume as it was (one that fails half-way is not modelled), a cut leaves what the last act put on disk, the names and slots erased are not counted, and namespaces are left out; of volumes with one name the least id is found, where the code takes any.
- ReleaseErase.Manager.RunTicket: the report written into the fresh state volume and the text filter of the declaration are left out.
- Logcast.Follow.Read: bytes stay bytes (lossy UTF-8 is left out), and a file that cannot be read is one that did not grow.
- Logcast.Logcast.Send: timestamps, the wait for a hostname, batching and the wording of notes are left out; names resolved and routes found are its input.
- Latency.Ring.QuantileAt: one ring of the four; seconds do not go back, records do not race a clear, and the share is an exact fraction.
- Direct.RingThread.TakeUp: needs that fewer than 2^64 - 2 tags are taken while a request is in flight.
- Direct.Device.WriteAll: a device takes no more than it was given; a failed request may have written a beginning of it.
- Retry.Run: a sleep takes exactly its wait, and jitter is any draw.
- Transfer.GetToFile: file writes are synchronous, a 206 starts at the byte asked for, and a clean end is the end of the resource; which mirror is asked, TLS and pooling are left out.
- Transfer.Exchange: URLs are resolved already; how a `Location` is resolved is left out.
- Recovery.RunKeeps: is over runs in which no persist fails part-way while an older one relies on what it did not write, because it does not hold otherwise (`FailedPersists.MarkedWrittenIff`); a record is written or not, and which of several copies of one a restart reads is not modelled.
- Checkpoints.Store.Checkpoint: nothing overtakes the persist within the call; one that is overtaken is a step of `Relocation`.
- Drain.Job.Run: which destination is chosen, affinity and pacing are left out; while it runs the drain alone moves legs and persists (others are steps of `Relocation`), which `Drain.PassesAreBounded` does not suppose.
- SlabMigration.Slabs.MigrateToSlab: extents have one leg; mirrors, parity and share counts are left out, and the destination is formatted already.
- Migrate.ToLocal: the two-second pause and the clock are the polls it is told.
- Status codes, thresholds, target parsing and other look-ups with no state: they would only add easy members.
