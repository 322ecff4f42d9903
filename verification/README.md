# Result caches, scan planning and the exchange protocol of vgi-client

A Dafny model of the parts of `vgi-client` that hold state or do arithmetic, with proofs about every
run and every input. `dafny verify dfyconfig.toml` checks all of it.

**The persistent result cache** (`disk_cache.rs`) is modelled twice. `DiskProtocol` is a state machine in
which any number of calls, of any number of processes, take one filesystem step at a time (a rename, an
unlink, a file of an object going, a lock, a lease), other calls' steps fall in between, and a crash may
come after any of them. `DiskModel`, `DiskMoves`, `DiskHistory`, `DiskRuns`, `DiskSections`, `DiskStored`,
`DiskBounds` and `DiskAdmission` prove what every run keeps, `DiskWitnesses` holds concrete runs that show
what it does not, and `DiskReads` is about refs that cannot be read. `DiskLaws` says what callers see from
one call to the next. `DiskCaches` and `DiskCaptures` are the classes the way the source has them, loops
and all; their methods are proved against functions on the disk and series of single removals (`DiskRoom`,
`DiskTraces`, `DiskPublication`).

The two are tied together by simulation. `DiskPaths` and `DiskSimulation` prove that what a method leaves
is what events of the one call that has the lock lead to, in every world with the disk and the leases the
method saw, and `DiskRefinement` calls the methods inside runs: given a run at whose end some call has the
lock on the disk of the instance, `CommitInRun`, `RemoveIfCurrentInRun`, `RevalidateInRun`, `LookupInRun`,
`FlushInRun` and `ReapInRun` perform the method and return a longer run that ends with the disk the method
left. A lookup that finds something unusable gives up its lock before it takes the exclusive one;
`LookupInRun` then has two runs, the one in which the call comes to seek that lock and any in which it has
got it. So what holds of all runs holds before and after each of these calls.

A ref is a small file, named by digests of its cache key, that names an object directory holding one
generation: a manifest and one Arrow file per partition. A lease is a shared lock on an object that a
hit or a reader holds. A digest is represented by what it is taken of, Arrow encoding keeps schema and
batches, and a generation's name is one no object or ref has had (it is drawn from 256 random bits).
`foreign` in the methods is the set of objects other processes have leased, which the process cannot see
other than by trying the lock; `later`, where a method drops one lock to take another, is the disk it
then finds.

**The in-memory cache** (`cache.rs`) is the class `ResultCaches.ResultCache`; each method takes one step
of the state machine `ResultStores`, over whose runs the promises are proved, in the terms of the
operations made, in `ResultLaws`. `CacheKeys` is the byte encoding of the key both caches share.

**Scan planning** (`scan.rs`) is `ScanPlans`: the loop that follows continuation cursors until none is
left, against any worker that answers as it likes in view of all requests so far. `RangePartitions` is
the validation of range metadata and what it buys, and
`Projections` the choice of columns to ask for and the cut back to those requested.

**The exchange protocol** (`exchange.rs`) is `Exchanges`: the class, and the transcripts of all its runs.
`Base64` is the encoder and decoder for metadata (section 4 of RFC 4648) and the row provenance on top.

**Worker identity** (`launcher.rs`, `location.rs`) is `LaunchArgv`, the command-line splitter, and
`CanonicalJson`, the text that is hashed. `Retries` is the retry loop of `retry.rs`, `HttpDates` its
reading of the `Retry-After` header and `CivilDates` the calendar arithmetic below that.

Some proofs begin with `hide`, which keeps definitions a step does not need out of the solver's sight;
it withholds facts and adds none.

Where a promise turned out not to hold of the code as written, the code is kept, a concrete run or
disk shows it, and the condition under which it holds is proved, exactly unless said otherwise:

- A hit replays the last capture *published* for its key, in every run. That its commit returned `Stored`
  holds exactly if that very commit was not cut off, by a crash of its own process or by the failure of
  its own rollback, between its publication and its return: `ReturnedIffNotCut`, `HitReplaysLastStored`.
  `HitOnUnreturned` is a run in which a crash cuts a commit off and a lookup then hits its capture.
- A commit that fails after its admission leaves the disk as it was then exactly if its rollback meets no
  failure. If the old ref cannot be put back the new one stands, and if the new object cannot be unlinked
  it stays as an orphan; each happens exactly then: `FailedCommitLeavesNoTrace`. Runs that show the two:
  `FailedRollbackLeavesRef`, `FailedRollbackLeavesObject`.
- A commit about to return `Stored` is within its limits, whatever happened before, exactly if no unlink
  fails in its own critical section or the new entry fits beside what the failed unlink left
  (`StoredWithinLimits`); it always is if at admission there is room without removing anything, and when
  the replaced generation is left whole only then (`RoomForBoth`). `FailedUnlinkExceedsLimits` is a run
  in which there is no such room.
- At rest the limits hold if no publication was cut short by a crash of its own process or a failure of
  its own unlink or rollback; other crashes and failures do no harm (`QuiescentWithinLimits`). One crash
  in the middle of a publication can exceed them: `CrashExceedsLimits`. This goes one way only, since a
  later removal may bring them down again.
- A sweep that cannot read a ref deletes its object and leaves the ref exactly if the ref could be read
  when refs were checked, could not when they were listed, and its object is not leased
  (`SweepDanglesExactly`); a rollback that cannot read the ref leaves it without its object exactly if it
  had been published (`RollbackDanglesExactly`). The next sweep that can read removes just these refs.
  `UnreadRefDangles` is the smallest disk on which either happens.
- The error message for the whole-scan sentinel says it must be the sole split of its plan, with no
  continuation or distribution claim. The check is made page by page. No plan with the sentinel makes a
  claim (`SentinelMakesNoClaim`), but the sentinel is the sole split exactly if no other page has one
  (`SentinelIsSoleSplit`), and there is no continuation exactly if the first page hands out no cursor
  (`OnePageIffNoCursor`). `SentinelBesideASplit` is a worker whose sentinel passes beside another split.

## Model

| member | source | states |
|---|---|---|
| `CacheKeys.StableBytes` | vgi-client/src/cache.rs:78-141 | the buffer built field by field is the tagged, length-prefixed little-endian encoding of all fifteen fields |
| `CacheKeys.ProjectionBytes` | vgi-client/src/cache.rs:114-123 | the loop over projected columns appends tag, count and every column in order |
| `CacheKeys.DecodeEncode` | vgi-client/src/cache.rs:78-141 | a decoder recovers every field of every key whose lengths fit in 64 bits, for every mix of optional fields |
| `CacheKeys.EncodeInjective` | vgi-client/src/cache.rs:72-141 | two keys with the same bytes are the same key |
| `CacheKeys.FormatOfExample` | vgi-client/src/cache.rs:78-141 | the bytes of a key with every kind of field, present and absent, negative numbers included |
| `CacheKeys.DomainText` | vgi-client/src/cache.rs:79 | the prefix is the text, a zero byte and the version |
| `DiskModel.PathOfInjective` | vgi-client/src/disk_cache.rs:844-851 | two keys share a ref file exactly if scope and encoded bytes agree, and then they are one key |
| `DiskModel.SealedPasses` | vgi-client/src/disk_cache.rs:1215-1285 | an untampered object with a partition passes validation exactly unless a different schema is expected |
| `DiskModel.HitReplaysSealedContent` | vgi-client/src/disk_cache.rs:1215-1285 | whatever passes validation against a ref sealed for a capture has that capture's schema, partitions and batches in order |
| `DiskModel.PassedAddsUp` | vgi-client/src/disk_cache.rs:1215-1285 | whatever wrote the object, what passes has this format's version, a partition, and the key, codec, rows and actual file bytes its record states |
| `DiskModel.RefsNeverShare` | vgi-client/src/disk_cache.rs:1307-1317 | on a sound disk no two refs name the same object, so removing one ref's object never harms another |
| `DiskModel.StoredBytesAreObjectBytes` | vgi-client/src/disk_cache.rs:666-717 | the size recorded in a ref is what its object occupies |
| `DiskModel.StepKeepsSound` | vgi-client/src/disk_cache.rs:1307-1363 | every allowed filesystem step leaves each ref naming a complete object of its own and each leased object as it was |
| `DiskProtocol.StepKeepsInv` | vgi-client/src/disk_cache.rs:619-959 | every event of every call, crashes included, keeps the protocol invariant: sound refs, lock exclusion, fresh generation names, and what each call knows at its point |
| `DiskHistory.EventPerforms` | vgi-client/src/disk_cache.rs:1659-1672 | whatever changes refs or objects does so inside a critical section and is an allowed step |
| `DiskHistory.StepKeepsHistory` | vgi-client/src/disk_cache.rs:729-785 | in every step the refs on disk keep agreeing with the log of publications, rollbacks and removals included |
| `DiskRuns.RunKeeps` | vgi-client/src/disk_cache.rs:619-959 | both invariants hold at every moment of every run |
| `DiskRuns.RefsAlwaysComplete` | vgi-client/src/disk_cache.rs:754-794 | at every moment of every run, with a crash allowed between any two steps, every ref names an object that exists and is complete, and no two refs share one |
| `DiskRuns.LeaseContinuous` | vgi-client/src/disk_cache.rs:1287-1305 | a lease alive at two moments was alive, on the same generation, at every moment between |
| `DiskRuns.LeasedNeverTouched` | vgi-client/src/disk_cache.rs:1339-1363 | while a hit or reader holds a generation nobody, in any process, deletes or alters it |
| `DiskRuns.LeaseOrigin` | vgi-client/src/disk_cache.rs:838-960 | every lease goes back to one lookup, and to the publication then latest for its key |
| `DiskRuns.HitReplaysLatest` | vgi-client/src/disk_cache.rs:838-960 | while a lease is held its object replays, partition by partition, the capture latest published for its key when the lookup read the ref |
| `DiskRuns.NeverRejectedForCorruption` | vgi-client/src/disk_cache.rs:941-959 | in a run without tampering a lookup rejects a leased object only because the expected schema differs |
| `DiskStored.ReturnedIffNotCut` | vgi-client/src/disk_cache.rs:785-799 | when a lookup takes its lease, a publication in the log has returned `Stored` exactly if its own commit was not cut off between publication and return |
| `DiskStored.HitReplaysLastStored` | vgi-client/src/disk_cache.rs:785-799 | in every run a hit replays the latest publication of its key, and that one is of a commit that returned `Stored` exactly if no crash or failed rollback cut that commit off |
| `DiskWitnesses.HitOnUnreturned` | vgi-client/src/disk_cache.rs:756-785 | a concrete run of 15 events: a crash right after the ref is renamed, then a lookup of another process that is served a capture no commit returned |
| `DiskWitnesses.CrashExceedsLimits` | vgi-client/src/disk_cache.rs:754-785 | a concrete run, in order but for one last crash, after which nobody is at work and two entries stand under a limit of one |
| `DiskWitnesses.FailedUnlinkExceedsLimits` | vgi-client/src/disk_cache.rs:786-799 | a concrete run in which the unlink of the replaced generation fails and `Stored` is about to be returned with two entries under a limit of one |
| `DiskWitnesses.FailedRollbackLeavesRef` | vgi-client/src/disk_cache.rs:384-403 | a concrete run of 8 events: the ref cannot be restored, and the commit fails with its ref on a disk that was empty |
| `DiskWitnesses.FailedRollbackLeavesObject` | vgi-client/src/disk_cache.rs:384-403 | a concrete run of 9 events: the ref is restored, the object cannot be unlinked, and the commit fails with its object on a disk that was empty |
| `DiskMoves.OthersStay` | vgi-client/src/disk_cache.rs:1659-1672 | an event of one call never moves another call |
| `DiskMoves.CrashEndsAll` | vgi-client/src/disk_cache.rs:405-423 | a crash may come at any moment, ends exactly the calls and leases of its process, and touches no file |
| `DiskMoves.DecidedCanLeave` | vgi-client/src/disk_cache.rs:405-409 | a call that has decided can always give up the root lock, with files and leases as they are |
| `DiskSections.SectionIsPrivate` | vgi-client/src/disk_cache.rs:1666-1672 | while a call is in its critical section nobody else changes refs or objects |
| `DiskSections.FailedCommitLeavesNoTrace` | vgi-client/src/disk_cache.rs:369-403 | a commit that fails at either fault point, or whose lifetime elapses during publication, leaves the disk as it was at admission if and only if its rollback meets no failure; the new ref stands exactly if the ref could not be restored, and the new object is an orphan exactly if its unlink failed |
| `DiskSections.StoredCommitTouchesOneKey` | vgi-client/src/disk_cache.rs:754-794 | a commit about to return `Stored` has bound its key to its own capture; every other ref, and every object but the replaced one, is as at admission, whether or not the replaced one could be unlinked |
| `DiskSections.CommitUnobserved` | vgi-client/src/disk_cache.rs:729-785 | no lookup anywhere reads refs while a commit is in its critical section, so no rolled-back ref is ever seen |
| `DiskSections.RoomIsMadeByEviction` | vgi-client/src/disk_cache.rs:1447-1497 | up to admission all a commit does to refs is remove some; none is added or changed |
| `DiskSections.ObserverChangesOnlyWhatItSaw` | vgi-client/src/disk_cache.rs:876-907 | a cleanup, removal or renewal changes a ref only if it still is the record observed, and no other ref, whatever happened in between |
| `DiskSections.ReferencedNeverTouched` | vgi-client/src/disk_cache.rs:1339-1363 | nobody, in any step, touches an object a ref names |
| `DiskSections.StaleObserverIsHarmless` | vgi-client/src/disk_cache.rs:1319-1337 | once a later publication of a key stands, a call holding an older observation changes no ref and no referenced object |
| `DiskBounds.QuiescentWithinLimits` | vgi-client/src/disk_cache.rs:1447-1497 | with equal limits and no publication cut short by a crash of its process, a failed unlink or a failed rollback, whenever nobody is in a critical section all objects, orphans included, are within the byte and the entry limit; other crashes and failures are allowed |
| `DiskAdmission.StoredWithinLimits` | vgi-client/src/disk_cache.rs:729-799 | whatever happened before, a commit about to return `Stored` leaves all objects, orphans included, within the limits it was admitted under if and only if it met no failed unlink or the entry fits beside what that unlink left; for the number of entries, exactly if it met none or there was room for one more at admission |
| `DiskAdmission.RoomForBoth` | vgi-client/src/disk_cache.rs:786-799 | room at admission without removing anything is enough whatever fails, and necessary when a failed unlink leaves the replaced generation whole |
| `DiskRoom.PartsAddUp` | vgi-client/src/disk_cache.rs:1528-1555 | bytes and number of referenced objects and of orphans add up to all objects |
| `DiskRoom.RoomIsFits` | vgi-client/src/disk_cache.rs:1447-1527 | the admission test over records, orphans and the replaced generation holds exactly if all objects, less the replaced one unless it is leased, leave room for the incoming entry |
| `DiskTraces.DroppedReaches` | vgi-client/src/disk_cache.rs:1307-1317 | removing a ref and then its object, unless leased, is a series of allowed steps |
| `DiskTraces.SweptSweeps` | vgi-client/src/disk_cache.rs:1387-1412 | removing any set of refs together is removing them one by one, in any order |
| `DiskTraces.SweepsReaches` | vgi-client/src/disk_cache.rs:1307-1363 | on a sound disk any series of removals, of refs or of orphans, is one of allowed steps and leaves the disk sound |
| `DiskTraces.SweptOrphans` | vgi-client/src/disk_cache.rs:1387-1412 | such a removal leaves no new orphan that no lease holds |
| `DiskTraces.ReapedSweeps` | vgi-client/src/disk_cache.rs:1591-1615 | removing the orphans nothing holds is removing them one by one |
| `DiskTraces.ReapedHeld` | vgi-client/src/disk_cache.rs:1591-1615 | after it, every orphan left is leased |
| `DiskTraces.RefusedOnlyForLeases` | vgi-client/src/disk_cache.rs:1447-1497 | with every other ref gone, admission is refused exactly when leased generations and the incoming entry alone exceed a limit |
| `DiskPublication.RollbackRestores` | vgi-client/src/disk_cache.rs:384-403 | undoing a publication, at either point it can have reached, gives back the disk before it, the old ref included |
| `DiskPublication.KeptReaches` | vgi-client/src/disk_cache.rs:754-794 | a stored commit is a series of allowed steps |
| `DiskPublication.KeptIsStoredView` | vgi-client/src/disk_cache.rs:754-794 | it binds its key to its own capture and leaves every other ref and referenced object alone |
| `DiskPublication.KeptInBounds` | vgi-client/src/disk_cache.rs:1447-1497 | if the admission test passed, what it leaves is within both limits |
| `DiskCaptures.RowsAfterPush` | vgi-client/src/disk_cache.rs:1676-1709 | a batch adds its rows to the total whichever partition it goes to |
| `DiskCaptures.DiskCapture.constructor` | vgi-client/src/disk_cache.rs:516-567 | a capture starts with its partitions empty and its row counter true |
| `DiskCaptures.DiskCapture.PushBatch` | vgi-client/src/disk_cache.rs:1676-1709 | a batch of another schema or for no partition is refused and changes nothing; any other is appended to its partition; the limit flag is raised exactly when the written bytes exceed it and never lowered; the row counter stays the number of rows |
| `DiskCaptures.DiskCapture.FinishParts` | vgi-client/src/disk_cache.rs:1716-1745 | the part records of all files, in order, are those of the capture's manifest |
| `DiskCaches.DiskCache.RemoveObjectIfUnleased` | vgi-client/src/disk_cache.rs:1339-1363 | the object goes exactly if neither this process nor another holds a lease on it |
| `DiskCaches.DiskCache.RemoveRecord` | vgi-client/src/disk_cache.rs:1307-1317 | the ref goes, then its object unless leased, and the recency mark with it |
| `DiskCaches.DiskCache.RemoveRecordIfCurrent` | vgi-client/src/disk_cache.rs:1319-1337 | removes exactly if the ref still is the expected record; at most one removal |
| `DiskCaches.DiskCache.RemoveAll` | vgi-client/src/disk_cache.rs:1387-1399 | the loop removes exactly the given refs and their unleased objects |
| `DiskCaches.DiskCache.RemoveMatching` | vgi-client/src/disk_cache.rs:1080-1124 | a flush or expiry removes exactly the matching refs and counts them, as a series of single removals |
| `DiskCaches.DiskCache.FlushScope` | vgi-client/src/disk_cache.rs:1080-1088 | exactly the readable refs of the scope go, and are counted |
| `DiskCaches.DiskCache.FlushCatalog` | vgi-client/src/disk_cache.rs:1091-1097 | exactly the readable refs whose record names the catalog go, and are counted |
| `DiskCaches.DiskCache.FlushAll` | vgi-client/src/disk_cache.rs:1101-1107 | no ref is left, readable or not, and the count is how many there were; from a sound disk, as a series of single removals |
| `DiskCaches.DiskCache.RemoveInvalidRefs` | vgi-client/src/disk_cache.rs:1414-1445 | a ref stays exactly if it parses, has this format's version, is filed under its own digests, and its object has lease file and manifest |
| `DiskCaches.DiskCache.RemoveOrphanObjects` | vgi-client/src/disk_cache.rs:1591-1615 | exactly the unreferenced, unleased objects go |
| `DiskCaches.DiskCache.Usage` | vgi-client/src/disk_cache.rs:1628-1631 | bytes and number of the given refs |
| `DiskCaches.DiskCache.OrphanUsage` | vgi-client/src/disk_cache.rs:1528-1555 | number and bytes of the objects no ref names |
| `DiskCaches.DiskCache.LeastRecent` | vgi-client/src/disk_cache.rs:1484-1493 | no other ref has an earlier last use: the mark of its last hit, or else its creation |
| `DiskCaches.DiskCache.HasRoom` | vgi-client/src/disk_cache.rs:1450-1483 | decides the admission test |
| `DiskCaches.DiskCache.MakeRoom` | vgi-client/src/disk_cache.rs:1447-1497 | terminates; succeeds exactly if the entry then fits, fails only with every other ref gone; of unexpired refs one evicted was hit, or else created, no later than any kept; none goes beyond need, and never the replaced ref unless expired; as a series of single removals |
| `DiskCaches.RefusalIsForLeases` | vgi-client/src/disk_cache.rs:1447-1497 | a refusal, from a sound disk, means leased generations and the entry alone exceed a limit |
| `DiskCaches.DiskCache.AcquireLease` | vgi-client/src/disk_cache.rs:1287-1305 | counts one more owner exactly if the object and its lease file exist |
| `DiskCaches.DiskCache.ReleaseLease` | vgi-client/src/disk_cache.rs:411-423 | counts one owner less; the last one gives up the lock |
| `DiskCaches.DiskCache.CheckPart` | vgi-client/src/disk_cache.rs:1239-1264 | a file passes exactly if its name, length, digest and schema are the manifest's |
| `DiskCaches.DiskCache.CheckParts` | vgi-client/src/disk_cache.rs:1236-1270 | passes exactly if every file does, and then the totals read are the manifest's |
| `DiskCaches.DiskCache.ValidateHit` | vgi-client/src/disk_cache.rs:1215-1285 | decides whether an object is what its ref says, under the expected schema |
| `DiskCaches.SoundServes` | vgi-client/src/disk_cache.rs:838-960 | on a sound disk a fresh lookup is served exactly before the deadline, a revalidating one exactly with a validator, unless another schema is expected |
| `DiskCaches.DiskCache.Serve` | vgi-client/src/disk_cache.rs:917-960 | keeps the lease exactly if the object passes, and otherwise gives it back |
| `DiskCaches.DiskCache.CleanUp` | vgi-client/src/disk_cache.rs:862-907 | removes the ref observed earlier only if it still is the same on the disk found under the exclusive lock |
| `DiskCaches.DiskCache.Lookup` | vgi-client/src/disk_cache.rs:838-960 | hits exactly if the ref is usable at this time and its object passes, fresh lookups before the deadline only and revalidating ones with a validator only; a hit holds its lease, marks the key and changes no file; a miss keeps all leases and cleans up only what it saw |
| `DiskCaches.DiskCache.RemoveHit` | vgi-client/src/disk_cache.rs:1060-1072 | removes exactly the generation the hit represents, if still current |
| `DiskCaches.DiskCache.Remove` | vgi-client/src/disk_cache.rs:964-984 | removes the ref of one key and nothing else, or reports it absent or unreadable |
| `DiskCaches.DiskCache.RevalidateFreshness` | vgi-client/src/disk_cache.rs:990-1057 | succeeds exactly if the control allows storing for the catalog, the record seen has a validator and still stands, and the lifetime is not over; then that record has the new deadline, creation, validators and grace and everything else as before, and is marked used; a deadline that passes meanwhile removes it with its mark |
| `DiskCaches.DiskCache.BeginCapture` | vgi-client/src/disk_cache.rs:516-567 | refuses no partitions; otherwise an empty capture of this root in a temporary directory of its own, leased, dated and listed as active |
| `DiskCaches.DiskCache.RollBack` | vgi-client/src/disk_cache.rs:384-403 | restores the old ref, or none, and removes the new object |
| `DiskCaches.DiskCache.Publish` | vgi-client/src/disk_cache.rs:754-800 | stores exactly if no fault strikes and the lifetime lasts; otherwise refs, objects and recency are as before |
| `DiskCaches.DiskCache.Admit` | vgi-client/src/disk_cache.rs:738-746 | admits exactly if the entry fits after sweeping and eviction, refuses only with every other ref gone, changes no ref but removing some, and leaves no orphan that nothing holds; from a sound disk, as a series of single removals |
| `DiskCaches.DiskCache.PublishAdmitted` | vgi-client/src/disk_cache.rs:746-800 | once admitted, `Stored` exactly if no fault comes and it is not too late; the disk of the admission or that with exactly the job's key rebound |
| `DiskCaches.StoredGuarantees` | vgi-client/src/disk_cache.rs:729-800 | from a sound disk a stored commit took allowed steps only, changed one key and meets both limits |
| `DiskCaches.DiskCache.CommitJob` | vgi-client/src/disk_cache.rs:729-800 | the critical section: each outcome exactly by room, lateness and fault; either the disk as pruned for admission, oldest use first, or that with exactly the job's key rebound |
| `DiskCaches.DiskCache.Commit` | vgi-client/src/disk_cache.rs:619-800 | each outcome exactly by its reason, in the fields of control, deadline, limits and capture, the room found and the fault; `Stored` exactly if none applies, and then lookups find the capture until the deadline; evicts oldest use first; a capture of another root changes nothing; a capacity skip is the leases' fault alone; the temporary directory is gone |
| `DiskCaches.DiskCache.RemoveOldTemps` | vgi-client/src/disk_cache.rs:1557-1589 | a capture directory goes exactly if no capture here is using it, no lease on it is held elsewhere, and it has not changed for an hour; what stays is unchanged |
| `DiskCaches.DiskCache.Reap` | vgi-client/src/disk_cache.rs:1111-1124 | what is left stood before and has not expired or may be revalidated, and if that fits the limits nothing else goes; every orphan left is leased, the limits are met or nothing is left, and capture directories go exactly if idle and old; from a sound disk, as a series of single removals |
| `DiskCaches.EarlySkips` | vgi-client/src/disk_cache.rs:636-671 | each refusal before the lock, and none, exactly by the fields of control, deadline, limits and capture |
| `DiskCaches.JobRecord` | vgi-client/src/disk_cache.rs:693-724 | every field of a published record comes from the key, the capture, the deadline or the control it should |
| `DiskLaws.StoreThenLookup` | vgi-client/src/disk_cache.rs:804-960 | a lookup after a stored commit hits exactly before the deadline, unless another schema is expected, and replays the capture |
| `DiskLaws.RenewThenLookup` | vgi-client/src/disk_cache.rs:990-1057 | a lookup after a renewal hits exactly before the new deadline, if the object passes |
| `DiskLaws.MissKeepsIff` | vgi-client/src/disk_cache.rs:884-919 | on a sound disk a miss leaves the ref exactly if it is stale and has a validator, or is fresh and was sought for one it lacks |
| `DiskLaws.UsedLastGoesLast` | vgi-client/src/disk_cache.rs:1447-1497 | the ref used last is evicted only when every other but the one to be replaced has gone |
| `DiskLaws.HitThenMakeRoom` | vgi-client/src/disk_cache.rs:1484-1493 | a hit later than every mark and creation keeps its entry until every other has been evicted |
| `DiskLaws.OtherScopeServes` | vgi-client/src/disk_cache.rs:1080-1088 | on a sound disk a flush of one scope changes what is served for its own keys alone |
| `DiskLaws.FlushThenLookup` | vgi-client/src/disk_cache.rs:1080-1088 | after it, lookups of the scope's keys miss and all others find what they found before |
| `DiskReads.SweepDanglesExactly` | vgi-client/src/disk_cache.rs:1414-1443 | on every sound disk the check of refs followed by the collection of orphans leaves a ref without its object exactly if it was readable first, unreadable then, and unleased; the next clearing of invalid refs removes just those and the disk is sound |
| `DiskReads.RollbackDanglesExactly` | vgi-client/src/disk_cache.rs:384-403 | a rollback that cannot read the ref restores the disk if the ref was not yet published; otherwise that one ref dangles, and the next clearing of invalid refs leaves the disk of before without this key |
| `DiskReads.RollbackWithoutPrior` | vgi-client/src/disk_cache.rs:754-763 | if the ref to be replaced could not be read, the rollback unbinds the key: it restores the disk exactly if there was no ref |
| `DiskReads.UnreadRefDangles` | vgi-client/src/disk_cache.rs:1591-1615 | the first entry of an empty root loses its object to a failed read in a sweep, and in a rollback |
| `DiskPaths.RunLeads` | vgi-client/src/disk_cache.rs:1659-1672 | what events of one call alone lead to continues any run that has reached their start |
| `DiskSimulation.SweepsSimulated` | vgi-client/src/disk_cache.rs:1307-1412 | every series of removals is what events of a sweeping call lead to, in every world with that disk and those leases |
| `DiskSimulation.TempsSimulated` | vgi-client/src/disk_cache.rs:1557-1589 | removing capture directories that nobody holds is what events of a sweeping call lead to |
| `DiskSimulation.IfCurrentSimulated` | vgi-client/src/disk_cache.rs:1319-1337 | a conditional removal, done or not, is what events of its call lead to |
| `DiskSimulation.RevalidateSimulated` | vgi-client/src/disk_cache.rs:1015-1057 | a renewal, and a renewal withdrawn because its lifetime elapsed, is what events of its call lead to |
| `DiskSimulation.StoredSimulated` | vgi-client/src/disk_cache.rs:754-800 | from admission on, a stored commit is what events lead to |
| `DiskSimulation.RollbackSimulated` | vgi-client/src/disk_cache.rs:369-403 | so is one rolled back, with or without its ref written: events lead back to the disk of the admission |
| `DiskSimulation.CommitSimulated` | vgi-client/src/disk_cache.rs:729-800 | the whole critical section, sweeping, eviction, admission and publication, is what events lead to |
| `DiskSimulation.LookSimulated` | vgi-client/src/disk_cache.rs:909-960 | a lookup that serves is what events lead to: one new lease on the record served, and no file changed |
| `DiskRefinement.SweepGoesOn` | vgi-client/src/disk_cache.rs:1080-1124 | any run in which a call is about to sweep goes on to the disk its removals leave |
| `DiskRefinement.IfCurrentGoesOn` | vgi-client/src/disk_cache.rs:862-907 | the same for a cleanup or removal of one observed record, on the disk then found |
| `DiskRefinement.RemoveIfCurrentInRun` | vgi-client/src/disk_cache.rs:1319-1337 | the method, called in a run, takes the run on to the disk it leaves |
| `DiskRefinement.FlushInRun` | vgi-client/src/disk_cache.rs:1101-1107 | the same for a flush of everything |
| `DiskRefinement.ReapInRun` | vgi-client/src/disk_cache.rs:1111-1124 | the same for a reap, refs, objects and capture directories |
| `DiskRefinement.RevalidateInRun` | vgi-client/src/disk_cache.rs:990-1057 | the same for a revalidation, whether the renewed record stays or is withdrawn, with the leases as they were |
| `DiskRefinement.LookupInRun` | vgi-client/src/disk_cache.rs:838-960 | a hit is a lease the run goes on to take, on the record the hit carries, with no file and no other lease changed; a miss leaves disk and leases alone and ends the call, or has it seek the exclusive lock for the record observed, and every run in which it gets that lock on the disk `later` goes on to the disk the method leaves |
| `DiskRefinement.CommitInRun` | vgi-client/src/disk_cache.rs:619-800 | a commit called in a run, whatever its outcome, takes the run on to the disk it leaves: stored, rolled back, or only swept |
| `ResultStores.TrimmedUnique` | vgi-client/src/cache.rs:876-903 | the caps leave one outcome only, so map iteration order cannot matter |
| `ResultStores.CappedStays` | vgi-client/src/cache.rs:876-903 | entries that already meet the caps all stay |
| `ResultStores.EvictLeast` | vgi-client/src/cache.rs:885-902 | evicting the least recently used entry of an overfull map leads to the same longest most-recent suffix |
| `ResultStores.NextKeeps` | vgi-client/src/cache.rs:567-825 | every operation keeps distinct ticks, true sizes and the caps in force |
| `ResultStores.RunInv` | vgi-client/src/cache.rs:567-825 | so they hold in every reachable state |
| `ResultStores.Provenance` | vgi-client/src/cache.rs:625-738 | an entry held is that of the last accepted insert of its key, with the lifetime of the last insert or slide since |
| `ResultStores.GetReturnsLastInserted` | vgi-client/src/cache.rs:567-597 | after any run a lookup that answers returns the batches of the last accepted insert of its key, before its lifetime is over |
| `ResultLaws.AnsweredIffAlive` | vgi-client/src/cache.rs:203-208 | after any run an entry held is answered exactly within the lifetime given by the last accepted insert or slide of its key |
| `ResultLaws.ExpiryRemoves` | vgi-client/src/cache.rs:578-585 | a lookup of the key, and a reap, remove an entry exactly if that lifetime is over and it may not be revalidated |
| `ResultLaws.FlushesExactly` | vgi-client/src/cache.rs:740-800 | removals and flushes take exactly the keys they name; everything else is as before |
| `ResultLaws.InsertHeldIff` | vgi-client/src/cache.rs:634-697 | an insert is refused exactly if oversized, and held afterwards exactly if alone it meets the other caps, with its own batches, lifetime and counts |
| `ResultLaws.StaysIff` | vgi-client/src/cache.rs:876-903 | an entry outlives the caps exactly if it is not oversized and all that were used as recently, itself included, meet them |
| `ResultLaws.LastUse` | vgi-client/src/cache.rs:586-590 | the tick of an entry is that of its last insert, slide or answered lookup |
| `ResultLaws.EvictedWasUsedEarlier` | vgi-client/src/cache.rs:885-902 | after any run, an entry pushed out was last used before every entry that stays |
| `ResultLaws.PolicyProvenance` | vgi-client/src/cache.rs:700-738 | validators, grace windows and leave to revalidate are those of the last accepted insert or slide that carried a control |
| `ResultLaws.GraceWindows` | vgi-client/src/cache.rs:210-229 | a stale entry may be served exactly for the seconds that control allows, from the end of the lifetime on |
| `ResultCaches.ResultCache.constructor` | vgi-client/src/cache.rs:411-421 | an empty cache, counters at zero |
| `ResultCaches.ResultCache.RemoveSlot` | vgi-client/src/cache.rs:742-753 | one entry goes and both counters stay true, with no underflow |
| `ResultCaches.ResultCache.RemoveSlots` | vgi-client/src/cache.rs:756-825 | the same for a set of entries, counting them |
| `ResultCaches.ResultCache.PutSlot` | vgi-client/src/cache.rs:673-686 | an entry is put in place of any former one and both counters stay true |
| `ResultCaches.ResultCache.Replace` | vgi-client/src/cache.rs:567-597 | an entry changed in place leaves the counters true |
| `ResultCaches.ResultCache.FindOldest` | vgi-client/src/cache.rs:888-896 | the minimum over the map, in any order of iteration, is the one oldest entry |
| `ResultCaches.ResultCache.Victim` | vgi-client/src/cache.rs:876-903 | while a cap is broken there is an entry to evict: an oversized one first, else the oldest |
| `ResultCaches.ResultCache.EnforceCaps` | vgi-client/src/cache.rs:876-903 | terminates without its emergency exit and leaves exactly the longest most-recent suffix of the entries that are not oversized that meets every cap |
| `ResultCaches.ResultCache.Lookup` | vgi-client/src/cache.rs:567-597 | one step of the state machine; answers exactly if the key is held and its lifetime is not over, with the entry held and one hit more, which then is the most recent |
| `ResultCaches.ResultCache.GetForRevalidation` | vgi-client/src/cache.rs:601-608 | the entry even if stale, exactly if revalidatable |
| `ResultCaches.ResultCache.Measure` | vgi-client/src/cache.rs:633-634 | total rows and bytes of the batches |
| `ResultCaches.ResultCache.InsertWithSubstreams` | vgi-client/src/cache.rs:625-688 | one step of the state machine: refused untouched if oversized, else stored as most recent and trimmed |
| `ResultCaches.ResultCache.SlideEntry` | vgi-client/src/cache.rs:693-738 | one step: the entry's lifetime restarts and its batches stay; found exactly if present |
| `ResultCaches.ResultCache.Drop` | vgi-client/src/cache.rs:742-825 | remove, the flushes and reap: exactly the doomed entries go, and the count returned is how many |
| `ResultCaches.ResultCache.ReplaceLimits` | vgi-client/src/cache.rs:432-439 | the new caps hold at once and the count returned is how many entries went |
| `ScanPlans.FilterCursors` | vgi-client/src/scan.rs:1661-1667 | the non-empty cursors in order, each as often as it was given, and no other |
| `ScanPlans.AddSplits` | vgi-client/src/scan.rs:1677-1722 | a page is taken exactly if every split decodes and an empty token is the sole split of its page, at index 0, with no continuation and no claim; then its splits are appended in order |
| `ScanPlans.TakePage` | vgi-client/src/scan.rs:1657-1759 | taken exactly if its splits are, the cap holds and, on page one, its records decode; facts stay page one's, and the flags say whether all claims so far are byte-identical |
| `ScanPlans.Withdraw` | vgi-client/src/scan.rs:1764-1780 | the plan of all pages: claims not made alike by every page are gone, with the splits' values for them |
| `ScanPlans.Ask` | vgi-client/src/scan.rs:1597-1761 | one turn of the loop: requests sent and waiting stay, together, all that the pages call for; a refusal means no enumeration completes |
| `ScanPlans.Enumerate` | vgi-client/src/scan.rs:1590-1762 | terminates; yields pages exactly if the enumeration completes within the bounds, with every cursor followed once, in the order received; if not, it stops at a request that is called for and fails, comes too late, is one too many or gets a page that is refused, and the reasons for that are listed |
| `ScanPlans.MakePlan` | vgi-client/src/scan.rs:1568-1784 | a plan is returned exactly if the enumeration completes within page, split and time bounds and the metadata is valid; the worker sees the first request and then every non-empty cursor, as often as the pages hand it out, first in first out; the splits are those of all pages; ranges that the plan claims partition the keys; without a plan there is a request that stopped the enumeration or refused metadata |
| `ScanPlans.SplitOrigin` | vgi-client/src/scan.rs:1677-1722 | each split of a plan comes from one place on one page |
| `ScanPlans.SentinelStandsFirst` | vgi-client/src/scan.rs:1680-1695 | an empty token stands at index 0 only and is alone on its page |
| `ScanPlans.SentinelMakesNoClaim` | vgi-client/src/scan.rs:1677-1695 | a plan with the sentinel claims no grouping and no ranges |
| `ScanPlans.SentinelIsSoleSplit` | vgi-client/src/scan.rs:1677-1695 | the sentinel is the only split of its plan exactly if no other page has one |
| `ScanPlans.OnePageIffNoCursor` | vgi-client/src/scan.rs:1597-1667 | a complete enumeration has one page exactly if page one hands out no cursor |
| `ScanPlans.SentinelBesideASplit` | vgi-client/src/scan.rs:1680-1695 | a concrete worker whose sentinel is accepted beside another split |
| `ScanPlans.KeyClaimIsUnanimous` | vgi-client/src/scan.rs:1669-1675 | a grouping claim is in the plan exactly if every page made it, byte for byte |
| `ScanPlans.RangeClaimIsUnanimous` | vgi-client/src/scan.rs:1669-1675 | the same for a range claim |
| `ScanPlans.WithdrawnClaimLeavesNoTrace` | vgi-client/src/scan.rs:1769-1780 | one page that disagrees clears the values of every split |
| `ScanPlans.PlanHoldsEverySplit` | vgi-client/src/scan.rs:1677-1759 | split `m` of page `i` stands in the plan right after all splits of the pages before, unchanged but for values of claims that pages disagree on; the plan's facts are page one's, and so is its scope, by default the catalog |
| `ScanPlans.RequestsInOrder` | vgi-client/src/scan.rs:1597-1761 | the request for cursor `m` of page `i` comes right after those for all cursors of the pages before |
| `ScanPlans.NonEmptyAppend` | vgi-client/src/scan.rs:1661-1667 | dropping empty cursors goes cursor by cursor, so order and repetitions stay |
| `ScanPlans.NonEmptyCounts` | vgi-client/src/scan.rs:1661-1667 | an empty cursor is never kept, and any other as often as it occurs |
| `ScanPlans.RequestsCount` | vgi-client/src/scan.rs:1588-1667 | a complete enumeration asks once without a cursor, and for each non-empty cursor as often as the pages hand it out |
| `ScanPlans.CursorIsFollowed` | vgi-client/src/scan.rs:1584-1588 | no page of a plan has a non-empty cursor that was not sent |
| `ScanPlans.RefusedPage` | vgi-client/src/scan.rs:1677-1727 | a page is refused exactly for a split that does not decode, a sentinel not first or not alone on a page without cursors and claims, too many splits, or facts of page one that do not decode |
| `Projections.UnionProjection` | vgi-client/src/scan.rs:424-435 | the loop yields the requested columns, then the filter's own at first mention; no projection stays none |
| `Projections.AddedCovers` | vgi-client/src/scan.rs:424-435 | every filter column is there, and each added one is a filter's, was not requested and is added once |
| `Projections.AddedInOrder` | vgi-client/src/scan.rs:424-435 | what is added stands in the order in which the filter first mentions it |
| `Projections.WireIndexOf` | vgi-client/src/scan.rs:450-452 | the first place of a column, exactly if it is there |
| `Projections.TrimGivesRequested` | vgi-client/src/scan.rs:663-675 | cutting the answer back gives exactly the requested columns, in the order and number requested, repeats included |
| `Projections.FilterColumnsArePresent` | vgi-client/src/scan.rs:424-435 | a filter finds each of its columns in the answer, with that column's values |
| `RangePartitions.StrictTotalOrder` | vgi-client/src/scan.rs:1416-1435 | the declared comparator is a strict total order on key tuples, nulls included, for all directions and null orders |
| `RangePartitions.OneColumn` | vgi-client/src/scan.rs:1416-1427 | nulls stand first or last as declared whatever the direction; values ascend or descend |
| `RangePartitions.FirstDifferenceDecides` | vgi-client/src/scan.rs:1428-1435 | of several columns the first that differs decides, as if it stood alone |
| `RangePartitions.ReadKeys` | vgi-client/src/scan.rs:1361-1388 | yields the declared comparator, exactly if every key record is accepted and has a known direction and null order |
| `RangePartitions.CheckTypes` | vgi-client/src/scan.rs:1405-1416 | decides whether every column has its expected type |
| `RangePartitions.CheckOrder` | vgi-client/src/scan.rs:1434-1441 | decides whether adjacent split points strictly ascend |
| `RangePartitions.CheckIndices` | vgi-client/src/scan.rs:1442-1466 | decides whether every split names a range, or none does when there are no ranges |
| `RangePartitions.Validate` | vgi-client/src/scan.rs:1354-1466 | accepts exactly if there are keys, all accepted, split points that decode, fit them in number and type, can be ordered and strictly ascend, and every split names a range; and without ranges, if no split names one |
| `RangePartitions.AscendingIffPartitions` | vgi-client/src/scan.rs:996-997 | split points strictly ascend exactly if every key tuple lies in exactly one half-open range and each split point opens its own range |
| `RangePartitions.AcceptedPlanPartitions` | vgi-client/src/scan.rs:1354-1455 | in an accepted plan the ranges partition the keys and every split names one of them |
| `RangePartitions.AcceptedIff` | vgi-client/src/scan.rs:1354-1466 | metadata is accepted exactly if keys, directions, null orders, point types and split indices are as declared and the points partition the keys |
| `RangePartitions.AcceptedWithout` | vgi-client/src/scan.rs:1456-1466 | without it a plan is accepted exactly if no split names a range |
| `Base64.Encode` | vgi-client/src/scan.rs:457-479 | the loop over chunks computes the encoding |
| `Base64.Shift` | vgi-client/src/exchange.rs:357-365 | one symbol: the 32-bit accumulator loses no bit, and a byte leaves as soon as eight are there |
| `Base64.Decode` | vgi-client/src/exchange.rs:338-367 | the loop decodes exactly the readable texts, spaces dropped and cut at the first pad |
| `Base64.DecodeEncode` | vgi-client/src/exchange.rs:338-367 | decoding inverts encoding for every byte sequence |
| `Base64.EncodedLength` | vgi-client/src/scan.rs:457-479 | four symbols for every three bytes begun, pads included |
| `Base64.StandardAlphabet` | vgi-client/src/scan.rs:457-479 | the standard alphabet is written, and it and the two URL-safe symbols are read, and no other byte |
| `Base64.EncodedAt` | vgi-client/src/scan.rs:457-479 | each chunk of three bytes is, in its place, the same number to the base 64; a shorter last one is padded |
| `Base64.DecodesIff` | vgi-client/src/exchange.rs:338-367 | text is read exactly if every byte before the first pad is white space or a symbol |
| `Base64.SpacesIgnored` | vgi-client/src/exchange.rs:349 | spaces anywhere change nothing |
| `Base64.RowsRoundTrip` | vgi-client/src/exchange.rs:666-673 | little-endian two's complement is read back for every int32 array |
| `Base64.LittleIsNumber` | vgi-client/src/exchange.rs:666-673 | four bytes, least significant first, a negative number as its complement |
| `Base64.ProvenanceRoundTrip` | vgi-client/src/exchange.rs:313-331 | every provenance array survives the trip through metadata |
| `Exchanges.Exchange.constructor` | vgi-client/src/exchange.rs:477-489 | nothing sent, nothing pending, validators still to go out |
| `Exchanges.Exchange.Send` | vgi-client/src/exchange.rs:121-132 | sends nothing while output is pending or after the end; otherwise one input, with the validators exactly if first; a batch is returned exactly if the answer has the emitted schema, no `not_modified` with more to come and readable provenance, and it is the answer's first columns, each under its own name; what is pending, reported and reusable follows from the answer |
| `Exchanges.Exchange.ContinueOutput` | vgi-client/src/exchange.rs:136-148 | sends a tick of the pending input's schema exactly if output is pending; the answer is accepted as for an input, and only without directives |
| `Exchanges.Exchange.Turn` | vgi-client/src/exchange.rs:153-212 | one turn: a failure, a refused answer or an end in answer to a tick spoils the connection; provenance and directives are taken from accepted answers only; the batch is the answer's first columns |
| `Exchanges.CallerGetsProjection` | vgi-client/src/exchange.rs:188-199 | if the answer has the columns on the wire and the requested ones are kept, the caller gets exactly the projection requested, under its own names |
| `Exchanges.LatestIsLast` | vgi-client/src/exchange.rs:176-187 | provenance and directives reported are those of the last accepted answer that has any |
| `Exchanges.Exchange.CloseInput` | vgi-client/src/exchange.rs:215-228 | closes once; afterwards it does nothing |
| `Exchanges.Exchange.CancelInput` | vgi-client/src/exchange.rs:231-242 | cancels once; afterwards it does nothing |
| `Exchanges.Exchange.Drop` | vgi-client/src/exchange.rs:245-259 | cancels exactly if nobody ended the exchange |
| `Exchanges.RunIsPolite` | vgi-client/src/exchange.rs:121-259 | in every run against every worker each item may follow the one before: ticks only after an accepted promise of more, inputs only when none is open, nothing after the end |
| `Exchanges.TickBelongsToInput` | vgi-client/src/exchange.rs:133-148 | between a tick and its input are only ticks, every answer in between promised more, and the tick has the input's schema |
| `Exchanges.ValidatorsRideFirstInput` | vgi-client/src/exchange.rs:127-128 | conditional validators go with the first input and no other |
| `Exchanges.EndingIsLast` | vgi-client/src/exchange.rs:214-259 | a close or cancel is the last thing sent |
| `Exchanges.DroppedRunEndsOnce` | vgi-client/src/exchange.rs:245-259 | a run that drops the exchange sends exactly one close or cancel |
| `Exchanges.NotModifiedStandsAlone` | vgi-client/src/exchange.rs:278-298 | an accepted `not_modified` answers an input, and no tick follows it |
| `Exchanges.DirectivesOnFirstReply` | vgi-client/src/exchange.rs:278-310 | the cache directives in force come from the first reply to some input |
| `Exchanges.BrokenStaysBroken` | vgi-client/src/exchange.rs:153-212 | once the connection is spoiled nothing that follows makes it reusable |
| `CanonicalJson.PushJsonString` | vgi-client/src/launcher.rs:162-178 | the loop appends the quoted, escaped form of the string |
| `CanonicalJson.CanonicalText` | vgi-client/src/launcher.rs:135-156 | the loops build the canonical text of command, directory and environment |
| `CanonicalJson.LiteralRoundTrip` | vgi-client/src/launcher.rs:162-178 | every string, control characters, quotes and backslashes included, is read back from its literal (section 7 of RFC 8259) |
| `CanonicalJson.EscapeForms` | vgi-client/src/launcher.rs:162-178 | two-character escapes where there is one, four lower-case hex digits for other control characters, everything else as it is |
| `CanonicalJson.TextOfExample` | vgi-client/src/launcher.rs:135-156 | the text of a small worker, names and order of the parts included |
| `CanonicalJson.TextRoundTrip` | vgi-client/src/launcher.rs:135-156 | a reader recovers command, directory and environment from the text |
| `CanonicalJson.TextInjective` | vgi-client/src/launcher.rs:130-156 | different workers have different texts |
| `LaunchArgv.ParseLaunchArgv` | vgi-client/src/location.rs:232-314 | the loop yields the arguments, and fails exactly on a trailing escape, an open quote or no argument |
| `LaunchArgv.ScanAppend` | vgi-client/src/location.rs:246-303 | text after a point where no quote is open is read as if the text before had been read alone |
| `LaunchArgv.WordsConcatenate` | vgi-client/src/location.rs:232-314 | with a space, a tab or a newline between, the words of both texts in order; it fails exactly if the second does |
| `LaunchArgv.ArgumentsConcatenate` | vgi-client/src/location.rs:232-314 | splitting `a`, a blank, `b` gives the arguments of `a`, then those of `b` |
| `LaunchArgv.QuotedLineRoundTrip` | vgi-client/src/location.rs:232-314 | every non-empty argument list is the split of its single-quoted form, on every platform |
| `LaunchArgv.BackslashedRoundTrip` | vgi-client/src/location.rs:265-272 | off Windows a backslash outside quotes takes any character as it is |
| `LaunchArgv.DoubleQuotedRoundTrip` | vgi-client/src/location.rs:278-292 | off Windows every string, the empty one included, is the word its escaped double-quoted form spells |
| `LaunchArgv.WindowsPathsSurvive` | vgi-client/src/location.rs:230-231 | on Windows a backslash is an ordinary character |
| `LaunchArgv.UnquotedIsOneWord` | vgi-client/src/location.rs:246-277 | text without those three, quotes and backslashes is one word |
| `LaunchArgv.BackslashInDouble` | vgi-client/src/location.rs:278-292 | between double quotes a backslash goes before five characters off Windows, and stays before all others and on Windows |
| `LaunchArgv.TrailingBackslashRefused` | vgi-client/src/location.rs:265-270 | a last backslash outside quotes is refused off Windows |
| `LaunchArgv.OpenQuoteRefused` | vgi-client/src/location.rs:304-306 | a quote that nothing closes is refused |
| `LaunchArgv.BlankLineRefused` | vgi-client/src/location.rs:307-313 | a line of blanks is refused |
| `Retries.Perform` | vgi-client/src/retry.rs:297-324 | the loop ends at the first attempt that succeeds or after which the policy gives up, and says which and why |
| `Retries.AttemptsAreBounded` | vgi-client/src/retry.rs:262-284 | at most the allowed attempts are made, the first always, and only failures the server invites to repeat are repeated |
| `Retries.WindowGrows` | vgi-client/src/retry.rs:235-241 | the backoff window never shrinks and stays between the base and the ceiling |
| `Retries.WindowDoubles` | vgi-client/src/retry.rs:235-241 | each failure doubles the window up to the ceiling and the sixteenth doubling |
| `Retries.WindowEnds` | vgi-client/src/retry.rs:235-241 | the window begins with the base and ends at 65536 times the base, or at the ceiling |
| `Retries.GivesUpIff` | vgi-client/src/retry.rs:262-284 | each reason to give up, and a retry, exactly by the class, the attempts made and the time the sleep would end |
| `Retries.SleepsAreFair` | vgi-client/src/retry.rs:249-284 | a sleep is what the server asked plus the jittered part of that attempt's window, and ends within the budget |
| `Retries.SleepsFitTheBudget` | vgi-client/src/retry.rs:262-324 | on a clock that counts the sleeps, all sleeps of a run together are shorter than the budget |
| `CivilDates.EraIsFloor` | vgi-client/src/retry.rs:165-167 | the truncating division, as used, rounds down for negative years |
| `CivilDates.MonthsAbut` | vgi-client/src/retry.rs:164-172 | the first of a month is the month before's Gregorian length away, in every year |
| `CivilDates.CountsDays` | vgi-client/src/retry.rs:162-172 | 1970-01-01 is 0 and the next calendar day is always one more |
| `CivilDates.StrictlyMonotone` | vgi-client/src/retry.rs:162-172 | later valid dates count more days, negative years included |
| `CivilDates.NormalSameDay` | vgi-client/src/retry.rs:151-172 | a day its month does not have counts as that many days into the next month |
| `CivilDates.InstantsFollowTheCalendar` | vgi-client/src/retry.rs:148-159 | whatever its fields, a stamp is read exactly if they are in range and its calendar date is not before 1970; of two that are read one is the earlier instant exactly if it is the earlier date and time, surplus days counted on and leap seconds counted as the second before |
| `HttpDates.ReadsImfFixdate` | vgi-client/src/retry.rs:124-160 | whatever numbers stand in its fields, a date written in the mandated form is read as the instant of those fields |
| `HttpDates.SecondsAreRead` | vgi-client/src/retry.rs:101-111 | a number of seconds, blanks around it or not, is read as written exactly if 64 bits hold it |
| `HttpDates.DatesAreRead` | vgi-client/src/retry.rs:101-117 | a date in the mandated form asks to wait until then, and not at all if it is past; one that names no instant asks nothing |
| `HttpDates.OthersAreIgnored` | vgi-client/src/retry.rs:101-135 | text that is neither a number nor long enough, in GMT and with a month is no wait |

## Left out

- Arrow encoding, compression codecs, the JSON of refs and manifests, SHA-256 and HMAC: abstracted as injective encodings of what they carry.
- Directory creation, permissions, fsync retries and the secret file: a rename or unlink is one atomic step, and the deletion of an object directory is one step per file.
- Statistics counters of both caches (hits, misses, refusals, aborts): they feed nothing back.
- Widths of sums, ticks and counters: the model uses unbounded integers where the source uses 64-bit ones with saturating addition.
- Eligibility of a result for caching and the computation of freshness lifetimes: the lifetime and the moments it is checked are arguments.
- DiskRuns.NeverRejectedForCorruption: tampering with files from outside is not an event of the state machine; that a tampered object is rejected is `HitReplaysSealedContent`.
- DiskBounds.QuiescentWithinLimits: one direction only; a publication cut short can leave the limits exceeded, as `CrashExceedsLimits` and `FailedUnlinkExceedsLimits` show, but need not, and a later removal may end that.
- DiskRuns.RefsAlwaysComplete: reads do not fail in runs of the state machine; what a failed read of a ref does to one disk is in `DiskReads`, for every sound disk, and is not followed through later events.
- DiskRefinement.CommitInRun: relates the disk and the leases of the instance to those of the world; recency marks, clock readings and the list of active captures are the instance's own.
- HttpDates.ReadsImfFixdate: header text is ASCII; text with other characters is not modelled.
- ScanPlans.MakePlan: of the validation of plan metadata the ranges are modelled; locations, key groupings, bounds and statistics are the argument `otherOk`.
- RangePartitions.Validate: which key records and split-point batches decode, and what type a transform gives, is part of the input; column types are names.
- Classification of errors for retrying, catalog calls, connection pools, process spawning and sockets: plumbing or short case splits beside the above.
- Retries.Perform: durations are reals, so rounding to nanoseconds and saturation are not modelled; the endpoint and the peer's message are not part of the answer.
