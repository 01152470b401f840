# Verified model of the Aurora enrichment, training and serving core

This project models the logic of the Aurora exoplanet platform in Dafny and proves what its hardest parts
keep: the durable Silver-to-Gold enrichment protocol, the group-safe training split, readiness and batching,
Gold publication, catalog replay, the analytical projection, ranking metrics, target-pixel evidence, the
event broker, cursor pagination and habitability scoring.

`dafny verify dfyconfig.toml` checks everything. There is one module per file.

| part | modules |
|---|---|
| shared | `Wrappers`, `Arithmetic`, `Orders`, `Sequences`, `Text`, `Events` |
| enrichment protocol | `Checkpoints`, `Protocol`, `Durability`, `Restart`, `Losses`, `LineageCoverage`, `Stranding`, `Custody`, `Clearing`, `Deadlock` |
| readiness and dispatch | `Readiness`, `Scheduler`, `WorkerPool` |
| Gold snapshots | `SnapshotIdentity`, `Materializer`, `GoldBuild`, `GoldRuns` |
| catalogs and projection | `Catalogs`, `CatalogRuns`, `Projection`, `ProjectionRuns` |
| training | `GroupSplit`, `TargetSafety`, `Metrics` |
| evidence | `Evidence`, `TransitRecovery` |
| API services | `SseBroker`, `SseDelivery`, `Paging`, `Habitability` |

## How the code is modelled

* The enrichment worker is a transition system (`Protocol`). A step is one effect: a put or a delete in the
  object store, an acknowledgement, an append to the pending list, a claim of a batch. The main task, any
  number of workers and upstream interleave freely, and `Crash` may come between any two steps. The step
  functions of startup, recovery and clearing are the loop bodies of the imperative `CheckpointStore`.
* Catalog requests are a second transition system (`CatalogRuns`): a step is one read or one put of one of any
  number of requests, each of which may be abandoned between any two of them, while operators import and select
  snapshots. The same functions on the store are the statements of the imperative `CatalogStore`, whose calls are
  proved correct with others at work before every access and a process that may die at any of them.
* So are Gold builds (`GoldRuns`: storing an immutable object is a read and a later put) and projections
  (`ProjectionRuns`: a step is one effect on the analytical tables), each with any number under way at once and of
  one snapshot too, since batches are built and projected in separate processes without a lock.
* Analytical tables whose engine replaces rows by key are sets; the candidate table keeps every inserted row and is
  a listing.
* Objects whose fields the source updates are classes (`CheckpointStore`, `MultimodalReadiness`, `Pool`,
  `GoldStore`, `CatalogStore`, `Warehouse`, `Broker`); each method is tied to a function of the old state.
* SHA-256 digests are collision free and untruncated, so an identity is modelled as the value it is a digest
  of. The order of two digests is a parameter (an arbitrary injective ranking).
* Feature extraction, catalog providers, normalisers, losses and clock readings are parameters: arbitrary
  values, and functions that may fail.
* Floating point is modelled by the reals; square and cube roots are parameters bound by their equations.

## What the enrichment protocol takes for granted

`Durability.Universe` states it: an event id names one artifact, a non-empty object key names one artifact,
and every event lives in the configured bucket. An artifact is a product kind, a source product and a
content digest. The code relies on each of these without checking any, and the module `Losses` gives, for
each, runs that lose an acknowledged light curve when it fails. Lineage records that recovery passes over need
one thing more, exactly: events with an empty object key describe one artifact
(`LineageCoverage.ObservedIsKeptExactly`). A read from the store fails only when the
key is absent.

Where the code and its documentation differ, the model follows the code:

* The documented promise that catalog failures are transient (`runtime/pool.py`, the handler of
  `CatalogSyncError`) does not hold for the coverage check: the cache pointers are written before it, so a
  batch whose TIC records do not cover its targets fails the same way on every retry
  (`Catalogs.CatalogStore.SyncForTics`, `CatalogRuns.ReplayIsPermanent`).
* A retry is meant to find the exact catalogs of its batch (`pipeline/materializer.py`, above the catalog check).
  Pointers are read once and put unconditionally, so of two overlapping requests for one target set the later
  one replaces the snapshots the earlier one returned (`CatalogRuns.OverlapReplaces`); a pointer is permanent
  exactly when no request is under way that found it absent and has not derived the same snapshot
  (`CatalogRuns.PermanentExactly`).
* Gold objects are called immutable (`pipeline/materializer.py`, `_put_immutable`), but the read and the put are two
  accesses: of two overlapping builds of one snapshot the later put replaces the manifest the earlier build returned
  (`GoldRuns.OverlapOverwrites`). `GoldRuns.ImmutableExactly` says when an object is immutable.
* A snapshot is meant to be projected idempotently (`storage/clickhouse.py`, the cleanup before the inserts). Two
  overlapping attempts leave it READY with every row twice (`ProjectionRuns.OverlapDoubles`);
  `ProjectionRuns.StaysExactExactly` says when it stays exact.
* Failed builds are meant to be retried (`runtime/pool.py`, the general handler). One that stops between storing its
  manifest and READY is never projected: a rebuild is planned at another time, finds other bytes and fails, and after
  a restart its checkpoints count as extracted (`Stranding.StrandedExactly`, `Stranding.CrashStrands`).
* Retrying can stop for good (`runtime/pool.py`, both handlers put the batch back before the worker takes another). The
  put waits for room in the bounded queue and only workers make room: once every worker waits and the queue is full,
  nothing moves until the process is restarted (`Deadlock.JammedExactly`, `Deadlock.RetriesJam`).
* The projector marks a snapshot READY before it records the snapshot's lineage inputs, and a READY snapshot is
  not projected again: an attempt stopped in between leaves the lineage unrecorded for good
  (`ProjectionRuns.LineageCanBeMissed`).
* One failed control read at the pause gate leaves the queue counter one too high for good, so BATCH mode
  never freezes by itself again in that process; the freeze stays safe (`WorkerPool.OneMissDisablesFreeze`,
  `WorkerPool.FailedGateReadRun`).
* With repeated event ids the two dispatchers differ: the inline STREAM dispatch may drop a light curve from
  memory that the scheduler would have sent (`Scheduler.RepeatedIdSkipsFlush`); its checkpoint remains.

## Model

| member | source | states |
|---|---|---|
| Durability.NothingAcknowledgedIsLost | apps/python-enrichment/runtime/worker.py:387-421 | In every run of intake, recovery, dispatch, build, clear, retry and crash from an empty store, an artifact whose message was acknowledged is, at every later moment, pending in the home bucket, or an input of a committed research-ready manifest (light curve), or a stored context (target pixel). |
| Durability.NothingEntrustedIsLost | apps/python-enrichment/storage/checkpoints.py:33-121 | The same for every artifact a checkpoint or context was ever written for, so pruning, migrating and clearing never delete the last trace of one. |
| Durability.MemoryIsDurable | apps/python-enrichment/runtime/pool.py:255-260 | Every item in the pending list, the queue, a worker's hands or a dispatch in progress is backed by the store in every reachable state; target pixels in batches are stored contexts. |
| Custody.InHandUntilExtracted | apps/python-enrichment/runtime/pool.py:255-260 | In every run without a crash, whatever dispatches, failures and retries it contains, a light curve in the pending list, the main task's hands, the queue or a worker's stays in one of them until it is in a committed research-ready manifest. |
| Custody.AcknowledgedIsHandled | apps/python-enrichment/runtime/worker.py:387-421 | A light curve whose message was acknowledged, new or repeated, is in hand from then on in every continuation without a crash, until it is extracted. |
| Custody.RecoveredIsHandled | apps/python-enrichment/storage/checkpoints.py:94-109 | So is a light curve that lineage recovery queues, at startup or while paused. |
| Custody.KeptIsInHand | apps/python-enrichment/storage/checkpoints.py:60-68 | So is a checkpoint that startup keeps. |
| Custody.RetryIsPossible | apps/python-enrichment/runtime/pool.py:635-667 | Wherever an attempt stands it can fail and hand its whole batch back to the end of the queue, when there is room, leaving the worker free. |
| Deadlock.JammedExactly | apps/python-enrichment/runtime/pool.py:255-260 | While a batch is queued or with a worker, no worker does anything in any continuation without a restart if and only if every worker waits to put a failed batch back and the queue is full. |
| Deadlock.RetriesJam | apps/python-enrichment/runtime/pool.py:635-667 | For any number of workers, any capacity and any light curves that pair with a target pixel: a run from a first deployment that ends in such a jam. |
| Deadlock.QueueIsBounded | apps/python-enrichment/runtime/pool.py:103-105 | The queue never exceeds its capacity, retries included. |
| Durability.ContextsArePermanent | apps/python-enrichment/runtime/readiness.py:140-145 | A stored target-pixel context survives every continuation of every run, and every target pixel of a committed research-ready manifest has one. |
| Durability.MemoryMirrorsContexts | apps/python-enrichment/runtime/readiness.py:140-145 | In every run each target-pixel context in memory is the very one in the store, one per revision. |
| Durability.StepInv | apps/python-enrichment/runtime/worker.py:89-109 | Each step of the protocol keeps the invariant and loses nothing that was kept, stored as a context or extracted. |
| Durability.CommitGrows | apps/python-enrichment/pipeline/materializer.py:489-514 | Putting the manifest of a batch without conflicts, over another manifest of the same identity too, covers the artifact of every event of the batch, loses nothing extracted before, and keeps every target pixel of a manifest among the contexts. |
| Durability.DeleteGrows | apps/python-enrichment/storage/checkpoints.py:113-121 | Deleting a checkpoint whose artifact is extracted (or a stored context) loses no artifact, even if another event was stored under the same key meanwhile. |
| Durability.ExtractedIsFinal | apps/python-enrichment/storage/checkpoints.py:60-68 | A checkpoint whose object key appears in a committed research-ready manifest is of an artifact that is safe without it. |
| Restart.RestartRestoresQueue | apps/python-enrichment/runtime/worker.py:89-109 | When startup ends, after any history of crashes, the pending list holds every light curve with a checkpoint in the home bucket and none whose object key is already in a committed research-ready manifest. |
| Losses.ReusedEventIdLoses | apps/python-enrichment/storage/checkpoints.py:33-36 | Two light curves of different artifacts under one event id: a run that acknowledges both and keeps only the second. |
| Losses.ForeignBucketLoses | apps/python-enrichment/storage/checkpoints.py:33-48 | A light curve from another bucket: a run that acknowledges it and leaves it where no listing looks. |
| Losses.ReusedObjectKeyLoses | apps/python-enrichment/storage/checkpoints.py:60-68 | Two light curves under one object key: commit the first, acknowledge the second, crash, and startup deletes the second's checkpoint. |
| LineageCoverage.ObservedIsKeptExactly | apps/python-enrichment/storage/checkpoints.py:70-111 | Given the three conditions above: the artifact of every lineage record inspected, whether queued or passed over, is kept in every run, if and only if events without an object key describe one artifact. |
| LineageCoverage.SkippedIsKept | apps/python-enrichment/storage/checkpoints.py:98-103 | A record passed over because its object key is known or extracted names an artifact that is kept. |
| Stranding.StrandedExactly | apps/python-enrichment/pipeline/materializer.py:509-514 | A committed snapshot that is not READY, of a time past, is never READY in any continuation if and only if no worker has stored or found the very manifest that is there and none is about to put another over it. |
| Stranding.CrashStrands | apps/python-enrichment/runtime/pool.py:456-510 | For any light curve and target pixel that pair: a run that commits their snapshot and stops before projecting it, after which the light curve counts as extracted and no run makes the snapshot READY. |
| Clearing.ClearingIsClearPending | apps/python-enrichment/storage/checkpoints.py:113-121 | A worker left alone after its announcement changes the store as `clear_pending` does, one deletion an item, and is then done with the batch. |
| Clearing.DoneWhenAllCleared | apps/python-enrichment/runtime/pool.py:556-562 | Whatever others do meanwhile, a worker is done with an announced batch exactly when it has cleared each of its items, in order. |
| Protocol.RecoverIsLoopBody | apps/python-enrichment/storage/checkpoints.py:94-109 | A recovery step of the protocol is one turn of the lineage recovery loop. |
| Protocol.BuildIsCommit | apps/python-enrichment/pipeline/materializer.py:489-514 | A manifest the builder returns for a batch is stored at the place, and has the bucket, identity, committed and research-ready marks, inputs and creation time, that the protocol's commit steps record. |
| Protocol.PersistIsReadiness | apps/python-enrichment/runtime/readiness.py:140-145 | Storing a context in the protocol is what the readiness object does to the store and to its memory. |
| Checkpoints.CheckpointStore.PendingUnextracted | apps/python-enrichment/storage/checkpoints.py:50-68 | Deletes exactly the places of the home checkpoints whose object key is in a committed research-ready manifest, and returns the other checkpoints, in listing order. |
| Checkpoints.CheckpointStore.RecoverPendingFromLineage | apps/python-enrichment/storage/checkpoints.py:70-111 | Of the records not observed before, queues and stores, in listing order, exactly the first of each object key that is neither pending nor extracted, and observes every key. |
| Checkpoints.QueuedMeans | apps/python-enrichment/storage/checkpoints.py:94-109 | The object keys so queued are distinct and are exactly those the records name that were neither pending nor extracted, so afterwards every record's key is pending or extracted. |
| Checkpoints.SavedUnlessReplaced | apps/python-enrichment/storage/checkpoints.py:33-36 | Each queued event is in the store afterwards unless a later one has the same place. |
| Checkpoints.CheckpointStore.PendingEvents | apps/python-enrichment/storage/checkpoints.py:38-48 | Lists every checkpoint of the home bucket exactly once. |
| Checkpoints.CheckpointStore.ClearPending | apps/python-enrichment/storage/checkpoints.py:113-121 | Afterwards the checkpoints are the old ones without the places of the batch's queue entries; contexts, manifests and lineage are as before. |
| Checkpoints.ExtractedSilverKeys | apps/python-enrichment/storage/checkpoints.py:123-139 | The non-empty object keys of the inputs of the committed research-ready manifests of the bucket, no others. |
| WorkerPool.CountersZeroExactly | apps/python-enrichment/runtime/pool.py:333-348 | In every interleaving both counters are zero exactly when no batch is queued or claimed and every claim so far passed the gate. |
| WorkerPool.CountersCoverBatches | apps/python-enrichment/runtime/pool.py:255-260 | The counters together never undercount the queued and claimed batches, whatever control reads failed. |
| WorkerPool.FreezeIsSafe | apps/python-enrichment/runtime/worker.py:446-466 | PAUSED is written by the service only when nothing is pending and no batch is in memory. |
| WorkerPool.QueueClampNeverBinds | apps/python-enrichment/runtime/pool.py:347-348 | The clamp on the queue counter never changes a value, in any run. |
| WorkerPool.ActiveClampNeverBinds | apps/python-enrichment/runtime/pool.py:669-679 | While every claim has passed the gate the active counter is exact and its clamp never binds. |
| WorkerPool.OneMissDisablesFreeze | apps/python-enrichment/runtime/pool.py:333-348 | After one claim missed the gate the freeze condition is false for ever in that process. |
| WorkerPool.FailedGateReadRun | apps/python-enrichment/runtime/pool.py:635-679 | One such run: all work done, nothing in memory, and the freeze condition still false; without the failed read it is true. |
| WorkerPool.Pool.RetryAttempt | apps/python-enrichment/runtime/pool.py:635-679 | The retry handler and its `finally` perform one retry step of the counter model. |
| WorkerPool.Pool.RunClaimedBatch | apps/python-enrichment/runtime/pool.py:322-679 | One attempt at a claimed batch performs the steps of the model for its outcome: finished, or handed back to the queue with or without having been counted as active. |
| WorkerPool.Pool.EnterBuild | apps/python-enrichment/runtime/pool.py:347-348 | Passing the gate performs one gate step of the counter model. |
| Readiness.LatestIsNewest | apps/python-enrichment/runtime/readiness.py:147-168 | The index entry of a sample or product is the matching target pixel of the latest timestamp, an unreadable one being as early as can be, and of the greatest digest among equals; it is absent only when none matches. |
| Readiness.ServedByNewest | apps/python-enrichment/runtime/readiness.py:150-192 | A light curve is ready exactly when a stored target pixel is of the product its contract names or, without a contract, of its sample; the newest of those is taken. |
| Readiness.LatestIsFirst | apps/python-enrichment/runtime/readiness.py:158-168 | Of equally new target pixels it is the first listed. |
| Readiness.LatestIgnoresOrder | apps/python-enrichment/runtime/readiness.py:61-72 | The newest target pixel is the same for every listing order of the contexts. |
| Readiness.CandidatesIgnoreListing | apps/python-enrichment/runtime/readiness.py:174-192 | The same light curves become ready with the same target pixels, whatever the listing order. |
| Readiness.CandidatesAreReady | apps/python-enrichment/runtime/readiness.py:174-192 | The candidates are the light curves whose contract or sample has a target pixel, in pending order. |
| Readiness.ReadyPlusWaiting | apps/python-enrichment/runtime/readiness.py:212-216 | Ready plus waiting is the number pending. |
| Readiness.GroupKeepsLightCurves | apps/python-enrichment/runtime/readiness.py:195-205 | Deduplication by event id keeps every light curve of a group exactly when none repeats an id met earlier in the group; then it keeps them in order. |
| Readiness.BatchesHoldReady | apps/python-enrichment/runtime/readiness.py:194-205 | With distinct event ids the batches together hold the ready light curves once each and in order, every batch but the last exactly the target number, and none is empty. |
| Readiness.ChunksPartition | apps/python-enrichment/runtime/readiness.py:195-196 | The groups concatenate to the candidates. |
| Readiness.ChunkSizes | apps/python-enrichment/runtime/readiness.py:195-196 | Every group but the last is full and no group is empty. |
| Readiness.BatchItemsKnown | apps/python-enrichment/runtime/readiness.py:194-205 | A batch holds pending light curves and stored target-pixel contexts, nothing else. |
| Readiness.MultimodalReadiness.CollectReady | apps/python-enrichment/runtime/readiness.py:147-226 | The indexed, chunked computation returns the batches of the simple specification, with the counts and the state of the summary. |
| Readiness.MultimodalReadiness.PersistContext | apps/python-enrichment/runtime/readiness.py:140-145 | Stores the event, then remembers it under its revision, and changes no other context; when the put fails nothing changes. Memory stays a mirror of the store. |
| Scheduler.DispatchableReadyBatches | apps/python-enrichment/runtime/scheduler.py:19-66 | Full batches at once, then partial ones exactly when the source is quiet; batches without a light curve never. |
| Scheduler.DispatchableMeans | apps/python-enrichment/runtime/scheduler.py:42-66 | A batch goes out exactly when it has a light curve and is full, or partial and the source quiet. |
| Scheduler.DispatchStream | apps/python-enrichment/runtime/worker.py:471-499 | What the inline STREAM dispatch sends, what it leaves pending and the timestamp it leaves behind. |
| Scheduler.StreamMatchesScheduler | apps/python-enrichment/runtime/worker.py:471-499 | With distinct event ids the inline STREAM dispatch always sends what the scheduler would. |
| Scheduler.StreamDiffersExactly | apps/python-enrichment/runtime/worker.py:474-499 | Its lemma, for any ids: the two differ exactly where the full batches empty the pending list while a partial batch waits to be flushed. |
| Scheduler.QuietPassLeavesWaiting | apps/python-enrichment/runtime/worker.py:312-323 | After a quiet pass a light curve is still pending exactly when it was pending and has no target pixel. |
| Scheduler.RepeatedIdSkipsFlush | apps/python-enrichment/runtime/worker.py:481-499 | Three ready light curves at size two, the third repeating an id: the scheduler sends two batches, the inline dispatch one, and nothing is left pending. |
| SnapshotIdentity.IdentityIsCanonical | apps/python-enrichment/pipeline/gold.py:106-136 | Two accepted plans have the same fingerprint exactly when their settings are equal and their inputs agree, in any order, on the canonical fields. |
| SnapshotIdentity.PlanIgnoresOrder | apps/python-enrichment/pipeline/gold.py:93-103 | Every ordering of accepted inputs is accepted and plans the same snapshot: identity, sorted inputs and count. |
| SnapshotIdentity.BucketIsNotCanonical | apps/python-enrichment/pipeline/gold.py:29-42 | The bucket is no canonical field: inputs that differ in it alone have one identity and different planned inputs. |
| SnapshotIdentity.PlanSnapshot | apps/python-enrichment/pipeline/gold.py:253-309 | Accepts exactly the inputs that are supported, distinct by product and of one processor version per kind, and plans their identity. |
| Materializer.SelectEvents | apps/python-enrichment/pipeline/materializer.py:304-313 | Succeeds exactly when no product comes with two digests, and then returns one event per product, sorted. |
| Materializer.SelectedCovers | apps/python-enrichment/pipeline/materializer.py:304-313 | Every event of an accepted batch is represented by a selected event of the same artifact. |
| Materializer.PairLightCurve | apps/python-enrichment/pipeline/materializer.py:177-190 | Pairs a target pixel exactly when there is one and only one light curve it shares a key with, and with that one. |
| Materializer.GateIsPerfectMatching | apps/python-enrichment/pipeline/materializer.py:358-380 | The checks of the pairing gate pass together exactly when sharing a key is a perfect matching of light curves and target pixels. |
| Materializer.MatchingCounts | apps/python-enrichment/pipeline/materializer.py:429-437 | A build that passes the gate pairs every light curve once, and as many as there are target pixels. |
| GoldBuild.PartitionHoldsSector | apps/python-enrichment/pipeline/materializer.py:253-258 | A data file holds exactly the rows of its sector, in order, and is never empty. |
| GoldBuild.EveryRowHasPartition | apps/python-enrichment/pipeline/materializer.py:253-258 | Every row is in the data file of its sector, one without a sector in that of sector 1. |
| GoldBuild.PartitionsInOrder | apps/python-enrichment/pipeline/materializer.py:257-258 | The data files come by increasing sector. |
| GoldBuild.RecordsConserve | apps/python-enrichment/pipeline/materializer.py:477-488 | The row counts recorded for the data files add up to the number of rows. |
| GoldBuild.RefIdentifies | apps/python-enrichment/pipeline/gold.py:29-42 | The canonical inputs of two events are equal exactly when the events agree on all but id, bucket and time. |
| GoldBuild.SettingsMean | apps/python-enrichment/pipeline/materializer.py:387-410 | The settings of a batch that pairs off: the versions of both kinds and the catalog enrichment, the catalogs, and of these the label catalogs. |
| GoldRuns.ImmutableExactly | apps/python-enrichment/pipeline/materializer.py:225-240 | In every reachable state of any number of builds, a stored object keeps its bytes in every continuation if and only if every build that read its key as absent is about to put the same bytes. |
| GoldRuns.ObjectChangesOnlyInFlight | apps/python-enrichment/pipeline/materializer.py:229-239 | Over every run a stored object stays stored, and its bytes change only by the put of a build that read the key as absent before it was stored. |
| GoldRuns.OverlapOverwrites | apps/python-enrichment/runtime/pool.py:456-462 | For every draft and any two creation times: two builds both find the manifest absent, the first puts its own and returns, the second puts another over it. |
| GoldRuns.BuildRunsAlone | apps/python-enrichment/pipeline/materializer.py:477-514 | From every reachable state a build that is not blocked can run alone to its end, storing every data file and the manifest and changing no other key, as the imperative commit does. |
| GoldBuild.GoldStore.PutImmutable | apps/python-enrichment/pipeline/materializer.py:225-240 | With others at work before the read and before the put: no key goes, the key is put only if it was free before, and success leaves the bytes stored. Alone it succeeds exactly when the key is free or holds the same bytes, and otherwise changes nothing. |
| GoldBuild.GoldStore.WriteDataset | apps/python-enrichment/pipeline/materializer.py:242-293 | Writes one data file per sector, putting free keys only whatever others do; alone it adds only data files of this snapshot or reports a key that held other bytes. |
| GoldBuild.DraftBatch | apps/python-enrichment/pipeline/materializer.py:303-457 | Succeeds only on a batch that pairs off perfectly, with one row per light curve carrying its own features and the evidence of its own target pixel; a refusal names the condition that failed. |
| GoldBuild.GoldStore.BuildCandidate | apps/python-enrichment/pipeline/materializer.py:295-550 | Alone it returns a manifest if and only if the batch pairs off, the evidence of every matched pair succeeds and no data file or manifest of its snapshot holds other bytes; a conflict is reported only then, and every other refusal names what the batch lacks. What it returns is stored byte for byte, lists twice as many inputs as light curves, on every outcome no byte under gold/snapshots/ changes, and the pointer of the bucket is set to the snapshot exactly when asked for. With others at work, and stopped anywhere, it puts no key that was taken when it began. |
| GoldBuild.DraftIsUnique | apps/python-enrichment/pipeline/materializer.py:387-457 | A buildable batch has one draft, so what blocks it is determined by the batch and the store. |
| GoldBuild.PairedAddNothing | apps/python-enrichment/pipeline/materializer.py:381-386 | Listing the paired light curves again adds no input reference. |
| Catalogs.ScopeIsCanonical | apps/python-enrichment/pipeline/catalogs.py:116-126 | Two requests have the same cache scope exactly when they name the same positive targets. |
| CatalogRuns.AlwaysSound | apps/python-enrichment/pipeline/catalogs.py:415-527 | In every reachable state, whatever requests overlapped and were cut short, every manifest has its records beside it and every cache pointer names a complete snapshot of its own catalog and scope. |
| CatalogRuns.PointerChangesOnlyInFlight | apps/python-enrichment/pipeline/catalogs.py:428-441 | Over every run a set pointer stays set, and it changes only by the put of a request that read it as absent before it was set. |
| CatalogRuns.PermanentExactly | apps/python-enrichment/pipeline/catalogs.py:428-527 | A set pointer keeps its value in every continuation if and only if every request under way that found it absent has derived the snapshot it names. |
| CatalogRuns.ReplayIsPermanent | apps/python-enrichment/pipeline/catalogs.py:424-540 | Once both pointers of a target set are so settled, in every run any later request for the same set, in any order and multiplicity, derives, fetches and stores nothing and returns the same snapshots, records and verdict. |
| CatalogRuns.OverlapReplaces | apps/python-enrichment/runtime/pool.py:409-414 | Two overlapping requests for one target set, for any two pairs of snapshots they derive: the first returns its pair, and from the second's puts on the targets replay to the other pair. |
| CatalogRuns.VerifiesComplete | apps/python-enrichment/pipeline/catalogs.py:529-533 | A request that gets as far as verifying holds two complete snapshots of its scope, so that only the coverage check can fail. |
| CatalogRuns.DerivationsAreAnswers | apps/python-enrichment/pipeline/catalogs.py:442-517 | The snapshots a request may derive in these runs are exactly those some provider and normaliser yield from the active snapshot or the provider's rows. |
| Catalogs.CatalogStore.SyncForTics | apps/python-enrichment/pipeline/catalogs.py:415-540 | Undisturbed, it returns for each catalog the snapshot its pointer names or, if unset, exactly the normalised form of the rows owed, fails only when provider, normaliser or coverage does, caches exactly that, and asks the provider exactly when pointer and active snapshot do not serve. With others at work before every access and the process dying at any of them: a result was owed at some moment of the call, the store stays sound and loses nothing, and a request whose pointers exist fetches and puts nothing. |
| Catalogs.ToiRowsOwed | apps/python-enrichment/pipeline/catalogs.py:489-502 | The rows owed to a TOI request: all records of the active snapshot whose tic is a target, in order; without one the provider's. |
| Catalogs.TicRowsOwed | apps/python-enrichment/pipeline/catalogs.py:442-458 | The rows owed to a TIC request: one per target from the active snapshot when it serves them all, the last record of a target counting; otherwise the provider's. |
| Catalogs.CoverageMeans | apps/python-enrichment/pipeline/catalogs.py:529-540 | Records cover the targets exactly when each target has one and none is of another target. |
| Catalogs.CatalogStore.ImportRows | apps/python-enrichment/pipeline/catalogs.py:143-217 | Records before manifest before pointer: cut short anywhere, with others at work in between, the store stays sound; if it returns, the snapshot the normalised rows determine is complete, and current if that was asked for. |
| Catalogs.VerifySound | apps/python-enrichment/pipeline/catalogs.py:220-259 | Over snapshots written by import, loading never fails: only the coverage check can. |
| ProjectionRuns.StaysExactExactly | apps/python-enrichment/storage/clickhouse.py:349-385 | However attempts overlap: a snapshot with exactly its manifest's rows keeps them in every continuation if and only if it has none, or no attempt of it will still delete or insert rows and it is READY for every manifest its builds return. |
| ProjectionRuns.ReadyStaysExactExactly | apps/python-enrichment/storage/clickhouse.py:349-385 | With one manifest per snapshot: a READY snapshot that is exact stays so if and only if no other attempt of it is under way that will still delete or insert rows. |
| ProjectionRuns.OverlapDoubles | apps/python-enrichment/storage/clickhouse.py:353-385 | For every manifest, two overlapping attempts of one snapshot that leave it READY with every row twice. |
| ProjectionRuns.OverlapKeeps | apps/python-enrichment/storage/clickhouse.py:353-479 | However attempts overlap and stop: a snapshot has only rows of its manifest, READY implies all samples of its light curves, and lineage is recorded whole or not at all and not before READY. |
| ProjectionRuns.ReadyMeansExactlyOnce | apps/python-enrichment/storage/clickhouse.py:329-479 | Serial: in every run in which attempts of one snapshot do not overlap, abandoned anywhere, a READY snapshot has exactly its manifest's rows, once each, and its cohort is the policy's labels of them or empty in the middle of a refresh. |
| ProjectionRuns.EndedAttemptIsExact | apps/python-enrichment/storage/clickhouse.py:349-404 | Serial: an attempt that ends, whether it projected or refreshed, leaves the rows and the training cohort exact. |
| ProjectionRuns.LineageIsFinal | apps/python-enrichment/storage/clickhouse.py:348-351 | Once a snapshot is READY for every manifest returned and its attempts are refreshes, no run ever changes its lineage. |
| ProjectionRuns.LineageCanBeMissed | apps/python-enrichment/storage/clickhouse.py:409-479 | For every manifest, a run stopped between READY and the lineage insert, after which no continuation records it. |
| ProjectionRuns.ForeignRunsTouchNothing | apps/python-enrichment/storage/clickhouse.py:353-385 | Attempts of other snapshots leave a snapshot's rows, cohort, lineage and READY marks as they are. |
| Projection.Warehouse.Project | apps/python-enrichment/storage/clickhouse.py:329-479 | An attempt, alone at its snapshot and stopped after any number of effects, keeps READY exact and other snapshots untouched; one that ends leaves rows, cohort and samples complete and, unless the snapshot was READY before, its lineage recorded, one row for every manifest input with a product or an object key; of a READY one only the cohort is written again. |
| Projection.ReplaceTargets | apps/python-enrichment/storage/clickhouse.py:71-99 | The sector-wise deletes and the insert replace exactly the given keys. |
| Projection.ReplacedMeans | apps/python-enrichment/storage/clickhouse.py:71-99 | Each given target key ends with its one row and every other key with the rows it had, so a retry leaves no duplicate. |
| Projection.SamplesMean | apps/python-enrichment/storage/clickhouse.py:236-279 | The samples a projection records are those of the manifest's light curves, no others. |
| GroupSplit.SplitSucceedsExactly | apps/python-ml-worker/pre_train/splits.py:184-262 | On a dataset with both classes and two groups, the single-exchange repair succeeds exactly when any train side of the same size would cover both classes on both sides. |
| GroupSplit.SixGroupsSplit | apps/python-ml-worker/pre_train/splits.py:184-223 | With six or more groups at ratio 0.8 the split succeeds exactly when each class occurs in at least two groups. |
| GroupSplit.SplitIsPartition | apps/python-ml-worker/pre_train/splits.py:225-262 | A returned split assigns each group once, conserves row and class counts, has all four class counts positive, and keeps the ranked number of train groups. |
| GroupSplit.SplitOrderIndependent | apps/python-ml-worker/pre_train/splits.py:137-262 | The result, errors included, is the same for every ordering of the rows. |
| TargetSafety.TargetsStayTogether | apps/python-ml-worker/train/loop.py:163-200 | However a split was made: no row dealt to train is of the star of one dealt to validation, or, without an all-digit tic, of its product. |
| TargetSafety.GroupedByTarget | apps/python-ml-worker/pre_train/splits.py:128-134 | Two rows are of one group if and only if they are of one target. |
| TargetSafety.GroupsAreTargets | apps/python-ml-worker/pre_train/splits.py:161-170 | The number of groups of a split is the number of targets of its supervised rows. |
| TargetSafety.EveryRowDealt | apps/python-ml-worker/train/loop.py:163-200 | A split made from the rows deals each supervised row to one side, as often as it occurs, and no other row. |
| TargetSafety.RefusalsMean | apps/python-ml-worker/pre_train/splits.py:144-170 | Which datasets are refused and with which error, in terms of labels and targets alone; all others are split or fail for class coverage. |
| TargetSafety.PartitionMeans | apps/python-ml-worker/train/loop.py:163-200 | When the training run refuses a split, and with which error. |
| TargetSafety.TrainCountMeans | apps/python-ml-worker/pre_train/splits.py:184-186 | The train side is the ratio's share of the groups rounded down, but never none and never all. |
| TargetSafety.RankedAreLeast | apps/python-ml-worker/pre_train/splits.py:172-187 | Before the repair, every group that trains ranks no later than every group that validates. |
| GroupSplit.FirstExchangeIsFirst | apps/python-ml-worker/pre_train/splits.py:205-223 | The exchange made covers, and no pair before it in key order does. |
| GroupSplit.CreateGroupSplit | apps/python-ml-worker/pre_train/splits.py:137-262 | The loops compute the split the specification names, or its error. |
| GroupSplit.RepairTrain | apps/python-ml-worker/pre_train/splits.py:205-223 | The nested search keeps the first covering exchange in key order, or the ranked side if there is none. |
| GroupSplit.PartitionRows | apps/python-ml-worker/train/loop.py:163-200 | The training run deals supervised rows to the side their group is assigned to, or reports the check that failed. |
| GroupSplit.SplitPassesTrainingChecks | apps/python-ml-worker/train/loop.py:163-200 | A split made from a dataset never trips the training run's own checks on that dataset. |
| Metrics.RocAuc | apps/python-ml-worker/train/loop.py:62-86 | The cumulative loop and the trapezoid rule give the share of (positive, negative) pairs in order; 0.5 when a class is absent. |
| Metrics.PairsCountPairs | apps/python-ml-worker/train/loop.py:74-86 | The count in that share is the number of position pairs with a positive ranked before a negative. |
| Metrics.AucBoundsAndReversal | apps/python-ml-worker/train/loop.py:74-86 | The value lies in [0, 1] and the reversed ranking scores one minus it. |
| Metrics.RankingCountsWins | apps/python-ml-worker/train/loop.py:62-69 | For every arrangement by falling score the pairs counted are at least those in which the positive scores higher, and at most those and the tied ones, whatever the order of the rows. |
| Metrics.UntiedRankingIsWins | apps/python-ml-worker/train/loop.py:62-69 | When no positive ties with a negative the pairs counted are exactly those the positive wins. |
| Metrics.ReversedAt | apps/python-ml-worker/train/loop.py:64-65 | What reversing a ranking means, position by position. |
| Metrics.TrainEpochs | apps/python-ml-worker/train/loop.py:340-403 | The best epoch is the first of least loss among those performed, and training stops at the first epoch at which patience is exhausted, not before. |
| Evidence.MasksDisjointExactly | apps/python-enrichment/pipeline/evidence.py:141-161 | No time is both in and out of transit exactly when the guard exceeds the window, the window is empty, or the guard exceeds half a period. |
| Evidence.DefaultMasksDisjoint | apps/python-enrichment/pipeline/evidence.py:141-161 | With the default factors the masks are disjoint. |
| Evidence.FitMasksSeparate | apps/python-enrichment/pipeline/evidence.py:300-307 | For every fit, with the defaults for a missing or zero duration and centre, no cadence is both in and out of transit. |
| Evidence.FiguresInRange | apps/python-enrichment/pipeline/evidence.py:252-258 | For every non-negative map above the threshold the effective pixels lie between 1 and the pixel count, the peak fraction in (0, 1], and their product is at least 1. |
| Evidence.SquareOfSum | apps/python-enrichment/pipeline/evidence.py:255-255 | Cauchy-Schwarz for the pixel map. |
| Evidence.CentroidInGrid | apps/python-enrichment/pipeline/evidence.py:345-352 | The deficit centroid lies inside the grid. |
| Evidence.BlockedMap | apps/python-enrichment/pipeline/evidence.py:237-245 | Filling an array block by block gives the results of one full pass. |
| Evidence.Variability | apps/python-enrichment/pipeline/evidence.py:237-258 | The blocked deviations and their figures, in range whenever reported. |
| Evidence.SummedFlux | apps/python-enrichment/pipeline/evidence.py:260-269 | The blocked sums per cadence, their variance and deviation, both non-negative, and the two percentiles with the median between them. |
| Evidence.MedianIsPercentile | apps/python-enrichment/pipeline/evidence.py:267-269 | The median is the fiftieth interpolated percentile. |
| Evidence.PercentilesMonotone | apps/python-enrichment/pipeline/evidence.py:268-269 | Interpolated percentiles do not fall as the percentage rises. |
| Evidence.TransitDeficit | apps/python-enrichment/pipeline/evidence.py:321-352 | The blocked median images, the positive deficit, and its figures and centroid, in range whenever reported. |
| Evidence.ComputeFeatures | apps/python-enrichment/pipeline/evidence.py:204-361 | Refuses exactly the malformed cubes; otherwise reports no paired light curve, no ephemeris, a pairing conflict, too few cadences or a measurement, each exactly when its condition holds; the masks are built from the fit and share no cadence; every figure reported, the spread of the summed flux included, is in range. |
| TransitRecovery.MasksMean | apps/python-enrichment/pipeline/evidence.py:141-161 | A cadence is in transit when some transit centre is within half a duration of it, and out of transit when every centre is a duration away or more, for every period but zero. |
| TransitRecovery.ConflictMeans | apps/python-enrichment/pipeline/evidence.py:196-201 | A fit is rejected exactly when both samples are given, differ, and are not read as one target. |
| TransitRecovery.OnePixelIsFound | apps/python-enrichment/pipeline/evidence.py:321-352 | A box-shaped transit in front of one pixel, at any level of the others: the evidence is its depth, all in one effective pixel, centred on the row and column of that pixel. |
| TransitRecovery.BoxIsRecovered | apps/python-enrichment/pipeline/evidence.py:321-335 | The deficit of a pixel is the depth of its box where it dims in transit, and nothing where it brightens. |
| TransitRecovery.MadHalves | apps/python-enrichment/pipeline/evidence.py:237-245 | The median halves the values and the deviation halves their distances from it. |
| TransitRecovery.VarianceMeans | apps/python-enrichment/pipeline/evidence.py:266-266 | The variance is the mean of the squares less the square of the mean. |
| TransitRecovery.FluxIsConserved | apps/python-enrichment/pipeline/evidence.py:260-265 | The summed flux adds up to all the light curves of the pixels together. |
| SseBroker.Delivery | apps/go-api/internal/provider/sse.go:64-117 | Over every run shorter than 2^64 steps, what a subscriber received plus its buffer is an in-order selection of the matching events published while it was subscribed, and the buffer holds at most 16. |
| SseDelivery.DeliveryExactly | apps/go-api/internal/provider/sse.go:107-113 | That selection is all of them if and only if no matching event was published while sixteen were waiting; otherwise as many are missing as were. |
| SseDelivery.SubscriberGets | apps/go-api/internal/provider/sse.go:64-147 | In terms of the calls alone: a subscriber that never had sixteen waiting at a publish receives exactly the matching events published since it subscribed, in order. |
| SseDelivery.ClosedGetsNothing | apps/go-api/internal/provider/sse.go:149-159 | Nothing published after the close reaches a subscriber. |
| SseDelivery.LogIsSent | apps/go-api/internal/provider/sse.go:82-88 | An event without an id is sent under the number of such events so far; any other keeps its own. |
| SseDelivery.MatchesMeans | apps/go-api/internal/provider/sse.go:90-105 | A topic is matched by itself, by the wildcard, and by its part before the first colon unless that is empty. |
| SseBroker.SubsequencePositions | apps/go-api/internal/provider/sse.go:107-113 | Such a selection sits at strictly increasing positions of the events due. |
| SseBroker.NoPanic | apps/go-api/internal/provider/sse.go:107-113 | No run comes to a send on a closed channel or a second close of one. |
| SseDelivery.FreshIds | apps/go-api/internal/provider/sse.go:82-88 | Of two events published without an id, at any distance in a run, the later one gets the greater number. |
| SseBroker.Broker.Publish | apps/go-api/internal/provider/sse.go:64-117 | Accepts exactly the events with a type, data and the given topic without white space around it, and performs one publish step for them. |
| SseBroker.Broker.Subscribe | apps/go-api/internal/provider/sse.go:121-147 | Accepts exactly the requests with a topic that is not blank, and performs one subscribe step for them. |
| SseBroker.RegisteredMeans | apps/go-api/internal/provider/sse.go:126-135 | The topics registered are exactly those given, without white space around them, but the empty one. |
| SseBroker.Broker.Close | apps/go-api/internal/provider/sse.go:149-159 | Performs one close step; a second close changes nothing. |
| Paging.ListObjectsCursor | apps/go-api/internal/provider/storage.go:126-171 | The page holds exactly the stored objects after the cursor that pass the filter, up to its last one, at most as many as asked for or 100 by default, with the cursor of the last one exactly when more remain. |
| Paging.ProcessableMeans | apps/go-api/internal/provider/storage.go:190-194 | A key is processable exactly when, white space after it and case aside, it ends in .fits, .fit, .fits.gz or .fit.gz. |
| Paging.PagingIsTheListing | apps/go-api/internal/provider/storage.go:126-171 | Over an unchanged store, for any limits, paging from the empty cursor ends and the pages together are the filtered listing, each processable key once and in order. |
| Paging.WalkInOrder | apps/go-api/internal/provider/storage.go:137-168 | However the store changes between pages, no key is shown twice and keys come in order. |
| Paging.WalkFindsStable | apps/go-api/internal/provider/storage.go:137-168 | An eligible object present at every call is shown by a walk that ends. |
| Paging.EnoughCallsEnd | apps/go-api/internal/provider/storage.go:156-167 | More calls than eligible objects always end the walk. |
| Habitability.TemperatureLaw | apps/go-api/internal/physics/habitability.go:112-129 | Equilibrium temperature and flux obey T^4 = K S with one constant K, for every star and orbit. |
| Habitability.ZoneBoundsTemperature | apps/go-api/internal/physics/habitability.go:283-291 | A flux inside the optimistic zone forces the temperature between 150 and 380 kelvin. |
| Habitability.Derive | apps/go-api/internal/physics/habitability.go:61-133 | Which quantities are derived from which inputs, their values, and the completeness. |
| Habitability.Score | apps/go-api/internal/physics/habitability.go:163-270 | Evaluated exactly when all five inputs are present; then completeness is 1, clamp and rounding never bind, the score lies in [20, 100], a zone planet scores at least 8 for temperature, a conservative-zone planet is at least promising, and high priority implies a zone planet. Each component lies in its bands and within its maximum, a missing one scores nothing, and the tier follows 75, 50 and 25. What is derived obeys Kepler's third law, the area ratio of the discs, the inverse-square law and T^4 = K S; the score is 100 exactly for the ideal observation, said of flux, depth, radius and star temperature. |
| Habitability.RockyMeans | apps/go-api/internal/physics/habitability.go:180-197 | The size screen read off the depth and the star's radius: the limits of 1.6 and 2.5 Earth radii as areas. |
| Habitability.ThermalMeans | apps/go-api/internal/physics/habitability.go:200-217 | The temperature screen is a screen of the flux, its limits carried over by the law. |
| Habitability.CompleteTotals | apps/go-api/internal/physics/habitability.go:250-256 | With complete inputs the clamped and rounded score is the plain sum of the components. |

## Left out

- NATS, MinIO, ClickHouse and HTTP clients, SQL text, Parquet encoding, process pools: only their map, table and queue behaviour is kept.
- Light-curve features, BLS search, the torch model, optimiser and export: arbitrary values.
- Catalog record normalisers and matchers (apps/python-enrichment/pipeline/catalog_records.py): a parameter of `Catalogs`; near ties of `match_tce_candidate` depend on row order, and re-normalising a stored record drops a stored 0.0.
- PR-AUC, precision, recall and F1: single expressions beside the ROC curve.
- Registration of ingestion contracts from checkpoints (apps/python-enrichment/runtime/readiness.py:93-138): the contracts are an arbitrary map.
- Live telemetry, metrics, runtime status and run history: observational.
- Fairness and timing of retries: what is stated is that a batch stays in hand, when a retry is possible, and when retrying stops for good.
- The retrieval time in a catalog manifest, and so the checksum of a manifest in the current pointer: two overlapping operator imports of the same content are taken to write the same manifest.
- The stripping of blanks around stored object keys in the manifest scan: keys are compared as they are.
- Projection.Warehouse.Project: states one attempt with nobody else at its snapshot, because overlapping attempts are the subject of `ProjectionRuns`; the targets it replaces are in `ReplaceTargets`.
- Manifests of one snapshot differ in their creation time only: builds of one identity are taken to extract the same rows.
- SseBroker.Delivery: bounded to fewer than 2^64 steps, because the broker's 64-bit counters wrap.
- The parsing of sample texts in the pairing check is a parameter of `Evidence`; the fraction of finite pixels is 1 for the finite inputs modelled, and of the standard deviation the square is reported.
- IEEE rounding, NaN and infinities: reals and finite inputs.
