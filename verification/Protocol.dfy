/**
 The Silver-to-Gold enrichment worker as a transition system: startup recovery, intake,
 lineage recovery while paused, dispatch, build, commit, clearing, retry, and a crash
 between any two steps (apps/python-enrichment/runtime/worker.py,
 apps/python-enrichment/runtime/pool.py, apps/python-enrichment/storage/checkpoints.py).
 A step is one effect on the object store, the message queue or the process memory.
 */
module Protocol {
  import opened Wrappers
  import opened Sequences
  import opened Events
  import opened SnapshotIdentity
  import opened Materializer
  import opened GoldBuild
  import opened Readiness
  import opened Scheduler
  import opened Checkpoints

  /** Where the main task is. */
  datatype Main =
    | Down
    | Reloaded
    | Pruning(extracted: set<Id>, todo: seq<Item>, kept: seq<Item>)
    // Lineage recovery, at startup (carrying the kept checkpoints) or while paused.
    | Scanning(boot: bool, carried: seq<Item>, known: set<Id>, keys: seq<Id>)
    | Recovering(boot: bool, carried: seq<Item>, known: set<Id>, extracted: set<Id>, keys: seq<Id>,
                 recovered: seq<Item>)
    // Separating light curves from contexts; `persisted` once the context of the first item is stored.
    | Filing(boot: bool, items: seq<Item>, lcs: seq<Item>, persisted: bool)
    | Running
    | Received(event: SilverEvent)
    | Acking(event: SilverEvent, isNew: bool)
    | Appending(event: SilverEvent, isNew: bool)
    | Dispatching(batches: seq<Batch>)
    | Enqueueing(batch: Batch, batches: seq<Batch>)

  /** Where a worker is with the batch it claimed. */
  datatype Slot =
    | Vacant
    | Working(batch: Batch)
    | Building(batch: Batch, key: DocKey, doc: Doc)
    | Putting(batch: Batch, key: DocKey, doc: Doc)      // found no manifest under the key
    | Published(batch: Batch, key: DocKey, doc: Doc)    // put the manifest, or found the same bytes
    | Projected(batch: Batch)                                 // the snapshot is READY
    | Clearing(batch: Batch, next: nat)                       // announced; deleting checkpoints
    | Retrying(batch: Batch)

  datatype State = State(
    store: Store,
    main: Main,
    pending: seq<Item>,
    contexts: seq<Item>,
    observed: set<Id>,
    queue: seq<Batch>,
    capacity: nat,
    slots: seq<Slot>,
    clock: int,
    // The snapshots the projector has marked READY.
    ready: set<DocKey>,
    // History: the artifacts whose message was acknowledged or whose checkpoint was written.
    entrusted: set<Artifact>)

  /** Upstream and other writers. */
  datatype WorldStep =
    | LineageAppears(key: Id, record: Option<SilverEvent>)
    | ForeignManifest(at: DocKey, doc: Doc)
    | Tick

  /** Startup, and the lineage recovery that is repeated while paused. */
  datatype RecoveryStep =
    | Reload(listing: seq<Item>)
    | ListPending(listing: seq<Item>)
    | Prune
    | ListLineage(keys: seq<Id>)
    | ScanManifests
    | Recover
    | BeginFiling
    | File
    | DropCheckpoint
    | EndFiling

  /** The main loop: intake of one message, and dispatch. */
  datatype LoopStep =
    | Receive(event: SilverEvent)
    | Save
    | Ack
    | Append
    | Nak
    | Dispatch(knowledge: Knowledge, size: nat, batches: seq<Batch>)
    | ConsumeNext
    | Enqueue

  datatype WorkStep =
    | Claim
    | PlanBuild(catalogs: Catalogs)
    | FindAbsent
    | FindSame
    | PutManifest
    | Project
    | Announce
    | Clear
    | Finish
    | Fail
    | Requeue

  datatype Step =
    | Crash
    | World(world: WorldStep)
    | Recovery(recovery: RecoveryStep)
    | Loop(loop: LoopStep)
    | Work(slot: nat, work: WorkStep)

  predicate HasRevision(items: seq<Item>, r: Revision)
  {
    exists i :: 0 <= i < |items| && RevisionOf(items[i].event) == r
  }

  /** What the builder requires of a batch before it writes a manifest. */
  ghost predicate Publishable(events: seq<SilverEvent>)
  {
    var lcs, tpfs := LightCurves(Selected(events)), TargetPixels(Selected(events));
    NoConflict(events) && lcs != [] && PerfectMatching(lcs, tpfs) && Consistent(Refs(events))
  }

  /** Where the manifest of a batch goes, and what it says. */
  function KeyFor(home: Id, events: seq<SilverEvent>, catalogs: Catalogs): DocKey
  {
    DocKey(SnapshotBucket(home, Selected(events)), IdentityOf(SettingsOf(Selected(events), catalogs), Refs(events)))
  }

  function DocFor(events: seq<SilverEvent>, createdAt: int): Doc
  {
    Doc(true, true, SortInputs(Refs(events)), createdAt)
  }

  /** A stored manifest as the scan reads it. */
  function DocOf(m: GoldBuild.Manifest): Doc { Doc(m.committed, m.researchReady, m.inputs, m.createdAt) }

  /** A manifest the builder commits is, field by field and in its place, the one a `PutManifest` step stores. */
  lemma BuildIsCommit(x: Extractors, events: seq<SilverEvent>, catalogs: Catalogs, home: Id, objects: Objects,
                      createdAt: int, m: GoldBuild.Manifest)
    requires Built(x, events, catalogs, home, objects, createdAt, m)
    ensures Publishable(events)
    ensures var key := KeyFor(home, events, catalogs);
      && key.identity == m.identity && DocOf(m) == DocFor(events, createdAt)
      && Stored(objects, Location(key.bucket, ManifestKey(key.identity)), ManifestBytes(m))
  {
    var d :| Describes(x, events, catalogs, home, createdAt, d, m) && Committed(objects, d, createdAt, m);
  }

  /** Every stored context, as an item. */
  function StoredContexts(s: Store): set<Item> { set k | k in s.contexts :: Item(k, s.contexts[k]) }

  // ---- Enabled steps ----------------------------------------------------

  predicate WorldEnabled(ok: SilverEvent -> bool, s: State, step: WorldStep)
  {
    match step
    case LineageAppears(key, record) => key !in s.store.lineage && (record.Some? ==> ok(record.value))
    // Other writers put manifests of their own, under keys of their own.
    case ForeignManifest(key, doc) => key !in s.store.docs && !CountsAsExtracted(s.store.home, key, doc)
    case Tick => true
  }

  predicate RecoveryEnabled(s: State, step: RecoveryStep)
  {
    match step
    case Reload(listing) => s.main.Down? && Distinct(listing) && Members(listing) == StoredContexts(s.store)
    case ListPending(listing) => s.main.Reloaded? && Lists(s.store, listing) && AllPendingKeys(listing)
    case Prune => s.main.Pruning? && s.main.todo != [] && s.main.todo[0].key.PendingKey?
    case ListLineage(keys) =>
      (s.main.Running? || (s.main.Pruning? && s.main.todo == [])) && Unobserved(s.store, s.observed, keys)
    case ScanManifests => s.main.Scanning?
    case Recover => s.main.Recovering? && s.main.keys != []
    case BeginFiling => s.main.Recovering? && s.main.keys == []
    case File => s.main.Filing? && s.main.items != [] && !s.main.persisted
    case DropCheckpoint => s.main.Filing? && s.main.items != [] && s.main.persisted
    case EndFiling => s.main.Filing? && s.main.items == []
  }

  predicate LoopEnabled(ok: SilverEvent -> bool, s: State, step: LoopStep)
  {
    match step
    case Receive(event) => s.main.Running? && ok(event)
    case Save => s.main.Received?
    case Ack => s.main.Acking?
    case Append => s.main.Appending?
    case Nak => s.main.Received? || s.main.Acking? || s.main.Appending?
    case Dispatch(k, size, batches) =>
      && s.main.Running? && k.contexts == s.contexts && size >= 1
      && forall b :: b in batches ==> b in Batches(k, s.pending, size)
    case ConsumeNext => s.main.Dispatching? && s.main.batches != []
    case Enqueue => s.main.Enqueueing? && |s.queue| < s.capacity
  }

  ghost predicate WorkEnabled(s: State, w: nat, step: WorkStep)
  {
    && w < |s.slots|
    && var x := s.slots[w];
       match step
       case Claim => x.Vacant? && s.queue != []
       case PlanBuild(_) => x.Working? && Publishable(EventsOf(x.batch))
       case FindAbsent => x.Building? && x.key !in s.store.docs
       case FindSame => x.Building? && HoldsDoc(s.store, x.key, x.doc)
       case PutManifest => x.Putting?
       // The projector compares the stored bytes with the ones the build returned.
       case Project => x.Published? && HoldsDoc(s.store, x.key, x.doc)
       case Announce => x.Projected?
       case Clear => x.Clearing? && x.next < |x.batch|
       case Finish => x.Clearing? && x.next >= |x.batch|
       case Fail => !x.Vacant? && !x.Retrying?
       case Requeue => x.Retrying? && |s.queue| < s.capacity
  }

  /** This manifest, byte for byte, is stored under the key. */
  predicate HoldsDoc(s: Store, key: DocKey, doc: Doc) { key in s.docs && s.docs[key] == doc }

  ghost predicate Enabled(ok: SilverEvent -> bool, s: State, step: Step)
  {
    match step
    case Crash => true
    case World(step) => WorldEnabled(ok, s, step)
    case Recovery(step) => RecoveryEnabled(s, step)
    case Loop(step) => LoopEnabled(ok, s, step)
    case Work(w, step) => WorkEnabled(s, w, step)
  }

  // ---- Their effects ----------------------------------------------------

  function Crashed(s: State): State
  {
    s.(main := Down, pending := [], contexts := [], observed := {}, queue := [], slots := seq(|s.slots|, _ => Vacant))
  }

  function StoreDoc(s: Store, key: DocKey, doc: Doc): Store { s.(docs := s.docs[key := doc]) }

  function ApplyWorld(s: State, step: WorldStep): State
  {
    match step
    case LineageAppears(key, record) => s.(store := s.store.(lineage := s.store.lineage[key := record]))
    case ForeignManifest(key, doc) => s.(store := StoreDoc(s.store, key, doc))
    case Tick => s.(clock := s.clock + 1)
  }

  /** Store a context and remember it. */
  function PersistContext(s: State, e: SilverEvent): State
  {
    s.(store := SaveContext(s.store, e), contexts := PutContext(s.contexts, ContextItem(e)),
       entrusted := s.entrusted + {ArtifactOf(e)})
  }

  /** Store a pending checkpoint. */
  function PersistPending(s: State, e: SilverEvent): State
  {
    s.(store := SavePending(s.store, e), entrusted := s.entrusted + {ArtifactOf(e)})
  }

  /** The main state once the first item of `items` has been dealt with. */
  function Advance(m: Main, queued: bool): Main
    requires m.Filing? && m.items != []
  {
    Filing(m.boot, m.items[1..], if queued then m.lcs + [m.items[0]] else m.lcs, false)
  }

  /** The next lineage record, if it is to be queued. */
  function NextRecovered(s: State): Option<SilverEvent>
    requires s.main.Recovering? && s.main.keys != []
  {
    var record := RecordAt(s.store)(s.main.keys[0]);
    if record.Some? && record.value.objectKey !in s.main.known && record.value.objectKey !in s.main.extracted
    then record else None
  }

  function ApplyRecovery(s: State, step: RecoveryStep): State
    requires RecoveryEnabled(s, step)
  {
    match step
    case Reload(listing) => s.(contexts := listing, main := Reloaded)
    case ListPending(listing) => s.(main := Pruning(ExtractedKeys(s.store), listing, []))
    case Prune =>
      var i := s.main.todo[0];
      var done := i.event.objectKey in s.main.extracted;
      s.(store := PruneOne(s.store, s.main.extracted, i),
         main := Pruning(s.main.extracted, s.main.todo[1..], if done then s.main.kept else s.main.kept + [i]))
    case ListLineage(keys) =>
      var carried := if s.main.Pruning? then s.main.kept else [];
      s.(main := Scanning(s.main.Pruning?, carried, ObjectKeys(HomeItems(s.store)), keys))
    case ScanManifests =>
      s.(main := Recovering(s.main.boot, s.main.carried, s.main.known, ExtractedKeys(s.store), s.main.keys, []))
    case Recover =>
      var m, found, key := s.main, NextRecovered(s), s.main.keys[0];
      if found.None? then s.(main := m.(keys := m.keys[1..]), observed := s.observed + {key})
      else
        var e := found.value;
        PersistPending(s, e).(observed := s.observed + {key},
          main := m.(keys := m.keys[1..], known := m.known + {e.objectKey},
                     recovered := m.recovered + [PendingItem(e)]))
    case BeginFiling => s.(main := Filing(s.main.boot, s.main.carried + s.main.recovered, [], false))
    case File =>
      var i := s.main.items[0];
      if i.event.kind == TargetPixel then PersistContext(s, i.event).(main := s.main.(persisted := true))
      // At startup every light curve is queued; later only revisions not already pending.
      else s.(main := Advance(s.main, s.main.boot || !HasRevision(s.pending + s.main.lcs, RevisionOf(i.event))))
    case DropCheckpoint =>
      var i := s.main.items[0];
      s.(store := if i.key.PendingKey? then DeletePending(s.store, Place(s.store.home, i.key.eventId)) else s.store,
         main := Advance(s.main, false))
    case EndFiling => s.(pending := s.pending + s.main.lcs, main := Running)
  }

  function AfterBatch(batches: seq<Batch>): Main { if batches == [] then Running else Dispatching(batches) }

  function ApplyLoop(ok: SilverEvent -> bool, s: State, step: LoopStep): State
    requires LoopEnabled(ok, s, step)
  {
    match step
    case Receive(event) => s.(main := Received(event))
    case Save =>
      var e := s.main.event;
      if e.kind == TargetPixel then PersistContext(s, e).(main := Acking(e, false))
      else if HasRevision(s.pending, RevisionOf(e)) then s.(main := Acking(e, false))
      else PersistPending(s, e).(main := Acking(e, true))
    case Ack => s.(entrusted := s.entrusted + {ArtifactOf(s.main.event)}, main := Appending(s.main.event, s.main.isNew))
    case Append => s.(pending := if s.main.isNew then s.pending + [PendingItem(s.main.event)] else s.pending,
                      main := Running)
    case Nak => s.(main := Running)
    case Dispatch(_, _, batches) => s.(main := AfterBatch(batches))
    case ConsumeNext =>
      s.(pending := Consume(s.pending, s.main.batches[0]), main := Enqueueing(s.main.batches[0], s.main.batches[1..]))
    case Enqueue => s.(queue := s.queue + [s.main.batch], main := AfterBatch(s.main.batches))
  }

  function WithSlot(s: State, w: nat, x: Slot): State
    requires w < |s.slots|
  {
    s.(slots := s.slots[w := x])
  }

  function ApplyWork(s: State, w: nat, step: WorkStep): State
    requires WorkEnabled(s, w, step)
  {
    var x := s.slots[w];
    match step
    case Claim => WithSlot(s, w, Working(s.queue[0])).(queue := s.queue[1..])
    case PlanBuild(catalogs) =>
      var events := EventsOf(x.batch);
      WithSlot(s, w, Building(x.batch, KeyFor(s.store.home, events, catalogs), DocFor(events, s.clock)))
    case FindAbsent => WithSlot(s, w, Putting(x.batch, x.key, x.doc))
    case FindSame => WithSlot(s, w, Published(x.batch, x.key, x.doc))
    case PutManifest => WithSlot(s, w, Published(x.batch, x.key, x.doc)).(store := StoreDoc(s.store, x.key, x.doc))
    case Project => WithSlot(s, w, Projected(x.batch)).(ready := s.ready + {x.key})
    case Announce => WithSlot(s, w, Clearing(x.batch, 0))
    case Clear => WithSlot(s, w, Clearing(x.batch, x.next + 1)).(store := ClearOne(s.store, x.batch[x.next]))
    case Finish => WithSlot(s, w, Vacant)
    case Fail => WithSlot(s, w, Retrying(x.batch))
    case Requeue => WithSlot(s, w, Vacant).(queue := s.queue + [x.batch])
  }

  function Apply(ok: SilverEvent -> bool, s: State, step: Step): State
    requires Enabled(ok, s, step)
  {
    match step
    case Crash => Crashed(s)
    case World(step) => ApplyWorld(s, step)
    case Recovery(step) => ApplyRecovery(s, step)
    case Loop(step) => ApplyLoop(ok, s, step)
    case Work(w, step) => ApplyWork(s, w, step)
  }

  ghost predicate Runnable(ok: SilverEvent -> bool, s: State, steps: seq<Step>)
    decreases |steps|
  {
    steps == [] || (Enabled(ok, s, steps[0]) && Runnable(ok, Apply(ok, s, steps[0]), steps[1..]))
  }

  ghost function Exec(ok: SilverEvent -> bool, s: State, steps: seq<Step>): State
    requires Runnable(ok, s, steps)
    decreases |steps|
  {
    if steps == [] then s else Exec(ok, Apply(ok, s, steps[0]), steps[1..])
  }

  /** A first deployment: an empty store and a process that is not running yet. */
  predicate Init(s: State)
  {
    && s.store == Store(s.store.home, map[], map[], map[], map[])
    && s.main == Down && s.pending == [] && s.contexts == [] && s.observed == {} && s.queue == [] && s.ready == {}
    && s.entrusted == {}
    && forall w :: 0 <= w < |s.slots| ==> s.slots[w] == Vacant
  }

  /** A `Recover` step is one turn of the recovery loop. */
  lemma RecoverIsLoopBody(s: State)
    requires RecoveryEnabled(s, Recover)
    ensures var t := ApplyRecovery(s, Recover);
      Progress(t.store, t.main.known, t.main.recovered)
        == RecoverOne(Progress(s.store, s.main.known, s.main.recovered), s.main.extracted,
                      RecordAt(s.store)(s.main.keys[0]))
  {}

  /** A `PersistContext` effect is what the readiness object does to the stored contexts and to its memory. */
  lemma PersistIsReadiness(s: State, e: SilverEvent)
    ensures var t := PersistContext(s, e);
      Contexts(t.store.contexts, t.contexts) == Persisted(Contexts(s.store.contexts, s.contexts), e)
  {}

  lemma {:induction false} ExecConcat(ok: SilverEvent -> bool, s: State, a: seq<Step>, b: seq<Step>)
    requires Runnable(ok, s, a + b)
    ensures Runnable(ok, s, a) && Runnable(ok, Exec(ok, s, a), b) && Exec(ok, s, a + b) == Exec(ok, Exec(ok, s, a), b)
    decreases |a|
  {
    if a == [] {
      assert a + b == b;
    } else {
      assert (a + b)[1..] == a[1..] + b && (a + b)[0] == a[0];
      ExecConcat(ok, Apply(ok, s, a[0]), a[1..], b);
    }
  }

  lemma {:induction false} RunConcat(ok: SilverEvent -> bool, s: State, a: seq<Step>, b: seq<Step>)
    requires Runnable(ok, s, a) && Runnable(ok, Exec(ok, s, a), b)
    ensures Runnable(ok, s, a + b) && Exec(ok, s, a + b) == Exec(ok, Exec(ok, s, a), b)
    decreases |a|
  {
    if a == [] {
      assert a + b == b;
    } else {
      assert (a + b)[1..] == a[1..] + b && (a + b)[0] == a[0];
      RunConcat(ok, Apply(ok, s, a[0]), a[1..], b);
    }
  }
}
