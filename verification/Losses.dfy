/**
 The three things the durability results take for granted of events are needed: for each, a run
 of the worker that loses an acknowledged light curve when it fails.
 */
module Losses {
  import opened Wrappers
  import opened Sequences
  import opened Events
  import opened SnapshotIdentity
  import opened Materializer
  import opened GoldBuild
  import opened Readiness
  import opened Scheduler
  import opened Checkpoints
  import opened Protocol
  import opened Durability

  ghost predicate Reaches(ok: SilverEvent -> bool, s: State, t: State)
  {
    exists steps :: Runnable(ok, s, steps) && Exec(ok, s, steps) == t
  }

  lemma ReachStart(ok: SilverEvent -> bool, s: State)
    ensures Reaches(ok, s, s)
  {
    assert Runnable(ok, s, []) && Exec(ok, s, []) == s;
  }

  lemma ReachStep(ok: SilverEvent -> bool, s: State, t: State, step: Step)
    requires Reaches(ok, s, t) && Enabled(ok, t, step)
    ensures Reaches(ok, s, Apply(ok, t, step))
  {
    var steps :| Runnable(ok, s, steps) && Exec(ok, s, steps) == t;
    var u := Apply(ok, t, step);
    assert [step][1..] == [];
    assert Runnable(ok, u, []) && Exec(ok, u, []) == u;
    assert Runnable(ok, t, [step]) && Exec(ok, t, [step]) == u;
    RunConcat(ok, s, steps, [step]);
  }

  /** A first deployment with one worker. */
  function Fresh(home: Id): State
  {
    State(Store(home, map[], map[], map[], map[]), Down, [], [], {}, [], 2, [Vacant], 0, {}, {})
  }

  /** It, with the main loop running. */
  function Up(home: Id): State { Fresh(home).(main := Running) }

  lemma BootListed(ok: SilverEvent -> bool, s: State)
    requires Init(s)
    ensures Reaches(ok, s, s.(main := Pruning({}, [], [])))
  {
    ReachStart(ok, s);
    ReachStep(ok, s, s, Recovery(Reload([])));
    ReachStep(ok, s, s.(main := Reloaded), Recovery(ListPending([])));
    assert ExtractedKeys(s.store) == {};
  }

  lemma BootScanned(ok: SilverEvent -> bool, s: State)
    requires Init(s)
    ensures Reaches(ok, s, s.(main := Recovering(true, [], {}, {}, [], [])))
  {
    BootListed(ok, s);
    ReachStep(ok, s, s.(main := Pruning({}, [], [])), Recovery(ListLineage([])));
    assert ObjectKeys(HomeItems(s.store)) == {} && ExtractedKeys(s.store) == {};
    ReachStep(ok, s, s.(main := Scanning(true, [], {}, [])), Recovery(ScanManifests));
  }

  /** Every first deployment starts up. */
  lemma BootEnds(ok: SilverEvent -> bool, s: State)
    requires Init(s)
    ensures Reaches(ok, s, s.(main := Running))
  {
    BootScanned(ok, s);
    ReachStep(ok, s, s.(main := Recovering(true, [], {}, {}, [], [])), Recovery(BeginFiling));
    ReachStep(ok, s, s.(main := Filing(true, [], [], false)), Recovery(EndFiling));
  }

  lemma BootReaches(ok: SilverEvent -> bool, home: Id)
    ensures Init(Fresh(home)) && Reaches(ok, Fresh(home), Up(home))
  {
    BootEnds(ok, Fresh(home));
  }

  /** The state after a light curve was received, saved, acknowledged and queued. */
  function TookLightCurve(s: State, e: SilverEvent): State
  {
    PersistPending(s, e).(pending := s.pending + [PendingItem(e)], main := Running)
  }

  function TookTargetPixel(s: State, e: SilverEvent): State { PersistContext(s, e).(main := Running) }

  lemma IntakeReaches(ok: SilverEvent -> bool, s: State, t: State, e: SilverEvent)
    requires Reaches(ok, s, t) && t.main.Running? && ok(e) && e.kind == LightCurve
      && !HasRevision(t.pending, RevisionOf(e))
    ensures Reaches(ok, s, TookLightCurve(t, e))
  {
    ReachStep(ok, s, t, Loop(Receive(e)));
    var t1 := t.(main := Received(e));
    ReachStep(ok, s, t1, Loop(Save));
    var t2 := PersistPending(t, e).(main := Acking(e, true));
    ReachStep(ok, s, t2, Loop(Ack));
    var t3 := PersistPending(t, e).(main := Appending(e, true));
    assert t2.entrusted + {ArtifactOf(e)} == t2.entrusted;
    ReachStep(ok, s, t3, Loop(Append));
  }

  lemma ContextReaches(ok: SilverEvent -> bool, s: State, t: State, e: SilverEvent)
    requires Reaches(ok, s, t) && t.main.Running? && ok(e) && e.kind == TargetPixel
    ensures Reaches(ok, s, TookTargetPixel(t, e))
  {
    ReachStep(ok, s, t, Loop(Receive(e)));
    var t1 := t.(main := Received(e));
    ReachStep(ok, s, t1, Loop(Save));
    var t2 := PersistContext(t, e).(main := Acking(e, false));
    ReachStep(ok, s, t2, Loop(Ack));
    var t3 := PersistContext(t, e).(main := Appending(e, false));
    assert t2.entrusted + {ArtifactOf(e)} == t2.entrusted;
    ReachStep(ok, s, t3, Loop(Append));
  }

  /** Some run ends with an acknowledged artifact that is nowhere. */
  ghost predicate Lost(ok: SilverEvent -> bool, home: Id, t: State, a: Artifact)
  {
    Reaches(ok, Fresh(home), t) && a in t.entrusted && !Kept(t.store, a)
  }

  /** Two light curves under one event id: taking in the second overwrites the checkpoint of the first. */
  lemma ReusedEventIdLoses(ok: SilverEvent -> bool, home: Id, a: SilverEvent, b: SilverEvent) returns (t: State)
    requires ok(a) && ok(b) && a.kind == LightCurve && b.kind == LightCurve
    requires BucketOf(home, a) == home && BucketOf(home, b) == home
    requires a.eventId == b.eventId && ArtifactOf(a) != ArtifactOf(b)
    ensures Lost(ok, home, t, ArtifactOf(a))
  {
    BootReaches(ok, home);
    var s := Up(home);
    IntakeReaches(ok, Fresh(home), s, a);
    var s1 := TookLightCurve(s, a);
    assert s1.pending == [PendingItem(a)];
    IntakeReaches(ok, Fresh(home), s1, b);
    t := TookLightCurve(s1, b);
    assert t.store.pending == map[Place(home, b.eventId) := b];
  }

  /** A light curve from another bucket: its checkpoint is written where no listing looks. */
  lemma ForeignBucketLoses(ok: SilverEvent -> bool, home: Id, e: SilverEvent) returns (t: State)
    requires ok(e) && e.kind == LightCurve && BucketOf(home, e) != home
    ensures Lost(ok, home, t, ArtifactOf(e))
  {
    BootReaches(ok, home);
    IntakeReaches(ok, Fresh(home), Up(home), e);
    t := TookLightCurve(Up(home), e);
    assert t.store.pending == map[PlaceOf(home, e) := e];
  }

  // ---- A reused object key ----------------------------------------------

  /** The light curve `a` and its target pixel `t` taken in, and their batch claimed by the worker. */
  function Claimed(home: Id, a: SilverEvent, t: SilverEvent): State
  {
    TookLightCurve(TookTargetPixel(Up(home), t), a).(pending := [],
                                                     slots := [Working([PendingItem(a), ContextItem(t)])])
  }

  lemma ClaimReaches(ok: SilverEvent -> bool, home: Id, k: Knowledge, a: SilverEvent, t: SilverEvent)
    requires ok(a) && ok(t) && a.kind == LightCurve && t.kind == TargetPixel && a.eventId != t.eventId
    requires k.contexts == [ContextItem(t)] && TpfFor(k, PendingItem(a)) == Some(ContextItem(t))
    ensures Reaches(ok, Fresh(home), Claimed(home, a, t))
  {
    var s, batch := Fresh(home), [PendingItem(a), ContextItem(t)];
    BootReaches(ok, home);
    ContextReaches(ok, s, Up(home), t);
    var s1 := TookTargetPixel(Up(home), t);
    IntakeReaches(ok, s, s1, a);
    var s2 := TookLightCurve(s1, a);
    assert s2.pending == [PendingItem(a)] && s2.contexts == [ContextItem(t)];
    PairBatch(k, PendingItem(a), ContextItem(t));
    ReachStep(ok, s, s2, Loop(Dispatch(k, 1, [batch])));
    DispatchReaches(ok, s, s2, batch);
  }

  lemma DispatchReaches(ok: SilverEvent -> bool, s: State, t: State, batch: Batch)
    requires Reaches(ok, s, t.(main := Dispatching([batch]))) && t.queue == [] && t.capacity == 2 && t.slots == [Vacant]
    requires |t.pending| == 1 && IsQueueEntry(t.pending[0]) && t.pending[0] in batch
    ensures Reaches(ok, s, t.(main := Running, pending := [], slots := [Working(batch)]))
  {
    var t0 := t.(main := Dispatching([batch]));
    assert IdOf(t.pending[0]) in ConsumedIds(batch) && t.pending == [t.pending[0]];
    assert [t.pending[0]][..0] == [] && Consume(t.pending, batch) == [];
    ReachStep(ok, s, t0, Loop(ConsumeNext));
    assert [batch][1..] == [];
    var t1 := t.(pending := [], main := Enqueueing(batch, []));
    ReachStep(ok, s, t1, Loop(Enqueue));
    var t2 := t.(pending := [], main := Running, queue := [batch]);
    ReachStep(ok, s, t2, Work(0, Claim));
    assert [Vacant][0 := Working(batch)] == [Working(batch)];
  }

  /** The worker plans the snapshot of its batch, finds no manifest and puts its own. */
  function Committed(t: State, batch: Batch, catalogs: Catalogs): State
  {
    var key, doc := KeyFor(t.store.home, EventsOf(batch), catalogs), DocFor(EventsOf(batch), t.clock);
    t.(slots := [Published(batch, key, doc)], store := t.store.(docs := map[key := doc]))
  }

  lemma CommitReaches(ok: SilverEvent -> bool, s: State, t: State, batch: Batch, catalogs: Catalogs)
    requires Reaches(ok, s, t) && t.slots == [Working(batch)] && t.store.docs == map[] && Publishable(EventsOf(batch))
    ensures Reaches(ok, s, Committed(t, batch, catalogs))
  {
    var key, doc := KeyFor(t.store.home, EventsOf(batch), catalogs), DocFor(EventsOf(batch), t.clock);
    ReachStep(ok, s, t, Work(0, PlanBuild(catalogs)));
    assert [Working(batch)][0 := Building(batch, key, doc)] == [Building(batch, key, doc)];
    PutReaches(ok, s, t, batch, key, doc);
  }

  lemma PutReaches(ok: SilverEvent -> bool, s: State, t: State, batch: Batch, key: DocKey, doc: Doc)
    requires Reaches(ok, s, t.(slots := [Building(batch, key, doc)])) && t.store.docs == map[]
    ensures Reaches(ok, s, t.(slots := [Published(batch, key, doc)], store := t.store.(docs := map[key := doc])))
  {
    ReachStep(ok, s, t.(slots := [Building(batch, key, doc)]), Work(0, FindAbsent));
    assert [Building(batch, key, doc)][0 := Putting(batch, key, doc)] == [Putting(batch, key, doc)];
    ReachStep(ok, s, t.(slots := [Putting(batch, key, doc)]), Work(0, PutManifest));
    assert [Putting(batch, key, doc)][0 := Published(batch, key, doc)] == [Published(batch, key, doc)];
    assert t.store.docs[key := doc] == map[key := doc];
  }

  /** The store holds one snapshot, of `events`, in the home bucket. */
  ghost predicate OneSnapshot(s: Store, events: seq<SilverEvent>, catalogs: Catalogs, createdAt: int)
  {
    && s.docs == map[KeyFor(s.home, events, catalogs) := DocFor(events, createdAt)] && NoConflict(events)
    && forall e :: e in events ==> BucketOf(s.home, e) == s.home
  }

  lemma SnapshotInputs(s: Store, events: seq<SilverEvent>, catalogs: Catalogs, createdAt: int)
    requires OneSnapshot(s, events, catalogs, createdAt)
    ensures ReadyInputs(s.home, s.docs) == Members(SortInputs(Refs(events)))
  {
    if Selected(events) != [] {
      SelectedMembers(events, Selected(events)[0]);
      UniqueAmong(events, Selected(events)[0]);
    }
    ReadyInputsAdded(s.home, map[], KeyFor(s.home, events, catalogs), DocFor(events, createdAt));
    assert map[][KeyFor(s.home, events, catalogs) := DocFor(events, createdAt)] == s.docs;
  }

  lemma SnapshotHasKey(s: Store, events: seq<SilverEvent>, catalogs: Catalogs, createdAt: int, a: SilverEvent)
    requires OneSnapshot(s, events, catalogs, createdAt) && a in events && a.objectKey != EMPTY
    requires forall e :: e in events && ArtifactOf(e) == ArtifactOf(a) ==> e == a
    ensures a.objectKey in ExtractedKeys(s)
  {
    SnapshotInputs(s, events, catalogs, createdAt);
    var i := BatchCovered(events, a);
    var e := InputFromBatch(events, i);
    CoversOwn(e, ArtifactOf(a));
  }

  lemma SnapshotCoversOnly(s: Store, events: seq<SilverEvent>, catalogs: Catalogs, createdAt: int, x: Artifact)
    requires OneSnapshot(s, events, catalogs, createdAt) && forall e :: e in events ==> ArtifactOf(e) != x
    ensures !Extracted(s, x)
  {
    SnapshotInputs(s, events, catalogs, createdAt);
    forall i | i in SortInputs(Refs(events)) ensures !Covers(i, x) {
      var e := InputFromBatch(events, i);
      CoversOwn(e, x);
    }
  }

  /** A crash, then startup up to the first pruned checkpoint, which is the one of `b`. */
  lemma PruneReaches(ok: SilverEvent -> bool, s: State, t: State, a: SilverEvent, b: SilverEvent) returns (u: State)
    requires Reaches(ok, s, t) && t.store.home == BucketOf(t.store.home, a) == BucketOf(t.store.home, b)
      && a.eventId != b.eventId
    requires t.store.pending == map[Place(t.store.home, a.eventId) := a, Place(t.store.home, b.eventId) := b]
    requires |t.store.contexts| == 1 && b.objectKey in ExtractedKeys(t.store)
    ensures Reaches(ok, s, u) && u.entrusted == t.entrusted
    ensures u.store == t.store.(pending := map[Place(t.store.home, a.eventId) := a])
  {
    var k :| k in t.store.contexts;
    var c := Item(k, t.store.contexts[k]);
    assert t.store.contexts.Keys == {k} by { assert |t.store.contexts.Keys - {k}| == 0; }
    ReachStep(ok, s, t, Crash);
    var t1 := Crashed(t);
    assert Members([c]) == StoredContexts(t.store);
    ReachStep(ok, s, t1, Recovery(Reload([c])));
    var t2 := t1.(contexts := [c], main := Reloaded);
    var listing := [PendingItem(b), PendingItem(a)];
    assert Members(listing) == HomeItems(t.store) by { TwoPending(t.store, a, b); }
    ReachStep(ok, s, t2, Recovery(ListPending(listing)));
    var t3 := t2.(main := Pruning(ExtractedKeys(t.store), listing, []));
    ReachStep(ok, s, t3, Recovery(Prune));
    u := ApplyRecovery(t3, Prune);
    assert t.store.pending - {Place(t.store.home, b.eventId)} == map[Place(t.store.home, a.eventId) := a];
  }

  lemma TwoPending(s: Store, a: SilverEvent, b: SilverEvent)
    requires a.eventId != b.eventId && s.pending == map[Place(s.home, a.eventId) := a, Place(s.home, b.eventId) := b]
    ensures HomeItems(s) == {PendingItem(a), PendingItem(b)}
  {}

  /** The state once the snapshot of `a` and `t` is committed. */
  function Snapshotted(home: Id, a: SilverEvent, t: SilverEvent, catalogs: Catalogs): State
  {
    Committed(Claimed(home, a, t), [PendingItem(a), ContextItem(t)], catalogs)
  }

  lemma SnapshottedFacts(home: Id, a: SilverEvent, t: SilverEvent, catalogs: Catalogs)
    requires BucketOf(home, a) == home
    ensures var s := Snapshotted(home, a, t, catalogs);
      && s.store == Store(home, map[Place(home, a.eventId) := a], map[ContextItem(t).key := t],
                          map[KeyFor(home, [a, t], catalogs) := DocFor([a, t], s.clock)], map[])
      && s.pending == [] && s.main == Running
  {
    assert EventsOf([PendingItem(a), ContextItem(t)]) == [a, t];
  }

  lemma SnapshotReaches(ok: SilverEvent -> bool, home: Id, k: Knowledge, catalogs: Catalogs, a: SilverEvent,
                        t: SilverEvent)
    requires ok(a) && ok(t) && a.kind == LightCurve && t.kind == TargetPixel && a.eventId != t.eventId
    requires k.contexts == [ContextItem(t)] && TpfFor(k, PendingItem(a)) == Some(ContextItem(t)) && Publishable([a, t])
    ensures Reaches(ok, Fresh(home), Snapshotted(home, a, t, catalogs))
  {
    var batch := [PendingItem(a), ContextItem(t)];
    ClaimReaches(ok, home, k, a, t);
    assert EventsOf(batch) == [a, t];
    CommitReaches(ok, Fresh(home), Claimed(home, a, t), batch, catalogs);
  }

  lemma ArtifactsOfPair(home: Id, a: SilverEvent, t: SilverEvent, b: SilverEvent)
    requires a.kind == LightCurve && t.kind == TargetPixel && b.kind == LightCurve && ArtifactOf(a) != ArtifactOf(b)
    requires BucketOf(home, a) == home && BucketOf(home, t) == home
    ensures forall e :: e in [a, t] ==>
      BucketOf(home, e) == home && ArtifactOf(e) != ArtifactOf(b) && (ArtifactOf(e) == ArtifactOf(a) ==> e == a)
  {}

  /**
   Two light curves under one object key: once the first is committed, the second is taken for extracted
   work, and the next startup deletes its checkpoint.
   */
  lemma ReusedObjectKeyLoses(ok: SilverEvent -> bool, home: Id, k: Knowledge, catalogs: Catalogs, a: SilverEvent,
                             t: SilverEvent, b: SilverEvent)
    returns (u: State)
    requires ok(a) && ok(t) && ok(b) && a.kind == LightCurve && t.kind == TargetPixel && b.kind == LightCurve
    requires BucketOf(home, a) == home && BucketOf(home, t) == home && BucketOf(home, b) == home
    requires a.eventId != t.eventId && a.eventId != b.eventId
    requires k.contexts == [ContextItem(t)] && TpfFor(k, PendingItem(a)) == Some(ContextItem(t)) && Publishable([a, t])
    requires a.objectKey == b.objectKey && a.objectKey != EMPTY && ArtifactOf(a) != ArtifactOf(b)
    ensures Lost(ok, home, u, ArtifactOf(b))
  {
    SnapshotReaches(ok, home, k, catalogs, a, t);
    SnapshottedFacts(home, a, t, catalogs);
    ArtifactsOfPair(home, a, t, b);
    u := SecondIsLost(ok, home, Snapshotted(home, a, t, catalogs), [a, t], catalogs, a, b);
  }

  lemma SecondIsLost(ok: SilverEvent -> bool, home: Id, s: State, events: seq<SilverEvent>, catalogs: Catalogs,
                     a: SilverEvent, b: SilverEvent)
    returns (u: State)
    requires Reaches(ok, Fresh(home), s) && s.main.Running? && s.pending == [] && s.store.home == home
    requires s.store.pending == map[Place(home, a.eventId) := a] && |s.store.contexts| == 1
    requires OneSnapshot(s.store, events, catalogs, s.clock) && a in events && a.objectKey != EMPTY
    requires forall e :: e in events ==> ArtifactOf(e) != ArtifactOf(b) && (ArtifactOf(e) == ArtifactOf(a) ==> e == a)
    requires ok(b) && b.kind == LightCurve && BucketOf(home, b) == home && a.eventId != b.eventId
      && a.objectKey == b.objectKey
    ensures Lost(ok, home, u, ArtifactOf(b))
  {
    IntakeReaches(ok, Fresh(home), s, b);
    var s1 := TookLightCurve(s, b);
    SnapshotHasKey(s1.store, events, catalogs, s.clock, a);
    u := PruneReaches(ok, Fresh(home), s1, a, b);
    SnapshotCoversOnly(u.store, events, catalogs, s.clock, ArtifactOf(b));
  }
}
