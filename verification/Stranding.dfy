/**
 Snapshots that are committed and never projected. A build stores its manifest before it is
 projected (apps/python-enrichment/runtime/pool.py); the manifest carries the time it was
 planned at, so a later build of the same batch finds other bytes under its key and fails
 (apps/python-enrichment/pipeline/materializer.py), and after a restart the batch counts as
 extracted (apps/python-enrichment/storage/checkpoints.py).
 */
module Stranding {
  import opened Wrappers
  import opened Events
  import opened Materializer
  import opened GoldBuild
  import opened Readiness
  import opened Checkpoints
  import opened Protocol
  import opened Losses

  /**
   A worker whose attempt can still be projected: it put the manifest that is stored, found it, or is about to
   put one.
   */
  predicate Carries(s: Store, x: Slot, key: DocKey)
  {
    || (x.Published? && x.key == key && HoldsDoc(s, key, x.doc))
    || (x.Building? && x.key == key && HoldsDoc(s, key, x.doc))
    || (x.Putting? && x.key == key)
  }

  predicate Carried(s: State, key: DocKey) { exists w :: 0 <= w < |s.slots| && Carries(s.store, s.slots[w], key) }

  /** A manifest is stored, its snapshot is not READY, and the clock has moved on since it was planned. */
  predicate Unprojected(s: State, key: DocKey)
  {
    key in s.store.docs && key !in s.ready && s.store.docs[key].createdAt < s.clock
  }

  /** Whatever happens next, the snapshot is never READY. */
  ghost predicate NeverReady(ok: SilverEvent -> bool, s: State, key: DocKey)
  {
    forall steps :: Runnable(ok, s, steps) ==> key !in Exec(ok, s, steps).ready
  }

  // ---- A snapshot nobody carries stays unprojected ----------------------

  /** Apart from the workers' steps nothing touches manifests, READY marks or slots, but for a crash and the clock. */
  ghost predicate LeavesAlone(s: State, t: State, key: DocKey)
  {
    && t.ready == s.ready && s.clock <= t.clock && key in s.store.docs && key in t.store.docs
    && t.store.docs[key] == s.store.docs[key]
    && |t.slots| == |s.slots| && forall w :: 0 <= w < |s.slots| ==> t.slots[w] == s.slots[w] || t.slots[w].Vacant?
  }

  lemma RecoveryLeaves(s: State, step: RecoveryStep, key: DocKey)
    requires RecoveryEnabled(s, step) && key in s.store.docs
    ensures LeavesAlone(s, ApplyRecovery(s, step), key)
  {}

  lemma LoopLeaves(ok: SilverEvent -> bool, s: State, step: LoopStep, key: DocKey)
    requires LoopEnabled(ok, s, step) && key in s.store.docs
    ensures LeavesAlone(s, ApplyLoop(ok, s, step), key)
  {}

  lemma LeftAlone(s: State, t: State, key: DocKey)
    requires Unprojected(s, key) && !Carried(s, key) && LeavesAlone(s, t, key)
    ensures Unprojected(t, key) && !Carried(t, key)
  {
    forall w | 0 <= w < |t.slots| ensures !Carries(t.store, t.slots[w], key) {
      assert !Carries(s.store, s.slots[w], key);
    }
  }

  /** One slot after a worker's step, and the manifest under the key. */
  lemma WorkLeaves(s: State, w: nat, step: WorkStep, key: DocKey)
    requires WorkEnabled(s, w, step) && Unprojected(s, key) && !Carries(s.store, s.slots[w], key)
    ensures var t := ApplyWork(s, w, step);
      && key in t.store.docs && t.store.docs[key] == s.store.docs[key] && key !in t.ready && t.clock == s.clock
      && |t.slots| == |s.slots| && !Carries(t.store, t.slots[w], key)
      && forall v :: 0 <= v < |s.slots| && v != w ==> t.slots[v] == s.slots[v]
  {}

  lemma WorkStrands(s: State, w: nat, step: WorkStep, key: DocKey)
    requires WorkEnabled(s, w, step) && Unprojected(s, key) && !Carried(s, key)
    ensures Unprojected(ApplyWork(s, w, step), key) && !Carried(ApplyWork(s, w, step), key)
  {
    var t := ApplyWork(s, w, step);
    WorkLeaves(s, w, step, key);
    forall v | 0 <= v < |t.slots| ensures !Carries(t.store, t.slots[v], key) {
      if v != w { assert !Carries(s.store, s.slots[v], key); }
    }
  }

  lemma StepStrands(ok: SilverEvent -> bool, s: State, step: Step, key: DocKey)
    requires Enabled(ok, s, step) && Unprojected(s, key) && !Carried(s, key)
    ensures Unprojected(Apply(ok, s, step), key) && !Carried(Apply(ok, s, step), key)
  {
    match step
    case Crash => LeftAlone(s, Crashed(s), key);
    case World(step) => LeftAlone(s, ApplyWorld(s, step), key);
    case Recovery(step) =>
      RecoveryLeaves(s, step, key);
      LeftAlone(s, ApplyRecovery(s, step), key);
    case Loop(step) =>
      LoopLeaves(ok, s, step, key);
      LeftAlone(s, ApplyLoop(ok, s, step), key);
    case Work(w, step) => WorkStrands(s, w, step, key);
  }

  lemma {:induction false} RunStrands(ok: SilverEvent -> bool, s: State, steps: seq<Step>, key: DocKey)
    requires Runnable(ok, s, steps) && Unprojected(s, key) && !Carried(s, key)
    ensures Unprojected(Exec(ok, s, steps), key)
    decreases |steps|
  {
    if steps != [] {
      StepStrands(ok, s, steps[0], key);
      RunStrands(ok, Apply(ok, s, steps[0]), steps[1..], key);
    }
  }

  // ---- One that is carried can still be projected -----------------------

  lemma OneStep(ok: SilverEvent -> bool, s: State, step: Step, rest: seq<Step>)
    requires Enabled(ok, s, step) && Runnable(ok, Apply(ok, s, step), rest)
    ensures Runnable(ok, s, [step] + rest) && Exec(ok, s, [step] + rest) == Exec(ok, Apply(ok, s, step), rest)
  {
    assert ([step] + rest)[1..] == rest;
  }

  lemma ProjectsNow(ok: SilverEvent -> bool, s: State, w: nat, key: DocKey) returns (steps: seq<Step>)
    requires w < |s.slots| && s.slots[w].Published? && s.slots[w].key == key && HoldsDoc(s.store, key, s.slots[w].doc)
    ensures Runnable(ok, s, steps) && key in Exec(ok, s, steps).ready
  {
    OneStep(ok, s, Work(w, Project), []);
    steps := [Work(w, Project)] + [];
  }

  lemma CarriedProjects(ok: SilverEvent -> bool, s: State, w: nat, key: DocKey) returns (steps: seq<Step>)
    requires w < |s.slots| && Carries(s.store, s.slots[w], key)
    ensures Runnable(ok, s, steps) && key in Exec(ok, s, steps).ready
  {
    if s.slots[w].Published? {
      steps := ProjectsNow(ok, s, w, key);
    } else {
      var first := if s.slots[w].Building? then FindSame else PutManifest;
      var t := ApplyWork(s, w, first);
      var rest := ProjectsNow(ok, t, w, key);
      OneStep(ok, s, Work(w, first), rest);
      steps := [Work(w, first)] + rest;
    }
  }

  /**
   Exactly when a committed snapshot that is not READY will never be: when no worker carries it, that is, none has
   stored or found the very manifest that is there, and none is about to put another over it. A later build of the
   same batch is planned at a later time, finds other bytes and fails.
   */
  lemma StrandedExactly(ok: SilverEvent -> bool, s: State, key: DocKey)
    requires Unprojected(s, key)
    ensures NeverReady(ok, s, key) <==> !Carried(s, key)
  {
    if Carried(s, key) {
      var w :| 0 <= w < |s.slots| && Carries(s.store, s.slots[w], key);
      var steps := CarriedProjects(ok, s, w, key);
      assert !NeverReady(ok, s, key);
    } else {
      forall steps | Runnable(ok, s, steps) ensures key !in Exec(ok, s, steps).ready { RunStrands(ok, s, steps, key); }
    }
  }

  // ---- A crash between the manifest and READY ---------------------------

  lemma StopStrands(ok: SilverEvent -> bool, home: Id, u: State, key: DocKey) returns (s: State)
    requires Reaches(ok, Fresh(home), u) && key in u.store.docs && key !in u.ready
      && u.store.docs[key].createdAt <= u.clock
    ensures Reaches(ok, Fresh(home), s) && s.store == u.store && NeverReady(ok, s, key)
  {
    ReachStep(ok, Fresh(home), u, Crash);
    ReachStep(ok, Fresh(home), Crashed(u), World(Tick));
    s := ApplyWorld(Crashed(u), Tick);
    forall w | 0 <= w < |s.slots| ensures !Carries(s.store, s.slots[w], key) { assert s.slots[w].Vacant?; }
    StrandedExactly(ok, s, key);
  }

  lemma PairExtracted(s: Store, events: seq<SilverEvent>, catalogs: Catalogs, createdAt: int, a: SilverEvent,
                      t: SilverEvent)
    requires a.kind == LightCurve && t.kind == TargetPixel && a.objectKey != EMPTY && NoConflict(events)
    requires BucketOf(s.home, a) == s.home && BucketOf(s.home, t) == s.home
    requires a in events && forall e :: e in events ==> e == a || e == t
    requires s.docs == map[KeyFor(s.home, events, catalogs) := DocFor(events, createdAt)]
    ensures a.objectKey in ExtractedKeys(s)
  {
    SnapshotHasKey(s, events, catalogs, createdAt, a);
  }

  lemma PairStrands(ok: SilverEvent -> bool, home: Id, u: State, events: seq<SilverEvent>, catalogs: Catalogs,
                    a: SilverEvent, t: SilverEvent)
    returns (s: State)
    requires Reaches(ok, Fresh(home), u) && u.store.home == home && u.ready == {}
    requires u.store.docs == map[KeyFor(home, events, catalogs) := DocFor(events, u.clock)]
    requires a.kind == LightCurve && t.kind == TargetPixel && a.objectKey != EMPTY && NoConflict(events)
    requires BucketOf(home, a) == home && BucketOf(home, t) == home
    requires a in events && forall e :: e in events ==> e == a || e == t
    ensures Reaches(ok, Fresh(home), s) && a.objectKey in ExtractedKeys(s.store)
    ensures KeyFor(home, events, catalogs) in s.store.docs && NeverReady(ok, s, KeyFor(home, events, catalogs))
  {
    PairExtracted(u.store, events, catalogs, u.clock, a, t);
    s := StopStrands(ok, home, u, KeyFor(home, events, catalogs));
  }

  lemma PairMembers(a: SilverEvent, t: SilverEvent)
    ensures a in [a, t] && forall e :: e in [a, t] ==> e == a || e == t
  {}

  /**
   A light curve and its target pixel are taken in, paired, built and committed, and the process stops before it
   projects: the snapshot counts as extracted, so no restart queues the light curve again, and no run ever makes
   it READY.
   */
  lemma CrashStrands(ok: SilverEvent -> bool, home: Id, k: Knowledge, catalogs: Catalogs, a: SilverEvent,
                     t: SilverEvent)
    returns (s: State)
    requires ok(a) && ok(t) && a.kind == LightCurve && t.kind == TargetPixel && a.eventId != t.eventId
    requires BucketOf(home, a) == home && BucketOf(home, t) == home && a.objectKey != EMPTY
    requires k.contexts == [ContextItem(t)] && TpfFor(k, PendingItem(a)) == Some(ContextItem(t)) && Publishable([a, t])
    ensures Reaches(ok, Fresh(home), s) && a.objectKey in ExtractedKeys(s.store)
    ensures KeyFor(home, [a, t], catalogs) in s.store.docs && NeverReady(ok, s, KeyFor(home, [a, t], catalogs))
  {
    SnapshotReaches(ok, home, k, catalogs, a, t);
    SnapshottedFacts(home, a, t, catalogs);
    PairMembers(a, t);
    s := PairStrands(ok, home, Snapshotted(home, a, t, catalogs), [a, t], catalogs, a, t);
  }
}
