/**
 Lineage records that recovery passes over (apps/python-enrichment/storage/checkpoints.py):
 a record is inspected once, and skipped when its object key is known to be pending or
 extracted. Whether the artifact it names is then really kept.
 */
module LineageCoverage {
  import opened Wrappers
  import opened Sequences
  import opened Events
  import opened Checkpoints
  import opened Protocol
  import opened Durability
  import opened Losses

  /** The artifact of every lineage record already inspected is kept. */
  ghost predicate ObservedKept(s: State)
  {
    forall k :: k in s.observed && k in s.store.lineage && s.store.lineage[k].Some? ==>
      Kept(s.store, ArtifactOf(s.store.lineage[k].value))
  }

  /** Events without an object key, which the event contract accepts, all describe one artifact. */
  ghost predicate EmptyKeyNamesOne(ok: SilverEvent -> bool)
  {
    forall a, b :: ok(a) && ok(b) && a.objectKey == EMPTY && b.objectKey == EMPTY ==> ArtifactOf(a) == ArtifactOf(b)
  }

  /** An object key that belongs to an event whose artifact is kept. */
  ghost predicate KeyKept(ok: SilverEvent -> bool, s: Store, key: Id)
  {
    exists e :: ok(e) && e.objectKey == key && Kept(s, ArtifactOf(e))
  }

  /** What recovery in progress knows is backed by the store. */
  ghost predicate KnownOk(ok: SilverEvent -> bool, s: Store, m: Main)
  {
    && (m.Scanning? || m.Recovering? ==> forall key :: key in m.known ==> KeyKept(ok, s, key))
    && (m.Recovering? ==> m.extracted <= ExtractedKeys(s))
  }

  /** The records inspected and those still to be inspected exist. */
  ghost predicate KeysExist(s: State)
  {
    && s.observed <= s.store.lineage.Keys
    && (s.main.Scanning? || s.main.Recovering? ==>
          forall i :: 0 <= i < |s.main.keys| ==> s.main.keys[i] in s.store.lineage)
  }

  ghost predicate CoverInv(ok: SilverEvent -> bool, s: State)
  {
    Inv(ok, s) && KnownOk(ok, s.store, s.main) && KeysExist(s) && ObservedKept(s)
  }

  lemma KnownGrows(ok: SilverEvent -> bool, a: Store, b: Store, m: Main)
    requires Grows(a, b) && KnownOk(ok, a, m)
    ensures KnownOk(ok, b, m)
  {
    if m.Scanning? || m.Recovering? {
      forall key | key in m.known ensures KeyKept(ok, b, key) {
        var e :| ok(e) && e.objectKey == key && Kept(a, ArtifactOf(e));
      }
    }
  }

  /** The object keys of the pending checkpoints belong to kept artifacts. */
  lemma ListedKeysKept(ok: SilverEvent -> bool, s: Store, key: Id)
    requires StoreInv(ok, s) && key in ObjectKeys(HomeItems(s))
    ensures KeyKept(ok, s, key)
  {
    var i :| i in HomeItems(s) && i.event.objectKey == key;
    var p :| p in s.pending && p.bucket == s.home && i == Item(PendingKey(p.eventId), s.pending[p]);
    assert ok(i.event) && HasPending(s, ArtifactOf(i.event));
  }

  /** A record whose key is known or extracted names a kept artifact. */
  lemma SkippedIsKept(ok: SilverEvent -> bool, s: State, e: SilverEvent)
    requires Universe(ok, s.store.home) && EmptyKeyNamesOne(ok) && CoverInv(ok, s) && s.main.Recovering? && ok(e)
    requires e.objectKey in s.main.known || e.objectKey in s.main.extracted
    ensures Kept(s.store, ArtifactOf(e))
  {
    if e.objectKey in s.main.known {
      var f :| ok(f) && f.objectKey == e.objectKey && Kept(s.store, ArtifactOf(f));
      assert ArtifactOf(f) == ArtifactOf(e);
    } else {
      ExtractedIsFinal(ok, s.store, e);
    }
  }

  lemma UnobservedExist(s: Store, observed: set<Id>, keys: seq<Id>)
    requires Unobserved(s, observed, keys)
    ensures forall i :: 0 <= i < |keys| ==> keys[i] in s.lineage
  {
    forall i | 0 <= i < |keys| ensures keys[i] in s.lineage {
      assert keys[i] in Members(keys);
    }
  }

  /** The lineage only grows, and apart from `Recover` no step adds to the records inspected. */
  ghost predicate ObservesNothing(s: State, t: State)
  {
    && (t.observed == s.observed || t.observed == {})
    && (forall k :: k in s.store.lineage ==> k in t.store.lineage && t.store.lineage[k] == s.store.lineage[k])
    && (KeysExist(s) ==> KeysExist(t))
  }

  lemma RecoveryObserves(s: State, step: RecoveryStep)
    requires RecoveryEnabled(s, step) && !step.Recover?
    ensures ObservesNothing(s, ApplyRecovery(s, step))
  {
    if step.ListLineage? {
      UnobservedExist(s.store, s.observed, step.keys);
    }
  }

  lemma LoopObserves(ok: SilverEvent -> bool, s: State, step: LoopStep)
    requires LoopEnabled(ok, s, step)
    ensures ObservesNothing(s, ApplyLoop(ok, s, step))
  {}

  lemma WorkObserves(s: State, w: nat, step: WorkStep)
    requires WorkEnabled(s, w, step)
    ensures ObservesNothing(s, ApplyWork(s, w, step))
  {}

  lemma StepObserves(ok: SilverEvent -> bool, s: State, step: Step)
    requires Enabled(ok, s, step) && !IsRecover(step)
    ensures ObservesNothing(s, Apply(ok, s, step))
  {
    match step
    case Recovery(step) => RecoveryObserves(s, step);
    case Loop(step) => LoopObserves(ok, s, step);
    case Work(w, step) => WorkObserves(s, w, step);
    case _ =>
  }

  predicate IsRecover(step: Step) { step.Recovery? && step.recovery.Recover? }

  /** In a step other than `Recover`, recovery starts, goes on knowing the same, or is over. */
  lemma RecoveryKnows(ok: SilverEvent -> bool, s: State, step: RecoveryStep)
    requires StoreInv(ok, s.store) && KnownOk(ok, s.store, s.main) && RecoveryEnabled(s, step) && !step.Recover?
    ensures KnownOk(ok, s.store, ApplyRecovery(s, step).main)
  {
    if step.ListLineage? {
      forall key | key in ObjectKeys(HomeItems(s.store)) ensures KeyKept(ok, s.store, key) {
        ListedKeysKept(ok, s.store, key);
      }
    }
  }

  lemma LoopKnows(ok: SilverEvent -> bool, s: State, step: LoopStep)
    requires LoopEnabled(ok, s, step)
    ensures !ApplyLoop(ok, s, step).main.Scanning? && !ApplyLoop(ok, s, step).main.Recovering?
  {}

  lemma WorkKnows(s: State, w: nat, step: WorkStep)
    requires WorkEnabled(s, w, step)
    ensures ApplyWork(s, w, step).main == s.main
  {}

  lemma KnownSteps(ok: SilverEvent -> bool, s: State, step: Step)
    requires CoverInv(ok, s) && Enabled(ok, s, step) && !IsRecover(step)
    ensures KnownOk(ok, s.store, Apply(ok, s, step).main)
  {
    match step
    case Recovery(step) => RecoveryKnows(ok, s, step);
    case Loop(step) => LoopKnows(ok, s, step);
    case Work(w, step) => WorkKnows(s, w, step);
    case _ =>
  }

  /** A record just inspected names a kept artifact, and a key just learnt belongs to one. */
  lemma RecoverKeeps(ok: SilverEvent -> bool, s: State)
    requires Universe(ok, s.store.home) && EmptyKeyNamesOne(ok) && CoverInv(ok, s) && RecoveryEnabled(s, Recover)
    ensures var t, record := ApplyRecovery(s, Recover), s.store.lineage[s.main.keys[0]];
      && (record.Some? ==> Kept(t.store, ArtifactOf(record.value)))
      && (NextRecovered(s).Some? ==> KeyKept(ok, t.store, NextRecovered(s).value.objectKey))
  {
    var record := s.store.lineage[s.main.keys[0]];
    if record.Some? {
      if NextRecovered(s).None? {
        SkippedIsKept(ok, s, record.value);
      } else {
        SaveGrows(ok, s.store, record.value);
      }
    }
  }

  lemma RecoverCovers(ok: SilverEvent -> bool, s: State)
    requires Universe(ok, s.store.home) && EmptyKeyNamesOne(ok) && CoverInv(ok, s) && RecoveryEnabled(s, Recover)
    requires var t := ApplyRecovery(s, Recover); Inv(ok, t) && Grows(s.store, t.store)
    ensures CoverInv(ok, ApplyRecovery(s, Recover))
  {
    var t := ApplyRecovery(s, Recover);
    KnownGrows(ok, s.store, t.store, s.main);
    RecoverKeeps(ok, s);
    assert t.store.lineage == s.store.lineage;
  }

  lemma StepCovers(ok: SilverEvent -> bool, s: State, step: Step)
    requires Universe(ok, s.store.home) && EmptyKeyNamesOne(ok) && CoverInv(ok, s) && Enabled(ok, s, step)
    ensures CoverInv(ok, Apply(ok, s, step)) && Apply(ok, s, step).store.home == s.store.home
  {
    StepInv(ok, s, step);
    if IsRecover(step) {
      RecoverCovers(ok, s);
    } else {
      StepObserves(ok, s, step);
      KnownSteps(ok, s, step);
      KnownGrows(ok, s.store, Apply(ok, s, step).store, Apply(ok, s, step).main);
    }
  }

  lemma {:induction false} RunCovers(ok: SilverEvent -> bool, s: State, steps: seq<Step>)
    requires Universe(ok, s.store.home) && EmptyKeyNamesOne(ok) && CoverInv(ok, s) && Runnable(ok, s, steps)
    ensures CoverInv(ok, Exec(ok, s, steps))
    decreases |steps|
  {
    if steps != [] {
      StepCovers(ok, s, steps[0]);
      RunCovers(ok, Apply(ok, s, steps[0]), steps[1..]);
    }
  }

  // ---- A record passed over for good ------------------------------------

  /** Two lineage records, listed by the first startup. */
  function TwoRecords(home: Id, a: SilverEvent, b: SilverEvent): State
  {
    Fresh(home).(store := Fresh(home).store.(lineage := map[Id("1") := Some(a), Id("2") := Some(b)]))
  }

  lemma TwoRecordsListed(ok: SilverEvent -> bool, home: Id, a: SilverEvent, b: SilverEvent)
    requires ok(a) && ok(b)
    ensures Reaches(ok, Fresh(home), TwoRecords(home, a, b).(main := Pruning({}, [], [])))
  {
    var s, t := Fresh(home), TwoRecords(home, a, b);
    ReachStart(ok, s);
    ReachStep(ok, s, s, World(LineageAppears(Id("1"), Some(a))));
    var s1 := s.(store := s.store.(lineage := map[Id("1") := Some(a)]));
    assert s1 == Apply(ok, s, World(LineageAppears(Id("1"), Some(a))));
    ReachStep(ok, s, s1, World(LineageAppears(Id("2"), Some(b))));
    assert t == Apply(ok, s1, World(LineageAppears(Id("2"), Some(b))));
    ReachStep(ok, s, t, Recovery(Reload([])));
    ReachStep(ok, s, t.(main := Reloaded), Recovery(ListPending([])));
    assert ExtractedKeys(t.store) == {};
  }

  lemma TwoRecordsScanned(ok: SilverEvent -> bool, home: Id, a: SilverEvent, b: SilverEvent)
    requires ok(a) && ok(b)
    ensures Reaches(ok, Fresh(home),
                    TwoRecords(home, a, b).(main := Recovering(true, [], {}, {}, [Id("1"), Id("2")], [])))
  {
    var s, t := Fresh(home), TwoRecords(home, a, b);
    var keys := [Id("1"), Id("2")];
    TwoRecordsListed(ok, home, a, b);
    assert Members(keys) == t.store.lineage.Keys - {} by {
      assert t.store.lineage.Keys == {Id("1"), Id("2")};
    }
    ReachStep(ok, s, t.(main := Pruning({}, [], [])), Recovery(ListLineage(keys)));
    assert ObjectKeys(HomeItems(t.store)) == {} && ExtractedKeys(t.store) == {};
    ReachStep(ok, s, t.(main := Scanning(true, [], {}, keys)), Recovery(ScanManifests));
  }

  /** The first record is queued, the second passed over because the empty key is known by then. */
  function OnePassedOver(home: Id, a: SilverEvent, b: SilverEvent): State
  {
    PersistPending(TwoRecords(home, a, b), a).(observed := {Id("1"), Id("2")},
      main := Recovering(true, [], {EMPTY}, {}, [], [PendingItem(a)]))
  }

  lemma PassedOverReaches(ok: SilverEvent -> bool, home: Id, a: SilverEvent, b: SilverEvent)
    requires ok(a) && ok(b) && a.objectKey == EMPTY && b.objectKey == EMPTY
    ensures Reaches(ok, Fresh(home), OnePassedOver(home, a, b))
  {
    var s, t := Fresh(home), TwoRecords(home, a, b);
    TwoRecordsScanned(ok, home, a, b);
    var t0 := t.(main := Recovering(true, [], {}, {}, [Id("1"), Id("2")], []));
    var t1 := PersistPending(t, a).(observed := {Id("1")},
                                    main := Recovering(true, [], {EMPTY}, {}, [Id("2")], [PendingItem(a)]));
    ReachStep(ok, s, t0, Recovery(Recover));
    assert NextRecovered(t0) == Some(a);
    var u := ApplyRecovery(t0, Recover);
    assert u.observed == t1.observed && u.main.known == t1.main.known && u.main.keys == t1.main.keys
      && u.main.recovered == t1.main.recovered;
    assert t1 == Apply(ok, t0, Recovery(Recover));
    assert [Id("2")][1..] == [] && {Id("1")} + {Id("2")} == {Id("1"), Id("2")};
    ReachStep(ok, s, t1, Recovery(Recover));
    assert NextRecovered(t1) == None;
    assert OnePassedOver(home, a, b) == Apply(ok, t1, Recovery(Recover));
  }

  lemma PassedOverIsLost(home: Id, a: SilverEvent, b: SilverEvent)
    requires ArtifactOf(a) != ArtifactOf(b)
    ensures !ObservedKept(OnePassedOver(home, a, b))
  {
    var t := OnePassedOver(home, a, b);
    assert t.store.docs == map[] && ReadyInputs(t.store.home, t.store.docs) == {};
    assert !Kept(t.store, ArtifactOf(b));
    assert Id("2") in t.observed && t.store.lineage[Id("2")] == Some(b);
  }

  /** In every run from a first deployment, the artifact of every inspected record is kept. */
  ghost predicate AlwaysCovered(ok: SilverEvent -> bool, home: Id)
  {
    forall init, steps :: Init(init) && init.store.home == home && Runnable(ok, init, steps) ==>
      ObservedKept(Exec(ok, init, steps))
  }

  /**
   Every lineage record that recovery has inspected, queued or passed over, names a kept artifact in every run,
   exactly when events without an object key describe one artifact.
   */
  lemma ObservedIsKeptExactly(ok: SilverEvent -> bool, home: Id)
    requires Universe(ok, home)
    ensures AlwaysCovered(ok, home) <==> EmptyKeyNamesOne(ok)
  {
    if EmptyKeyNamesOne(ok) {
      forall init, steps | Init(init) && init.store.home == home && Runnable(ok, init, steps)
        ensures ObservedKept(Exec(ok, init, steps))
      {
        InitInv(ok, init);
        RunCovers(ok, init, steps);
      }
    } else {
      var a, b :| ok(a) && ok(b) && a.objectKey == EMPTY && b.objectKey == EMPTY && ArtifactOf(a) != ArtifactOf(b);
      PassedOverReaches(ok, home, a, b);
      PassedOverIsLost(home, a, b);
      var steps :| Runnable(ok, Fresh(home), steps) && Exec(ok, Fresh(home), steps) == OnePassedOver(home, a, b);
      assert Init(Fresh(home));
    }
  }
}
