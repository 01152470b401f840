/**
 What a restart brings back: after any run and any crash, startup queues every light curve
 whose checkpoint is pending and none whose object is already in a committed snapshot.
 */
module Restart {
  import opened Wrappers
  import opened Sequences
  import opened Events
  import opened Checkpoints
  import opened Protocol
  import opened Durability

  /** The main task has not reached its loop. */
  predicate Booting(m: Main)
  {
    m.Down? || m.Reloaded? || m.Pruning? || ((m.Scanning? || m.Recovering? || m.Filing?) && m.boot)
  }

  /** The light-curve checkpoints listed under the home bucket. */
  function HomeLightCurves(s: Store): set<Item> { set i | i in HomeItems(s) && IsLightCurve(i) }

  ghost predicate Unextracted(s: Store, items: seq<Item>) { Every(NotIn(ExtractedKeys(s)), items) }

  /** Every pending checkpoint is among the items startup is working through. */
  ghost predicate Listed(s: Store, m: Main)
  {
    match m
    case Pruning(extracted, todo, kept) =>
      extracted == ExtractedKeys(s) && HomeItems(s) <= Members(todo + kept) && Unextracted(s, kept)
    case Scanning(boot, carried, _, _) => boot ==> HomeItems(s) <= Members(carried) && Unextracted(s, carried)
    case Recovering(boot, carried, _, extracted, _, recovered) =>
      boot ==>
        && extracted == ExtractedKeys(s) && HomeItems(s) <= Members(carried + recovered)
        && Unextracted(s, carried + recovered)
    case Filing(boot, items, lcs, _) =>
      boot ==> HomeLightCurves(s) <= Members(items + lcs) && Unextracted(s, items) && Unextracted(s, lcs)
    case _ => true
  }

  ghost predicate BootInv(s: State)
  {
    && Listed(s.store, s.main)
    && (Booting(s.main) ==> s.pending == [] && s.queue == [] && forall w :: 0 <= w < |s.slots| ==> s.slots[w] == Vacant)
  }

  // ---- The listing follows the store ------------------------------------

  lemma SavedItems(ok: SilverEvent -> bool, s: Store, e: SilverEvent)
    requires Universe(ok, s.home) && ok(e)
    ensures HomeItems(SavePending(s, e)) <= HomeItems(s) + {PendingItem(e)}
  {}

  lemma DeletedItems(s: Store, id: Id)
    ensures var t := DeletePending(s, Place(s.home, id));
      HomeItems(t) <= HomeItems(s) && forall i :: i in HomeItems(t) ==> i.key != PendingKey(id)
  {}

  lemma PruneListed(ok: SilverEvent -> bool, s: State)
    requires Universe(ok, s.store.home) && Inv(ok, s) && BootInv(s) && RecoveryEnabled(s, Prune)
    ensures BootInv(ApplyRecovery(s, Prune))
  {
    var m, i := s.main, s.main.todo[0];
    var t := ApplyRecovery(s, Prune);
    EveryTail(FileOk(ok, s.store), m.todo);
    assert m.todo == [i] + m.todo[1..];
    if i.event.objectKey in m.extracted {
      DeletedItems(s.store, i.key.eventId);
      assert t.store == DeletePending(s.store, Place(s.store.home, i.key.eventId));
      SameRest(s.store, t.store);
      forall x | x in HomeItems(t.store) ensures x in m.todo[1..] + m.kept {
        assert x in Members(m.todo + m.kept) && x != i;
      }
    } else {
      EverySnoc(NotIn(ExtractedKeys(s.store)), m.kept, i);
      forall x | x in HomeItems(s.store) ensures x in m.todo[1..] + (m.kept + [i]) {
        assert x in Members(m.todo + m.kept);
      }
    }
  }

  lemma RecoverListed(ok: SilverEvent -> bool, s: State)
    requires Universe(ok, s.store.home) && Inv(ok, s) && BootInv(s) && RecoveryEnabled(s, Recover)
    ensures BootInv(ApplyRecovery(s, Recover))
  {
    var m, found := s.main, NextRecovered(s);
    if found.Some? && m.boot {
      var e := found.value;
      var t := ApplyRecovery(s, Recover);
      SavedItems(ok, s.store, e);
      SameRest(s.store, t.store);
      assert m.carried + (m.recovered + [PendingItem(e)]) == (m.carried + m.recovered) + [PendingItem(e)];
      EverySnoc(NotIn(ExtractedKeys(s.store)), m.carried + m.recovered, PendingItem(e));
      forall x | x in HomeItems(t.store) ensures x in m.carried + (m.recovered + [PendingItem(e)]) {
        if x != PendingItem(e) { assert x in Members(m.carried + m.recovered); }
      }
    }
  }

  lemma FileListed(s: State)
    requires BootInv(s) && RecoveryEnabled(s, File)
    ensures BootInv(ApplyRecovery(s, File))
  {
    var m, i := s.main, s.main.items[0];
    var t := ApplyRecovery(s, File);
    assert HomeItems(t.store) == HomeItems(s.store) && ExtractedKeys(t.store) == ExtractedKeys(s.store);
    if i.event.kind == LightCurve && m.boot {
      EveryTail(NotIn(ExtractedKeys(s.store)), m.items);
      EverySnoc(NotIn(ExtractedKeys(s.store)), m.lcs, i);
      assert m.items == [i] + m.items[1..];
      forall x | x in HomeLightCurves(s.store) ensures x in m.items[1..] + (m.lcs + [i]) {
        assert x in Members(m.items + m.lcs);
      }
    }
  }

  /** Dropping the first item's checkpoint unlists no other light curve. */
  lemma DropStore(s: Store, items: seq<Item>, lcs: seq<Item>)
    requires items != [] && items[0].key.PendingKey? && !IsLightCurve(items[0])
      && HomeLightCurves(s) <= Members(items + lcs)
    ensures HomeLightCurves(DeletePending(s, Place(s.home, items[0].key.eventId))) <= Members(items[1..] + lcs)
  {
    var t := DeletePending(s, Place(s.home, items[0].key.eventId));
    DeletedItems(s, items[0].key.eventId);
    assert items == [items[0]] + items[1..];
    forall x | x in HomeLightCurves(t) ensures x in items[1..] + lcs {
      assert x in HomeLightCurves(s);
      assert x in Members(items + lcs);
    }
  }

  lemma DropListed(ok: SilverEvent -> bool, s: State)
    requires Inv(ok, s) && BootInv(s) && RecoveryEnabled(s, DropCheckpoint)
    ensures BootInv(ApplyRecovery(s, DropCheckpoint))
  {
    var m := s.main;
    var t := ApplyRecovery(s, DropCheckpoint);
    if m.boot {
      EveryTail(FileOk(ok, s.store), m.items);
      EveryTail(NotIn(ExtractedKeys(s.store)), m.items);
      DropStore(s.store, m.items, m.lcs);
      SameRest(s.store, t.store);
    }
  }

  lemma RecoveryListed(ok: SilverEvent -> bool, s: State, step: RecoveryStep)
    requires Universe(ok, s.store.home) && Inv(ok, s) && BootInv(s) && RecoveryEnabled(s, step)
    ensures BootInv(ApplyRecovery(s, step))
  {
    match step
    case Reload(_) =>
    case ListPending(listing) => assert listing + [] == listing;
    case Prune => PruneListed(ok, s);
    case ListLineage(_) => if s.main.Pruning? { assert s.main.todo + s.main.kept == s.main.kept; }
    case ScanManifests => assert s.main.carried + [] == s.main.carried;
    case Recover => RecoverListed(ok, s);
    case BeginFiling =>
      assert s.main.carried + s.main.recovered + [] == s.main.carried + s.main.recovered;
      assert HomeLightCurves(s.store) <= HomeItems(s.store);
    case File => FileListed(s);
    case DropCheckpoint => DropListed(ok, s);
    case EndFiling =>
  }

  lemma WorldListed(ok: SilverEvent -> bool, s: State, step: WorldStep)
    requires BootInv(s) && WorldEnabled(ok, s, step)
    ensures BootInv(ApplyWorld(s, step))
  {
    match step
    case ForeignManifest(key, doc) =>
      ReadyInputsAdded(s.store.home, s.store.docs, key, doc);
      assert HomeItems(ApplyWorld(s, step).store) == HomeItems(s.store);
    case _ =>
  }

  /** While booting no worker runs, so nothing else touches the store. */
  lemma WorkListed(s: State, w: nat, step: WorkStep)
    requires BootInv(s) && WorkEnabled(s, w, step)
    ensures BootInv(ApplyWork(s, w, step))
  {
    assert s.slots[w].Vacant? || !Booting(s.main);
    assert ApplyWork(s, w, step).main == s.main;
  }

  lemma LoopListed(ok: SilverEvent -> bool, s: State, step: LoopStep)
    requires LoopEnabled(ok, s, step)
    ensures BootInv(ApplyLoop(ok, s, step))
  {}

  lemma StepListed(ok: SilverEvent -> bool, s: State, step: Step)
    requires Universe(ok, s.store.home) && Inv(ok, s) && BootInv(s) && Enabled(ok, s, step)
    ensures BootInv(Apply(ok, s, step))
  {
    match step
    case Crash => assert !Crashed(s).main.Pruning?;
    case World(step) => WorldListed(ok, s, step);
    case Recovery(step) => RecoveryListed(ok, s, step);
    case Loop(step) => LoopListed(ok, s, step);
    case Work(w, step) => WorkListed(s, w, step);
  }

  lemma {:induction false} RunListed(ok: SilverEvent -> bool, s: State, steps: seq<Step>)
    requires Universe(ok, s.store.home) && Inv(ok, s) && BootInv(s) && Runnable(ok, s, steps)
    ensures BootInv(Exec(ok, s, steps))
    decreases |steps|
  {
    if steps != [] {
      StepInv(ok, s, steps[0]);
      StepListed(ok, s, steps[0]);
      RunListed(ok, Apply(ok, s, steps[0]), steps[1..]);
    }
  }

  /**
   When startup finishes, after any history of crashes, the pending list holds every light curve with a
   checkpoint in the home bucket, and none whose object key is in a committed research-ready manifest.
   */
  lemma RestartRestoresQueue(ok: SilverEvent -> bool, init: State, steps: seq<Step>)
    requires Universe(ok, init.store.home) && Init(init) && Runnable(ok, init, steps)
    requires var s := Exec(ok, init, steps); s.main.Filing? && s.main.boot && s.main.items == []
    ensures var t := ApplyRecovery(Exec(ok, init, steps), EndFiling);
      && (forall i :: i in HomeItems(t.store) && IsLightCurve(i) ==> i in t.pending)
      && (forall i :: i in t.pending ==> i.event.objectKey !in ExtractedKeys(t.store))
  {
    InitInv(ok, init);
    RunListed(ok, init, steps);
    var s := Exec(ok, init, steps);
    var t := ApplyRecovery(s, EndFiling);
    assert t.pending == s.main.lcs && s.main.items + s.main.lcs == s.main.lcs;
    forall i | i in HomeItems(t.store) && IsLightCurve(i) ensures i in t.pending {
      assert i in HomeLightCurves(s.store);
    }
    forall i | i in t.pending ensures i.event.objectKey !in ExtractedKeys(t.store) {
      EveryMember(NotIn(ExtractedKeys(s.store)), s.main.lcs, i);
    }
  }
}
