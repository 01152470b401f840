/**
 What the running process never forgets: a light curve it has in hand stays in the pending
 list, in the main task's hands, in the queue or with a worker, through every dispatch,
 failure and retry, until a batch that holds it is finished
 (apps/python-enrichment/runtime/worker.py, apps/python-enrichment/runtime/pool.py). Only a
 crash empties the memory.
 */
module Custody {
  import opened Wrappers
  import opened Sequences
  import opened Events
  import opened GoldBuild
  import opened Readiness
  import opened Scheduler
  import opened Checkpoints
  import opened Protocol
  import opened Durability

  /** The item is in the main task's hands: kept by recovery, being filed, or on its way to the queue. */
  ghost predicate MainCarries(m: Main, i: Item)
  {
    match m
    case Pruning(_, _, kept) => i in kept
    case Scanning(_, carried, _, _) => i in carried
    case Recovering(_, carried, _, _, _, recovered) => i in carried || i in recovered
    case Filing(_, items, lcs, _) => i in items || i in lcs
    case Dispatching(batches) => exists b :: b in batches && i in b
    case Enqueueing(batch, batches) => i in batch || exists b :: b in batches && i in b
    case _ => false
  }

  ghost predicate WorkerCarries(s: State, i: Item)
  {
    exists w :: 0 <= w < |s.slots| && !s.slots[w].Vacant? && i in s.slots[w].batch
  }

  ghost predicate Carried(s: State, i: Item)
  {
    i in s.pending || (exists b :: b in s.queue && i in b) || WorkerCarries(s, i) || MainCarries(s.main, i)
  }

  ghost predicate Bears(i: Item, a: Artifact) { i.event.kind == LightCurve && ArtifactOf(i.event) == a }

  /** The process has the light curve in hand. */
  ghost predicate InHand(s: State, a: Artifact) { exists i :: Carried(s, i) && Bears(i, a) }

  /** The step finishes a batch that holds the light curve. */
  ghost predicate Finishes(s: State, step: Step, a: Artifact)
  {
    && step.Work? && step.work.Finish? && step.slot < |s.slots| && !s.slots[step.slot].Vacant?
    && exists i :: i in s.slots[step.slot].batch && Bears(i, a)
  }

  lemma WorldKeeps(ok: SilverEvent -> bool, s: State, step: WorldStep, a: Artifact)
    requires WorldEnabled(ok, s, step) && InHand(s, a)
    ensures InHand(ApplyWorld(s, step), a)
  {
    var i :| Carried(s, i) && Bears(i, a);
    assert Carried(ApplyWorld(s, step), i);
  }

  // ---- Recovery ---------------------------------------------------------

  /** Where an item held by the main task is after a step of recovery, unless it was filed as a repeat. */
  lemma RecoveryCarries(s: State, step: RecoveryStep, i: Item)
    requires RecoveryEnabled(s, step) && !step.File? && !step.DropCheckpoint? && MainCarries(s.main, i)
    ensures Carried(ApplyRecovery(s, step), i)
  {}

  /** Filing queues a light curve, unless its revision is in hand already. */
  lemma FileCarries(s: State, i: Item)
    requires RecoveryEnabled(s, File) && MainCarries(s.main, i) && i.event.kind == LightCurve
    requires forall x :: x in s.pending + s.main.lcs ==> x.event.kind == LightCurve
    ensures exists j :: Carried(ApplyRecovery(s, File), j) && Bears(j, ArtifactOf(i.event))
  {
    var m, t := s.main, ApplyRecovery(s, File);
    assert m.items == [m.items[0]] + m.items[1..];
    if i in m.lcs || i in m.items[1..] || m.items[0].event.kind == TargetPixel {
      assert Carried(t, i);
    } else if t.main.lcs == m.lcs + [i] {
      assert i in m.lcs + [i];
      assert Carried(t, i);
    } else {
      var n :| 0 <= n < |s.pending + m.lcs| && RevisionOf((s.pending + m.lcs)[n].event) == RevisionOf(i.event);
      var j := (s.pending + m.lcs)[n];
      assert j in s.pending + m.lcs;
      assert Carried(t, j);
    }
  }

  lemma DropCarries(s: State, i: Item)
    requires RecoveryEnabled(s, DropCheckpoint) && MainCarries(s.main, i) && i != s.main.items[0]
    ensures Carried(ApplyRecovery(s, DropCheckpoint), i)
  {
    assert s.main.items == [s.main.items[0]] + s.main.items[1..];
  }

  lemma RecoveryRest(s: State, step: RecoveryStep, i: Item)
    requires RecoveryEnabled(s, step) && Carried(s, i) && !MainCarries(s.main, i)
    ensures Carried(ApplyRecovery(s, step), i)
  {
    var t := ApplyRecovery(s, step);
    assert t.queue == s.queue && t.slots == s.slots;
    if i in s.pending { assert i in t.pending; }
  }

  lemma RecoveryKeeps(ok: SilverEvent -> bool, s: State, step: RecoveryStep, a: Artifact)
    requires Inv(ok, s) && RecoveryEnabled(s, step) && InHand(s, a)
    ensures InHand(ApplyRecovery(s, step), a)
  {
    var i :| Carried(s, i) && Bears(i, a);
    if !MainCarries(s.main, i) {
      RecoveryRest(s, step, i);
    } else if step.File? {
      LightCurvesOnly(ok, s);
      FileCarries(s, i);
    } else if step.DropCheckpoint? {
      DropCarries(s, i);
    } else {
      RecoveryCarries(s, step, i);
    }
  }

  lemma LightCurvesOnly(ok: SilverEvent -> bool, s: State)
    requires Inv(ok, s) && s.main.Filing?
    ensures forall x :: x in s.pending + s.main.lcs ==> x.event.kind == LightCurve
  {
    forall x | x in s.pending + s.main.lcs ensures x.event.kind == LightCurve {
      if x in s.pending {
        EveryMember(EntryOk(ok, s.store), s.pending, x);
      } else {
        EveryMember(EntryOk(ok, s.store), s.main.lcs, x);
      }
    }
  }

  // ---- The main loop ----------------------------------------------------

  /** A batch that takes a light curve out of the pending list holds one of the same event id. */
  lemma ConsumedBy(pending: seq<Item>, b: Batch, i: Item) returns (j: Item)
    requires i in pending && i !in Consume(pending, b)
    ensures j in b && j.event.kind == LightCurve && j.event.eventId == i.event.eventId
  {
    FilterMember(KeptBy(ConsumedIds(b)), pending, i);
    j :| j in b && IsQueueEntry(j) && IdOf(j) == IdOf(i);
  }

  lemma BatchItemGood(ok: SilverEvent -> bool, s: Store, batches: seq<Batch>, b: Batch, j: Item)
    requires Every(BatchOk(ok, s), batches) && b in batches && j in b
    ensures ok(j.event)
  {
    EveryMember(BatchOk(ok, s), batches, b);
    EveryMember(ItemOk(ok, s), b, j);
  }

  lemma ConsumedIsCarried(ok: SilverEvent -> bool, s: State, i: Item) returns (j: Item)
    requires Universe(ok, s.store.home) && LoopEnabled(ok, s, ConsumeNext)
    requires Every(EntryOk(ok, s.store), s.pending) && Every(BatchOk(ok, s.store), s.main.batches)
    requires i in s.pending && i.event.kind == LightCurve
    ensures Carried(ApplyLoop(ok, s, ConsumeNext), j) && Bears(j, ArtifactOf(i.event))
  {
    var b := s.main.batches[0];
    if i in Consume(s.pending, b) {
      j := i;
    } else {
      j := ConsumedBy(s.pending, b, i);
      EveryMember(EntryOk(ok, s.store), s.pending, i);
      BatchItemGood(ok, s.store, s.main.batches, b, j);
      assert MainCarries(Enqueueing(b, s.main.batches[1..]), j);
    }
  }

  lemma ConsumeRest(ok: SilverEvent -> bool, s: State, i: Item)
    requires LoopEnabled(ok, s, ConsumeNext) && Carried(s, i) && i !in s.pending
    ensures Carried(ApplyLoop(ok, s, ConsumeNext), i)
  {
    var m, t := s.main, ApplyLoop(ok, s, ConsumeNext);
    assert m.batches == [m.batches[0]] + m.batches[1..];
    assert t.queue == s.queue && t.slots == s.slots;
  }

  lemma EnqueueCarries(ok: SilverEvent -> bool, s: State, i: Item)
    requires LoopEnabled(ok, s, Enqueue) && Carried(s, i)
    ensures Carried(ApplyLoop(ok, s, Enqueue), i)
  {
    var t := ApplyLoop(ok, s, Enqueue);
    assert t.slots == s.slots && t.pending == s.pending;
    assert s.main.batch in t.queue && forall b :: b in s.queue ==> b in t.queue;
    if MainCarries(s.main, i) && i !in s.main.batch {
      assert t.main.Dispatching? && t.main.batches == s.main.batches;
    }
  }

  lemma LoopCarries(ok: SilverEvent -> bool, s: State, step: LoopStep, i: Item)
    requires LoopEnabled(ok, s, step) && !step.ConsumeNext? && !step.Enqueue? && Carried(s, i)
    ensures Carried(ApplyLoop(ok, s, step), i)
  {
    var t := ApplyLoop(ok, s, step);
    assert t.queue == s.queue && t.slots == s.slots;
    assert forall x :: x in s.pending ==> x in t.pending;
  }

  lemma LoopKeeps(ok: SilverEvent -> bool, s: State, step: LoopStep, a: Artifact)
    requires Universe(ok, s.store.home) && Inv(ok, s) && LoopEnabled(ok, s, step) && InHand(s, a)
    ensures InHand(ApplyLoop(ok, s, step), a)
  {
    var i :| Carried(s, i) && Bears(i, a);
    if step.ConsumeNext? {
      if i in s.pending {
        var j := ConsumedIsCarried(ok, s, i);
      } else {
        ConsumeRest(ok, s, i);
      }
    } else if step.Enqueue? {
      EnqueueCarries(ok, s, i);
    } else {
      LoopCarries(ok, s, step, i);
    }
  }

  // ---- Workers ----------------------------------------------------------

  lemma ClaimCarries(s: State, w: nat, i: Item)
    requires WorkEnabled(s, w, Claim) && Carried(s, i)
    ensures Carried(ApplyWork(s, w, Claim), i)
  {
    var t := ApplyWork(s, w, Claim);
    assert s.queue == [s.queue[0]] + s.queue[1..];
    if i in s.queue[0] {
      assert !t.slots[w].Vacant? && i in t.slots[w].batch;
    } else if WorkerCarries(s, i) {
      var v :| 0 <= v < |s.slots| && !s.slots[v].Vacant? && i in s.slots[v].batch;
      assert t.slots[v] == s.slots[v];
    }
  }

  lemma RequeueCarries(s: State, w: nat, i: Item)
    requires WorkEnabled(s, w, Requeue) && Carried(s, i)
    ensures Carried(ApplyWork(s, w, Requeue), i)
  {
    var t := ApplyWork(s, w, Requeue);
    assert s.slots[w].batch in t.queue && forall b :: b in s.queue ==> b in t.queue;
    if WorkerCarries(s, i) && i !in s.slots[w].batch {
      var v :| 0 <= v < |s.slots| && !s.slots[v].Vacant? && i in s.slots[v].batch;
      assert t.slots[v] == s.slots[v];
    }
  }

  /** A worker goes on holding its batch in every step but a claim, a finish and a requeue. */
  lemma HoldsOn(s: State, w: nat, step: WorkStep)
    requires WorkEnabled(s, w, step) && !step.Claim? && !step.Finish? && !step.Requeue?
    ensures var t := ApplyWork(s, w, step);
      && t.pending == s.pending && t.queue == s.queue && t.main == s.main && |t.slots| == |s.slots|
      && !s.slots[w].Vacant? && !t.slots[w].Vacant? && t.slots[w].batch == s.slots[w].batch
      && forall v :: 0 <= v < |s.slots| && v != w ==> t.slots[v] == s.slots[v]
  {}

  lemma WorkCarries(s: State, w: nat, step: WorkStep, i: Item)
    requires WorkEnabled(s, w, step) && Carried(s, i) && (step.Finish? ==> i !in s.slots[w].batch)
    ensures Carried(ApplyWork(s, w, step), i)
  {
    var t := ApplyWork(s, w, step);
    if step.Claim? {
      ClaimCarries(s, w, i);
    } else if step.Requeue? {
      RequeueCarries(s, w, i);
    } else {
      if !step.Finish? { HoldsOn(s, w, step); }
      if WorkerCarries(s, i) {
        var v :| 0 <= v < |s.slots| && !s.slots[v].Vacant? && i in s.slots[v].batch;
        assert !t.slots[v].Vacant? && i in t.slots[v].batch;
      }
    }
  }

  // ---- Every step, every run --------------------------------------------

  lemma StepKeeps(ok: SilverEvent -> bool, s: State, step: Step, a: Artifact)
    requires Universe(ok, s.store.home) && Inv(ok, s) && Enabled(ok, s, step) && InHand(s, a)
    requires !step.Crash? && !Finishes(s, step, a)
    ensures InHand(Apply(ok, s, step), a)
  {
    match step
    case World(step) => WorldKeeps(ok, s, step, a);
    case Recovery(step) => RecoveryKeeps(ok, s, step, a);
    case Loop(step) => LoopKeeps(ok, s, step, a);
    case Work(w, work) =>
      var i :| Carried(s, i) && Bears(i, a);
      assert work.Finish? ==> i !in s.slots[w].batch;
      WorkCarries(s, w, work, i);
  }

  lemma DoneBatch(s: Store, b: Batch, i: Item)
    requires Every(DoneOk(s), b) && i in b && i.event.kind == LightCurve
    ensures Extracted(s, ArtifactOf(i.event))
  {
    EveryMember(DoneOk(s), b, i);
  }

  /** A batch is finished only once its light curves are in a committed research-ready manifest. */
  lemma FinishedIsExtracted(ok: SilverEvent -> bool, s: State, w: nat, a: Artifact)
    requires Inv(ok, s) && WorkEnabled(s, w, Finish) && exists i :: i in s.slots[w].batch && Bears(i, a)
    ensures Extracted(ApplyWork(s, w, Finish).store, a)
  {
    SlotItems(ok, s, w);
    var i :| i in s.slots[w].batch && Bears(i, a);
    DoneBatch(s.store, s.slots[w].batch, i);
  }

  /** A run of one process: no crash. */
  predicate Uninterrupted(steps: seq<Step>) { forall n :: 0 <= n < |steps| ==> !steps[n].Crash? }

  /**
   Nothing in hand is forgotten: over every run without a crash, whatever failures and retries it contains, a light
   curve the process has in hand is still in hand at the end, or in a committed research-ready manifest.
   */
  lemma {:induction false} InHandUntilExtracted(ok: SilverEvent -> bool, s: State, steps: seq<Step>, a: Artifact)
    requires Universe(ok, s.store.home) && Inv(ok, s) && Runnable(ok, s, steps) && Uninterrupted(steps)
    requires InHand(s, a) || Extracted(s.store, a)
    ensures InHand(Exec(ok, s, steps), a) || Extracted(Exec(ok, s, steps).store, a)
    decreases |steps|
  {
    if steps != [] {
      var t := Apply(ok, s, steps[0]);
      StepInv(ok, s, steps[0]);
      ApplyKeepsEntrusted(ok, s, steps[0]);
      if InHand(s, a) && !Extracted(s.store, a) {
        if Finishes(s, steps[0], a) {
          FinishedIsExtracted(ok, s, steps[0].slot, a);
        } else {
          StepKeeps(ok, s, steps[0], a);
        }
      }
      InHandUntilExtracted(ok, t, steps[1..], a);
    }
  }

  // ---- What comes into hand ---------------------------------------------

  /** A light curve taken for a repeat is one whose revision is pending. */
  ghost predicate RepeatsPend(s: State)
  {
    (s.main.Acking? || s.main.Appending?) && !s.main.isNew && s.main.event.kind == LightCurve ==>
      HasRevision(s.pending, RevisionOf(s.main.event))
  }

  lemma LoopRepeats(ok: SilverEvent -> bool, s: State, step: LoopStep)
    requires RepeatsPend(s) && LoopEnabled(ok, s, step)
    ensures RepeatsPend(ApplyLoop(ok, s, step))
  {}

  lemma RecoveryRepeats(s: State, step: RecoveryStep)
    requires RepeatsPend(s) && RecoveryEnabled(s, step)
    ensures RepeatsPend(ApplyRecovery(s, step))
  {}

  lemma WorkRepeats(s: State, w: nat, step: WorkStep)
    requires RepeatsPend(s) && WorkEnabled(s, w, step)
    ensures RepeatsPend(ApplyWork(s, w, step))
  {
    assert ApplyWork(s, w, step).main == s.main && ApplyWork(s, w, step).pending == s.pending;
  }

  lemma {:induction false} RunRepeats(ok: SilverEvent -> bool, s: State, steps: seq<Step>)
    requires RepeatsPend(s) && Runnable(ok, s, steps)
    ensures RepeatsPend(Exec(ok, s, steps))
    decreases |steps|
  {
    if steps != [] {
      match steps[0] {
        case Recovery(step) => RecoveryRepeats(s, step);
        case Loop(step) => LoopRepeats(ok, s, step);
        case Work(w, step) => WorkRepeats(s, w, step);
        case _ =>
      }
      RunRepeats(ok, Apply(ok, s, steps[0]), steps[1..]);
    }
  }

  /** A light curve whose message was acknowledged is in hand after the main loop dealt with it, new or not. */
  lemma AppendedIsInHand(ok: SilverEvent -> bool, s: State)
    requires Inv(ok, s) && RepeatsPend(s) && LoopEnabled(ok, s, Append) && s.main.event.kind == LightCurve
    ensures InHand(ApplyLoop(ok, s, Append), ArtifactOf(s.main.event))
  {
    var e, t := s.main.event, ApplyLoop(ok, s, Append);
    if s.main.isNew {
      assert PendingItem(e) in t.pending;
      assert Carried(t, PendingItem(e)) && Bears(PendingItem(e), ArtifactOf(e));
    } else {
      var n :| 0 <= n < |s.pending| && RevisionOf(s.pending[n].event) == RevisionOf(e);
      EveryMember(EntryOk(ok, s.store), s.pending, s.pending[n]);
      assert Carried(t, s.pending[n]) && Bears(s.pending[n], ArtifactOf(e));
    }
  }

  /** What recovery queues is in hand, and so is a checkpoint that startup keeps. */
  lemma RecoveredIsInHand(s: State)
    requires RecoveryEnabled(s, Recover) && NextRecovered(s).Some? && NextRecovered(s).value.kind == LightCurve
    ensures InHand(ApplyRecovery(s, Recover), ArtifactOf(NextRecovered(s).value))
  {
    var t, i := ApplyRecovery(s, Recover), PendingItem(NextRecovered(s).value);
    assert i in t.main.recovered;
    assert Carried(t, i) && Bears(i, ArtifactOf(i.event));
  }

  lemma KeptIsInHand(s: State)
    requires RecoveryEnabled(s, Prune) && s.main.todo[0].event.objectKey !in s.main.extracted
    requires s.main.todo[0].event.kind == LightCurve
    ensures InHand(ApplyRecovery(s, Prune), ArtifactOf(s.main.todo[0].event))
  {
    var t, i := ApplyRecovery(s, Prune), s.main.todo[0];
    assert i in t.main.kept;
    assert Carried(t, i) && Bears(i, ArtifactOf(i.event));
  }

  /** What holds after any run from a first deployment. */
  lemma RunFacts(ok: SilverEvent -> bool, init: State, steps: seq<Step>)
    requires Universe(ok, init.store.home) && Init(init) && Runnable(ok, init, steps)
    ensures Inv(ok, Exec(ok, init, steps)) && RepeatsPend(Exec(ok, init, steps))
    ensures Exec(ok, init, steps).store.home == init.store.home
  {
    InitInv(ok, init);
    RunInv(ok, init, steps);
    RunRepeats(ok, init, steps);
  }

  /** An entry into hand, followed by a run without a crash. */
  lemma EntryIsHandled(ok: SilverEvent -> bool, s: State, step: Step, after: seq<Step>, a: Artifact)
    requires Universe(ok, s.store.home) && Inv(ok, s) && Enabled(ok, s, step) && InHand(Apply(ok, s, step), a)
    requires Runnable(ok, Apply(ok, s, step), after) && Uninterrupted(after)
    ensures var t := Exec(ok, Apply(ok, s, step), after); InHand(t, a) || Extracted(t.store, a)
  {
    StepInv(ok, s, step);
    ApplyKeepsEntrusted(ok, s, step);
    InHandUntilExtracted(ok, Apply(ok, s, step), after, a);
  }

  /**
   An acknowledged light curve is worked on until it is done: after any run, once the main loop has dealt with its
   message, it is in hand in every continuation without a crash, until it is in a committed research-ready manifest.
   */
  lemma AcknowledgedIsHandled(ok: SilverEvent -> bool, init: State, before: seq<Step>, after: seq<Step>)
    requires Universe(ok, init.store.home) && Init(init) && Runnable(ok, init, before) && Uninterrupted(after)
    requires var s := Exec(ok, init, before);
      s.main.Appending? && s.main.event.kind == LightCurve && Runnable(ok, ApplyLoop(ok, s, Append), after)
    ensures var s := Exec(ok, init, before);
      var t := Exec(ok, ApplyLoop(ok, s, Append), after);
      InHand(t, ArtifactOf(s.main.event)) || Extracted(t.store, ArtifactOf(s.main.event))
  {
    var s := Exec(ok, init, before);
    RunFacts(ok, init, before);
    AppendedIsInHand(ok, s);
    EntryIsHandled(ok, s, Loop(Append), after, ArtifactOf(s.main.event));
  }

  /** So is a light curve that recovery queues, at startup or while the worker is paused. */
  lemma RecoveredIsHandled(ok: SilverEvent -> bool, init: State, before: seq<Step>, after: seq<Step>)
    requires Universe(ok, init.store.home) && Init(init) && Runnable(ok, init, before) && Uninterrupted(after)
    requires var s := Exec(ok, init, before);
      && RecoveryEnabled(s, Recover) && NextRecovered(s).Some? && NextRecovered(s).value.kind == LightCurve
      && Runnable(ok, ApplyRecovery(s, Recover), after)
    ensures var s := Exec(ok, init, before);
      var t, a := Exec(ok, ApplyRecovery(s, Recover), after), ArtifactOf(NextRecovered(s).value);
      InHand(t, a) || Extracted(t.store, a)
  {
    var s := Exec(ok, init, before);
    RunFacts(ok, init, before);
    RecoveredIsInHand(s);
    EntryIsHandled(ok, s, Recovery(Recover), after, ArtifactOf(NextRecovered(s).value));
  }

  // ---- Retry ------------------------------------------------------------

  lemma OneStep(ok: SilverEvent -> bool, s: State, step: Step, rest: seq<Step>)
    requires Enabled(ok, s, step) && Runnable(ok, Apply(ok, s, step), rest)
    ensures Runnable(ok, s, [step] + rest) && Exec(ok, s, [step] + rest) == Exec(ok, Apply(ok, s, step), rest)
  {
    assert ([step] + rest)[1..] == rest;
  }

  lemma Requeues(ok: SilverEvent -> bool, s: State, w: nat) returns (steps: seq<Step>)
    requires w < |s.slots| && s.slots[w].Retrying? && |s.queue| < s.capacity
    ensures Runnable(ok, s, steps) && Exec(ok, s, steps).queue == s.queue + [s.slots[w].batch]
    ensures w < |Exec(ok, s, steps).slots| && Exec(ok, s, steps).slots[w].Vacant?
  {
    OneStep(ok, s, Work(w, Requeue), []);
    steps := [Work(w, Requeue)] + [];
  }

  /**
   Wherever an attempt stands, it can fail and hand its whole batch back to the end of the queue, once there is room,
   leaving the worker free.
   */
  lemma RetryIsPossible(ok: SilverEvent -> bool, s: State, w: nat) returns (steps: seq<Step>)
    requires w < |s.slots| && !s.slots[w].Vacant? && |s.queue| < s.capacity
    ensures Runnable(ok, s, steps) && Exec(ok, s, steps).queue == s.queue + [s.slots[w].batch]
    ensures w < |Exec(ok, s, steps).slots| && Exec(ok, s, steps).slots[w].Vacant?
  {
    if s.slots[w].Retrying? {
      steps := Requeues(ok, s, w);
    } else {
      var rest := Requeues(ok, ApplyWork(s, w, Fail), w);
      OneStep(ok, s, Work(w, Fail), rest);
      steps := [Work(w, Fail)] + rest;
    }
  }
}
