/**
 When retrying stops for good. A worker whose build failed puts its batch back before it
 takes another (apps/python-enrichment/runtime/pool.py), and the put waits for room in the
 bounded queue. Only workers make room.
 */
module Deadlock {
  import opened Wrappers
  import opened Events
  import opened Readiness
  import opened Scheduler
  import opened Protocol
  import opened Custody
  import opened Losses

  // ---- The queue is bounded ---------------------------------------------

  lemma StepBounded(ok: SilverEvent -> bool, s: State, step: Step)
    requires Enabled(ok, s, step) && |s.queue| <= s.capacity
    ensures var t := Apply(ok, s, step); |t.queue| <= t.capacity == s.capacity && |t.slots| == |s.slots|
  {}

  /** The queue never holds more batches than its capacity, in any run. */
  lemma {:induction false} QueueIsBounded(ok: SilverEvent -> bool, s: State, steps: seq<Step>)
    requires Runnable(ok, s, steps) && |s.queue| <= s.capacity
    ensures var t := Exec(ok, s, steps); |t.queue| <= t.capacity == s.capacity && |t.slots| == |s.slots|
    decreases |steps|
  {
    if steps != [] {
      StepBounded(ok, s, steps[0]);
      QueueIsBounded(ok, Apply(ok, s, steps[0]), steps[1..]);
    }
  }

  // ---- A jam ------------------------------------------------------------

  /** Every worker waits to put a failed batch back, and the queue has no room. */
  predicate Jammed(s: State)
  {
    (forall w :: 0 <= w < |s.slots| ==> s.slots[w].Retrying?) && |s.queue| >= s.capacity
  }

  lemma JamStep(ok: SilverEvent -> bool, s: State, step: Step)
    requires Jammed(s) && Enabled(ok, s, step) && !step.Crash?
    ensures var t := Apply(ok, s, step);
      !step.Work? && t.slots == s.slots && t.queue == s.queue && t.capacity == s.capacity
  {}

  predicate NoWork(steps: seq<Step>) { forall n :: 0 <= n < |steps| ==> !steps[n].Work? }

  /** A jam lasts: until the process is restarted no worker does anything and no batch leaves the queue. */
  lemma {:induction false} JamLasts(ok: SilverEvent -> bool, s: State, steps: seq<Step>)
    requires Jammed(s) && Runnable(ok, s, steps) && Uninterrupted(steps)
    ensures var t := Exec(ok, s, steps);
      NoWork(steps) && t.slots == s.slots && t.queue == s.queue && t.capacity == s.capacity
    decreases |steps|
  {
    if steps != [] {
      JamStep(ok, s, steps[0]);
      JamLasts(ok, Apply(ok, s, steps[0]), steps[1..]);
      assert steps == [steps[0]] + steps[1..];
    }
  }

  ghost predicate NeverWorks(ok: SilverEvent -> bool, s: State)
  {
    forall steps :: Runnable(ok, s, steps) && Uninterrupted(steps) ==> NoWork(steps)
  }

  /** Some batch is queued or with a worker. */
  predicate HasBatch(s: State) { s.queue != [] || exists w :: 0 <= w < |s.slots| && !s.slots[w].Vacant? }

  lemma SomeWorkEnabled(s: State) returns (w: nat, step: WorkStep)
    requires s.slots != [] && s.capacity > 0 && HasBatch(s) && !Jammed(s)
    ensures WorkEnabled(s, w, step)
  {
    if x :| 0 <= x < |s.slots| && !s.slots[x].Vacant? && !s.slots[x].Retrying? {
      w, step := x, Fail;
    } else if x :| 0 <= x < |s.slots| && s.slots[x].Retrying? && |s.queue| < s.capacity {
      w, step := x, Requeue;
    } else {
      w :| 0 <= w < |s.slots| && s.slots[w].Vacant?;
      step := Claim;
    }
  }

  /**
   While a batch is queued or with a worker, no worker will ever do anything in this process if and only if every
   worker waits to put a failed batch back and the queue is full.
   */
  lemma JammedExactly(ok: SilverEvent -> bool, s: State)
    requires s.slots != [] && s.capacity > 0 && HasBatch(s)
    ensures NeverWorks(ok, s) <==> Jammed(s)
  {
    if Jammed(s) {
      forall steps | Runnable(ok, s, steps) && Uninterrupted(steps) ensures NoWork(steps) { JamLasts(ok, s, steps); }
    } else {
      var w, step := SomeWorkEnabled(s);
      OneStep(ok, s, Work(w, step), []);
      var steps := [Work(w, step)] + [];
      assert Runnable(ok, s, steps) && Uninterrupted(steps) && steps[0].Work?;
      assert !NoWork(steps);
    }
  }

  // ---- A run into it ----------------------------------------------------

  /** Running, nothing pending, and one target pixel known. */
  predicate Serving(s: State, t: SilverEvent)
  {
    s.main.Running? && s.pending == [] && s.contexts == [ContextItem(t)]
  }

  function BatchOf(a: SilverEvent, t: SilverEvent): Batch { [PendingItem(a), ContextItem(t)] }

  /** A light curve the target pixel is for. */
  ghost predicate Pairs(ok: SilverEvent -> bool, k: Knowledge, a: SilverEvent, t: SilverEvent)
  {
    && ok(a) && ok(t) && a.kind == LightCurve && t.kind == TargetPixel && a.eventId != t.eventId
    && k.contexts == [ContextItem(t)] && TpfFor(k, PendingItem(a)) == Some(ContextItem(t))
  }

  lemma ConsumesOne(a: SilverEvent, t: SilverEvent)
    requires a.kind == LightCurve
    ensures Consume([PendingItem(a)], BatchOf(a, t)) == []
  {
    var i := PendingItem(a);
    assert i in BatchOf(a, t) && IsQueueEntry(i) && IdOf(i) in ConsumedIds(BatchOf(a, t));
    assert [i][..0] == [];
  }

  lemma DispatchOne(ok: SilverEvent -> bool, init: State, s: State, k: Knowledge, a: SilverEvent, t: SilverEvent)
    requires Pairs(ok, k, a, t) && Serving(s.(pending := []), t) && s.pending == [PendingItem(a)]
    requires Reaches(ok, init, s) && |s.queue| < s.capacity
    ensures Reaches(ok, init, s.(pending := [], queue := s.queue + [BatchOf(a, t)]))
  {
    var batch := BatchOf(a, t);
    PairBatch(k, PendingItem(a), ContextItem(t));
    assert batch in Batches(k, s.pending, 1);
    ReachStep(ok, init, s, Loop(Dispatch(k, 1, [batch])));
    var s1 := s.(main := Dispatching([batch]));
    ConsumesOne(a, t);
    ReachStep(ok, init, s1, Loop(ConsumeNext));
    var s2 := s.(pending := [], main := Enqueueing(batch, []));
    assert [batch][1..] == [];
    ReachStep(ok, init, s2, Loop(Enqueue));
  }

  /** One more light curve comes in and its batch is queued. */
  lemma Feed(ok: SilverEvent -> bool, init: State, s: State, k: Knowledge, a: SilverEvent, t: SilverEvent)
    returns (u: State)
    requires Pairs(ok, k, a, t) && Serving(s, t) && Reaches(ok, init, s) && |s.queue| < s.capacity
    ensures Reaches(ok, init, u) && Serving(u, t)
    ensures u.queue == s.queue + [BatchOf(a, t)] && u.slots == s.slots && u.capacity == s.capacity
  {
    IntakeReaches(ok, init, s, a);
    var s1 := TookLightCurve(s, a);
    assert s1.pending == [PendingItem(a)];
    DispatchOne(ok, init, s1, k, a, t);
    u := s1.(pending := [], queue := s.queue + [BatchOf(a, t)]);
  }

  /** Light curves come in until the queue is full. */
  lemma {:induction false} FillQueue(ok: SilverEvent -> bool, init: State, s: State, k: Knowledge, t: SilverEvent,
                                     lc: nat -> SilverEvent, n: nat)
    returns (u: State)
    requires (forall i :: Pairs(ok, k, lc(i), t)) && Serving(s, t) && Reaches(ok, init, s) && |s.queue| <= s.capacity
    ensures Reaches(ok, init, u) && |u.queue| == u.capacity && u.slots == s.slots && u.capacity == s.capacity
    decreases s.capacity - |s.queue|
  {
    if |s.queue| == s.capacity {
      u := s;
    } else {
      var more := Feed(ok, init, s, k, lc(n), t);
      u := FillQueue(ok, init, more, k, t, lc, n + 1);
    }
  }

  /** The first `n` workers hold a batch, the others are free. */
  predicate Busy(slots: seq<Slot>, n: nat)
  {
    && n <= |slots| && (forall w :: 0 <= w < n ==> slots[w].Working?)
    && forall w :: n <= w < |slots| ==> slots[w].Vacant?
  }

  /** Light curves come in until every worker has claimed one. */
  lemma {:induction false} Occupy(ok: SilverEvent -> bool, init: State, s: State, k: Knowledge, t: SilverEvent,
                                  lc: nat -> SilverEvent, n: nat)
    returns (u: State)
    requires (forall i :: Pairs(ok, k, lc(i), t)) && Serving(s, t) && Reaches(ok, init, s)
    requires s.capacity > 0 && s.queue == [] && Busy(s.slots, n)
    ensures Reaches(ok, init, u) && Serving(u, t) && u.queue == [] && u.capacity == s.capacity
    ensures |u.slots| == |s.slots| && Busy(u.slots, |u.slots|)
    decreases |s.slots| - n
  {
    if n == |s.slots| {
      u := s;
    } else {
      var fed := Feed(ok, init, s, k, lc(n), t);
      assert fed.queue == [BatchOf(lc(n), t)] && [BatchOf(lc(n), t)][1..] == [];
      ReachStep(ok, init, fed, Work(n, Claim));
      u := Occupy(ok, init, ApplyWork(fed, n, Claim), k, t, lc, n + 1);
    }
  }

  /** The first `n` workers have failed, the others still work. */
  predicate Failed(slots: seq<Slot>, n: nat)
  {
    && n <= |slots| && (forall w :: 0 <= w < n ==> slots[w].Retrying?)
    && forall w :: n <= w < |slots| ==> slots[w].Working?
  }

  lemma {:induction false} FailAll(ok: SilverEvent -> bool, init: State, s: State, n: nat) returns (u: State)
    requires Reaches(ok, init, s) && Failed(s.slots, n)
    ensures Reaches(ok, init, u) && Failed(u.slots, |u.slots|) && |u.slots| == |s.slots|
    ensures u.queue == s.queue && u.capacity == s.capacity
    decreases |s.slots| - n
  {
    if n == |s.slots| {
      u := s;
    } else {
      ReachStep(ok, init, s, Work(n, Fail));
      u := FailAll(ok, init, ApplyWork(s, n, Fail), n + 1);
    }
  }

  /**
   With any number of workers, any capacity and any light curves that pair with a target pixel: a run from a first
   deployment that fills the queue while every worker builds, and then fails every build. No worker does anything
   after it.
   */
  lemma RetriesJam(ok: SilverEvent -> bool, init: State, k: Knowledge, t: SilverEvent, lc: nat -> SilverEvent)
    returns (u: State)
    requires Init(init) && init.slots != [] && init.capacity > 0 && forall i :: Pairs(ok, k, lc(i), t)
    ensures Reaches(ok, init, u) && Jammed(u) && NeverWorks(ok, u) && |u.queue| == init.capacity
  {
    assert Pairs(ok, k, lc(0), t);
    BootEnds(ok, init);
    var s := init.(main := Running);
    ContextReaches(ok, init, s, t);
    var served := TookTargetPixel(s, t);
    assert served.contexts == [ContextItem(t)];
    var busy := Occupy(ok, init, served, k, t, lc, 0);
    var full := FillQueue(ok, init, busy, k, t, lc, 0);
    u := FailAll(ok, init, full, 0);
    JammedExactly(ok, u);
  }
}
