/**
 Batch accounting and the automatic freeze (apps/python-enrichment/runtime/pool.py,
 apps/python-enrichment/runtime/worker.py): the queue, the worker slots, and the two
 counters the main loop reads before it writes PAUSED. A step is a stretch of code
 between two awaits; any interleaving of steps is a run.
 */
module WorkerPool {
  import opened Sequences

  type Ticket = nat

  /** Where a worker slot is with the batch it claimed. */
  datatype Slot =
    | Idle
    | AtGate(batch: Ticket)            // claimed, waiting until control is not PAUSED
    | Building(batch: Ticket)          // past the gate
    | RetryBeforeGate(batch: Ticket)   // the control read at the gate raised
    | RetryAfterGate(batch: Ticket)    // the build raised
    | Dead                             // an exception left the worker task

  datatype Main = Polling | Putting(batch: Ticket) | Freezing

  datatype Mode = Paused | Stream | Batch

  datatype State = State(
    capacity: nat,
    queue: seq<Ticket>,
    slots: seq<Slot>,
    activeBuilds: int,
    queuedBuilds: int,
    pending: nat,
    main: Main,
    mode: Mode,
    // Claims so far that ended without passing the gate.
    misses: nat)

  datatype Step =
    | Intake(pending: nat)
    | Dispatch(batch: Ticket, left: nat)
    | Put
    | DecideFreeze
    | WriteFreeze
    | Operator(mode: Mode)
    | Claim(w: nat)
    | PassGate(w: nat)
    | GateReadFails(w: nat)
    | BuildFails(w: nat)
    | Succeed(w: nat)
    | Requeue(w: nat)
    | Die(w: nat)

  function Max0(n: int): int { if n < 0 then 0 else n }

  predicate SlotIs(s: State, w: nat, p: Slot -> bool) { w < |s.slots| && p(s.slots[w]) }

  predicate Retrying(x: Slot) { x.RetryBeforeGate? || x.RetryAfterGate? }

  /** The guard of the automatic freeze, as the main loop evaluates it. */
  predicate FreezeGuard(s: State)
  {
    s.pending == 0 && s.activeBuilds == 0 && s.queuedBuilds == 0
  }

  predicate Enabled(s: State, step: Step)
  {
    match step
    case Intake(_) => s.main.Polling?
    // A batch whose light curves an earlier one consumed leaves the pending list as it is.
    case Dispatch(_, left) => s.main.Polling? && left <= s.pending
    case Put => s.main.Putting? && |s.queue| < s.capacity
    case DecideFreeze => s.main.Polling? && FreezeGuard(s)
    case WriteFreeze => s.main.Freezing?
    case Operator(_) => true
    case Claim(w) => SlotIs(s, w, (x: Slot) => x.Idle?) && s.queue != []
    case PassGate(w) => SlotIs(s, w, (x: Slot) => x.AtGate?) && s.mode != Paused
    case GateReadFails(w) => SlotIs(s, w, (x: Slot) => x.AtGate?)
    case BuildFails(w) => SlotIs(s, w, (x: Slot) => x.Building?)
    case Succeed(w) => SlotIs(s, w, (x: Slot) => x.Building?)
    case Requeue(w) => SlotIs(s, w, Retrying) && |s.queue| < s.capacity
    case Die(w) => SlotIs(s, w, (x: Slot) => Retrying(x) || x.AtGate?)
  }

  function Apply(s: State, step: Step): State
    requires Enabled(s, step)
  {
    match step
    case Intake(n) => s.(pending := n)
    case Dispatch(b, left) => s.(pending := left, main := Putting(b))
    case Put => s.(queue := s.queue + [s.main.batch], queuedBuilds := s.queuedBuilds + 1, main := Polling)
    case DecideFreeze => s.(main := Freezing)
    case WriteFreeze => s.(mode := Paused, main := Polling)
    case Operator(m) => s.(mode := m)
    case Claim(w) => s.(queue := s.queue[1..], slots := s.slots[w := AtGate(s.queue[0])])
    case PassGate(w) =>
      s.(slots := s.slots[w := Building(s.slots[w].batch)],
         activeBuilds := s.activeBuilds + 1, queuedBuilds := Max0(s.queuedBuilds - 1))
    case GateReadFails(w) => s.(slots := s.slots[w := RetryBeforeGate(s.slots[w].batch)])
    case BuildFails(w) => s.(slots := s.slots[w := RetryAfterGate(s.slots[w].batch)])
    case Succeed(w) => s.(slots := s.slots[w := Idle], activeBuilds := Max0(s.activeBuilds - 1))
    case Requeue(w) =>
      s.(queue := s.queue + [s.slots[w].batch], slots := s.slots[w := Idle],
         queuedBuilds := s.queuedBuilds + 1, activeBuilds := Max0(s.activeBuilds - 1),
         misses := s.misses + if s.slots[w].RetryBeforeGate? then 1 else 0)
    case Die(w) =>
      // A claim lost before `_run_claimed_batch` leaves the counters alone; afterwards `finally` runs.
      s.(slots := s.slots[w := Dead],
         activeBuilds := if s.slots[w].AtGate? then s.activeBuilds else Max0(s.activeBuilds - 1),
         misses := s.misses + if s.slots[w].RetryAfterGate? then 0 else 1)
  }

  predicate Runnable(s: State, steps: seq<Step>)
    decreases |steps|
  {
    steps == [] || (Enabled(s, steps[0]) && Runnable(Apply(s, steps[0]), steps[1..]))
  }

  function Exec(s: State, steps: seq<Step>): State
    requires Runnable(s, steps)
    decreases |steps|
  {
    if steps == [] then s else Exec(Apply(s, steps[0]), steps[1..])
  }

  predicate Init(s: State)
  {
    && s.queue == [] && s.activeBuilds == 0 && s.queuedBuilds == 0 && s.main == Polling && s.misses == 0
    && forall w :: 0 <= w < |s.slots| ==> s.slots[w] == Idle
  }

  // ---- What the counters count ------------------------------------------

  function BeforeGate(x: Slot): nat { if x.AtGate? || x.RetryBeforeGate? then 1 else 0 }

  function AfterGate(x: Slot): nat { if x.Building? || x.RetryAfterGate? then 1 else 0 }

  /** Batches the process holds anywhere: queued, claimed, or being put. */
  function InMemory(s: State): nat
  {
    |s.queue| + Total(BeforeGate, s.slots) + Total(AfterGate, s.slots) + if s.main.Putting? then 1 else 0
  }

  ghost predicate Inv(s: State)
  {
    && s.queuedBuilds == |s.queue| + Total(BeforeGate, s.slots) + s.misses
    && 0 <= s.activeBuilds <= Total(AfterGate, s.slots) <= s.activeBuilds + s.misses
    && (s.main.Freezing? ==> s.pending == 0 && InMemory(s) == 0)
  }

  lemma TotalUpdate(w: Slot -> nat, s: seq<Slot>, i: nat, x: Slot)
    requires i < |s|
    ensures Total(w, s[i := x]) + w(s[i]) == Total(w, s) + w(x)
    ensures Total(w, s) >= w(s[i])
  {
    TotalWithoutOne(w, s, i);
    TotalWithoutOne(w, s[i := x], i);
    assert s[i := x][..i] + s[i := x][i + 1..] == s[..i] + s[i + 1..];
  }

  lemma {:induction false} TotalZero(w: Slot -> nat, s: seq<Slot>)
    requires forall i :: 0 <= i < |s| ==> w(s[i]) == 0
    ensures Total(w, s) == 0
  {
    if s != [] {
      TotalZero(w, s[..|s| - 1]);
    }
  }

  lemma InitInv(s: State)
    requires Init(s)
    ensures Inv(s)
  {
    TotalZero(BeforeGate, s.slots);
    TotalZero(AfterGate, s.slots);
  }

  function SlotOf(step: Step): nat
  {
    match step
    case Claim(w) => w case PassGate(w) => w case GateReadFails(w) => w case BuildFails(w) => w
    case Succeed(w) => w case Requeue(w) => w case Die(w) => w
    case _ => 0
  }

  lemma StepInv(s: State, step: Step)
    requires Inv(s) && Enabled(s, step)
    ensures Inv(Apply(s, step))
  {
    var t := Apply(s, step);
    if t.slots != s.slots {
      var w := SlotOf(step);
      TotalUpdate(BeforeGate, s.slots, w, t.slots[w]);
      TotalUpdate(AfterGate, s.slots, w, t.slots[w]);
    }
  }

  lemma {:induction false} RunInv(s: State, steps: seq<Step>)
    requires Inv(s) && Runnable(s, steps)
    ensures Inv(Exec(s, steps)) && Exec(s, steps).misses >= s.misses
    decreases |steps|
  {
    if steps != [] {
      StepInv(s, steps[0]);
      RunInv(Apply(s, steps[0]), steps[1..]);
    }
  }

  // ---- Main results -----------------------------------------------------

  /**
   In every reachable state the two counters reach zero together exactly when the process holds no queued
   or claimed batch and every claim so far passed the gate.
   */
  lemma CountersZeroExactly(init: State, steps: seq<Step>)
    requires Init(init) && Runnable(init, steps)
    ensures var s := Exec(init, steps);
      s.activeBuilds == 0 && s.queuedBuilds == 0 <==>
        s.queue == [] && Total(BeforeGate, s.slots) == 0 && Total(AfterGate, s.slots) == 0 && s.misses == 0
  {
    InitInv(init);
    RunInv(init, steps);
  }

  /** The counters never undercount: whatever control reads failed, their sum covers the batches held. */
  lemma CountersCoverBatches(init: State, steps: seq<Step>)
    requires Init(init) && Runnable(init, steps)
    ensures var s := Exec(init, steps);
      s.activeBuilds + s.queuedBuilds >= |s.queue| + Total(BeforeGate, s.slots) + Total(AfterGate, s.slots)
  {
    InitInv(init);
    RunInv(init, steps);
  }

  /** PAUSED is written by the service only while nothing is pending and no batch is in memory. */
  lemma FreezeIsSafe(init: State, steps: seq<Step>)
    requires Init(init) && Runnable(init, steps) && Enabled(Exec(init, steps), WriteFreeze)
    ensures Exec(init, steps).pending == 0 && InMemory(Exec(init, steps)) == 0
  {
    InitInv(init);
    RunInv(init, steps);
  }

  /** The clamp on the queue counter never binds, in any run. */
  lemma QueueClampNeverBinds(init: State, steps: seq<Step>, w: nat)
    requires Init(init) && Runnable(init, steps) && Enabled(Exec(init, steps), PassGate(w))
    ensures Exec(init, steps).queuedBuilds >= 1
  {
    InitInv(init);
    RunInv(init, steps);
    var s := Exec(init, steps);
    TotalUpdate(BeforeGate, s.slots, w, Idle);
  }

  /** The clamp on the active counter never binds while every claim has passed the gate. */
  lemma ActiveClampNeverBinds(init: State, steps: seq<Step>, w: nat)
    requires Init(init) && Runnable(init, steps)
    requires var s := Exec(init, steps); s.misses == 0 && w < |s.slots| && AfterGate(s.slots[w]) == 1
    ensures Exec(init, steps).activeBuilds >= 1
    ensures Exec(init, steps).activeBuilds == Total(AfterGate, Exec(init, steps).slots)
  {
    InitInv(init);
    RunInv(init, steps);
    var s := Exec(init, steps);
    TotalUpdate(AfterGate, s.slots, w, Idle);
  }

  /** Once one claim has missed the gate, the automatic freeze never fires again in that process. */
  lemma OneMissDisablesFreeze(init: State, before: seq<Step>, after: seq<Step>)
    requires Init(init) && Runnable(init, before) && Exec(init, before).misses > 0
      && Runnable(Exec(init, before), after)
    ensures Runnable(init, before + after) && !FreezeGuard(Exec(init, before + after))
  {
    RunConcat(init, before, after);
    InitInv(init);
    RunInv(init, before);
    RunInv(Exec(init, before), after);
  }

  ghost predicate Path(states: seq<State>, steps: seq<Step>)
  {
    && |states| == |steps| + 1
    && forall i :: 0 <= i < |steps| ==> Enabled(states[i], steps[i]) && Apply(states[i], steps[i]) == states[i + 1]
  }

  lemma {:induction false} PathRuns(states: seq<State>, steps: seq<Step>)
    requires Path(states, steps)
    ensures Runnable(states[0], steps) && Exec(states[0], steps) == states[|steps|]
    decreases |steps|
  {
    if steps != [] {
      PathRuns(states[1..], steps[1..]);
    }
  }

  lemma {:induction false} RunConcat(s: State, a: seq<Step>, b: seq<Step>)
    requires Runnable(s, a) && Runnable(Exec(s, a), b)
    ensures Runnable(s, a + b) && Exec(s, a + b) == Exec(Exec(s, a), b)
    decreases |a|
  {
    if a == [] {
      assert a + b == b;
    } else {
      assert (a + b)[1..] == a[1..] + b && (a + b)[0] == a[0];
      RunConcat(Apply(s, a[0]), a[1..], b);
    }
  }

  /** A pool of one worker in BATCH mode. */
  function OneWorker(queue: seq<Ticket>, slot: Slot, active: int, queued: int, pending: nat, misses: nat): State
  {
    State(2, queue, [slot], active, queued, pending, Polling, Batch, misses)
  }

  const MISSED_CLAIM := [Claim(0), GateReadFails(0), Requeue(0)]

  lemma MissedClaimRun(b: Ticket)
    ensures var s := OneWorker([b], Idle, 0, 1, 0, 0);
      Runnable(s, MISSED_CLAIM) && Exec(s, MISSED_CLAIM) == OneWorker([b], Idle, 0, 2, 0, 1)
  {
    PathRuns([OneWorker([b], Idle, 0, 1, 0, 0), OneWorker([], AtGate(b), 0, 1, 0, 0),
              OneWorker([], RetryBeforeGate(b), 0, 1, 0, 0), OneWorker([b], Idle, 0, 2, 0, 1)], MISSED_CLAIM);
  }

  const COMMITTED_CLAIM := [Claim(0), PassGate(0), Succeed(0)]

  lemma CommittedClaimRun(b: Ticket, queued: nat, misses: nat)
    requires queued >= 1
    ensures var s := OneWorker([b], Idle, 0, queued, 0, misses);
      Runnable(s, COMMITTED_CLAIM) && Exec(s, COMMITTED_CLAIM) == OneWorker([], Idle, 0, queued - 1, 0, misses)
  {
    PathRuns([OneWorker([b], Idle, 0, queued, 0, misses), OneWorker([], AtGate(b), 0, queued, 0, misses),
              OneWorker([], Building(b), 1, queued - 1, 0, misses), OneWorker([], Idle, 0, queued - 1, 0, misses)],
             COMMITTED_CLAIM);
  }

  lemma DispatchRun(b: Ticket)
    ensures var s := OneWorker([], Idle, 0, 0, 1, 0);
      Runnable(s, [Dispatch(b, 0), Put]) && Exec(s, [Dispatch(b, 0), Put]) == OneWorker([b], Idle, 0, 1, 0, 0)
  {
    PathRuns([OneWorker([], Idle, 0, 0, 1, 0), OneWorker([], Idle, 0, 0, 0, 0).(main := Putting(b)),
              OneWorker([b], Idle, 0, 1, 0, 0)], [Dispatch(b, 0), Put]);
  }

  /**
   A run with one failed control read at the gate: the batch is retried and committed, nothing is left
   pending or in memory, and still the freeze guard is false. Without the failed read the same work ends
   with the guard true.
   */
  lemma FailedGateReadRun(b: Ticket)
    ensures var init := OneWorker([], Idle, 0, 0, 1, 0);
      var failing := [Dispatch(b, 0), Put] + MISSED_CLAIM + COMMITTED_CLAIM;
      var smooth := [Dispatch(b, 0), Put] + COMMITTED_CLAIM;
      && Init(init) && Runnable(init, failing) && Runnable(init, smooth)
      && InMemory(Exec(init, failing)) == 0 && Exec(init, failing).pending == 0
      && !FreezeGuard(Exec(init, failing)) && FreezeGuard(Exec(init, smooth))
  {
    var init, put := OneWorker([], Idle, 0, 0, 1, 0), [Dispatch(b, 0), Put];
    DispatchRun(b);
    MissedClaimRun(b);
    CommittedClaimRun(b, 2, 1);
    CommittedClaimRun(b, 1, 0);
    RunConcat(init, put, MISSED_CLAIM);
    RunConcat(init, put + MISSED_CLAIM, COMMITTED_CLAIM);
    RunConcat(init, put, COMMITTED_CLAIM);
    TotalZero(BeforeGate, [Idle]);
    TotalZero(AfterGate, [Idle]);
  }

  // ---- The pool object --------------------------------------------------

  /** One attempt at a claimed batch, as steps of the model. */
  ghost predicate Attempts(s: State, t: State, w: nat, read: bool, builds: bool)
  {
    if !read then Enabled(s, GateReadFails(w)) && Steps2(s, GateReadFails(w), Requeue(w), t)
    else if builds then Enabled(s, PassGate(w)) && Steps2(s, PassGate(w), Succeed(w), t)
    else Enabled(s, PassGate(w)) && Steps2(Apply(s, PassGate(w)), BuildFails(w), Requeue(w), t)
  }

  ghost predicate Steps2(s: State, first: Step, second: Step, t: State)
  {
    Enabled(s, first) && Enabled(Apply(s, first), second) && t == Apply(Apply(s, first), second)
  }

  /** The pool's fields; each method is the code between two awaits and performs one step of the model. */
  class Pool {
    const capacity: nat
    var queue: seq<Ticket>
    var slots: seq<Slot>
    var activeBuilds: int
    var queuedBuilds: int
    ghost var misses: nat

    constructor (concurrency: nat)
      ensures capacity == concurrency * 2 && |slots| == concurrency
      ensures forall pending: nat, mode: Mode :: Init(View(pending, Polling, mode))
    {
      capacity := concurrency * 2;
      queue, activeBuilds, queuedBuilds := [], 0, 0;
      slots := seq(concurrency, _ => Idle);
      misses := 0;
    }

    /** The model state this pool is part of, beside the main loop and the operator's control. */
    ghost function View(pending: nat, main: Main, mode: Mode): State
      reads this
    {
      State(capacity, queue, slots, activeBuilds, queuedBuilds, pending, main, mode, misses)
    }

    /** `enqueue`, once the bounded queue has room. */
    method Enqueue(batch: Ticket)
      requires |queue| < capacity
      modifies this`queue, this`queuedBuilds
      ensures queue == old(queue) + [batch] && queuedBuilds == old(queuedBuilds) + 1
      ensures forall pending: nat, mode: Mode ::
        View(pending, Polling, mode) == Apply(old(View(pending, Putting(batch), mode)), Put)
    {
      queue := queue + [batch];
      queuedBuilds := queuedBuilds + 1;
    }

    method Take(w: nat)
      requires w < |slots| && slots[w].Idle? && queue != []
      modifies this`queue, this`slots
      ensures forall pending: nat, main: Main, mode: Mode ::
        View(pending, main, mode) == Apply(old(View(pending, main, mode)), Claim(w))
    {
      slots := slots[w := AtGate(queue[0])];
      queue := queue[1..];
    }

    /** Leave the pause gate: one more active build, one fewer queued. */
    method EnterBuild(w: nat, mode: Mode)
      requires w < |slots| && slots[w].AtGate? && mode != Paused
      modifies this`slots, this`activeBuilds, this`queuedBuilds
      ensures slots == old(slots)[w := Building(old(slots)[w].batch)]
      ensures activeBuilds == old(activeBuilds) + 1 && queuedBuilds == Max0(old(queuedBuilds) - 1)
      ensures forall pending: nat, main: Main ::
        View(pending, main, mode) == Apply(old(View(pending, main, mode)), PassGate(w))
    {
      slots := slots[w := Building(slots[w].batch)];
      activeBuilds := activeBuilds + 1;
      queuedBuilds := if queuedBuilds - 1 < 0 then 0 else queuedBuilds - 1;
    }

    /** The handler's `enqueue` followed by `finally`, which always takes one off the active builds. */
    method RetryAttempt(w: nat)
      requires w < |slots| && Retrying(slots[w]) && |queue| < capacity
      modifies this
      ensures queue == old(queue) + [old(slots)[w].batch] && slots == old(slots)[w := Idle]
      ensures activeBuilds == Max0(old(activeBuilds) - 1) && queuedBuilds == old(queuedBuilds) + 1
      ensures forall pending: nat, main: Main, mode: Mode ::
        View(pending, main, mode) == Apply(old(View(pending, main, mode)), Requeue(w))
    {
      misses := misses + if slots[w].RetryBeforeGate? then 1 else 0;
      Enqueue(slots[w].batch);
      slots := slots[w := Idle];
      activeBuilds := if activeBuilds - 1 < 0 then 0 else activeBuilds - 1;
    }

    method FinishAttempt(w: nat)
      requires w < |slots| && slots[w].Building?
      modifies this`slots, this`activeBuilds
      ensures slots == old(slots)[w := Idle] && activeBuilds == Max0(old(activeBuilds) - 1)
      ensures forall pending: nat, main: Main, mode: Mode ::
        View(pending, main, mode) == Apply(old(View(pending, main, mode)), Succeed(w))
    {
      slots := slots[w := Idle];
      activeBuilds := if activeBuilds - 1 < 0 then 0 else activeBuilds - 1;
    }

    /** The build of a claimed batch raised: the handler will retry it. */
    method FailAttempt(w: nat)
      requires w < |slots| && slots[w].Building?
      modifies this`slots
      ensures slots == old(slots)[w := RetryAfterGate(old(slots)[w].batch)]
      ensures forall pending: nat, main: Main, mode: Mode ::
        View(pending, main, mode) == Apply(old(View(pending, main, mode)), BuildFails(w))
    {
      slots := slots[w := RetryAfterGate(slots[w].batch)];
    }

    /** The control read at the gate raised: the handler will retry the batch. */
    method FailGate(w: nat)
      requires w < |slots| && slots[w].AtGate?
      modifies this`slots
      ensures slots == old(slots)[w := RetryBeforeGate(old(slots)[w].batch)]
      ensures forall pending: nat, main: Main, mode: Mode ::
        View(pending, main, mode) == Apply(old(View(pending, main, mode)), GateReadFails(w))
    {
      slots := slots[w := RetryBeforeGate(slots[w].batch)];
    }

    /**
     `_run_claimed_batch`, where `read` and `builds` say whether the control read and the build succeed:
     the batch is finished, or handed back with or without having been counted as active.
     */
    method RunClaimedBatch(w: nat, mode: Mode, read: bool, builds: bool)
      requires w < |slots| && slots[w].AtGate? && mode != Paused && |queue| < capacity
      modifies this
      ensures forall pending: nat, main: Main ::
        Attempts(old(View(pending, main, mode)), View(pending, main, mode), w, read, builds)
      ensures queue == old(queue) + if read && builds then [] else [old(slots)[w].batch]
      ensures slots == old(slots)[w := Idle]
      ensures queuedBuilds - |queue|
        == if read then Max0(old(queuedBuilds) - 1) - old(|queue|) else old(queuedBuilds) - old(|queue|)
      ensures activeBuilds == if read then Max0(old(activeBuilds)) else Max0(old(activeBuilds) - 1)
    {
      if !read {
        FailGate(w);
        RetryAttempt(w);
        return;
      }
      EnterBuild(w, mode);
      if builds {
        FinishAttempt(w);
      } else {
        FailAttempt(w);
        RetryAttempt(w);
      }
    }
  }
}
