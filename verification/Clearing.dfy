/**
 How a batch leaves the store once its snapshot is announced
 (apps/python-enrichment/runtime/pool.py): the protocol deletes its checkpoints one at a
 time, among the steps of everybody else.
 */
module Clearing {
  import opened Events
  import opened Checkpoints
  import opened Protocol
  import opened Custody

  // ---- Undisturbed ------------------------------------------------------

  function Clears(w: nat, n: nat): seq<Step> { seq(n, _ => Work(w, Clear)) }

  lemma WithoutMore(s: Store, a: set<Place>, b: set<Place>)
    ensures Without(Without(s, a), b) == Without(s, a + b)
  {}

  lemma PlacesFrom(home: Id, items: seq<Item>, n: nat)
    requires n < |items|
    ensures QueuePlaces(home, items[n..]) == QueuePlaces(home, [items[n]]) + QueuePlaces(home, items[n + 1..])
  {
    assert items[n..] == [items[n]] + items[n + 1..];
  }

  lemma ClearDeletes(s: State, w: nat)
    requires WorkEnabled(s, w, Clear)
    ensures var x := s.slots[w];
      ApplyWork(s, w, Clear).store == Without(s.store, QueuePlaces(s.store.home, [x.batch[x.next]]))
  {}

  lemma {:induction false} ClearRun(ok: SilverEvent -> bool, s: State, w: nat, b: Batch, n: nat)
    requires w < |s.slots| && n <= |b| && s.slots[w] == Slot.Clearing(b, n)
    ensures Runnable(ok, s, Clears(w, |b| - n))
    ensures Exec(ok, s, Clears(w, |b| - n))
      == s.(slots := s.slots[w := Slot.Clearing(b, |b|)], store := Without(s.store, QueuePlaces(s.store.home, b[n..])))
    decreases |b| - n
  {
    if n == |b| {
      assert s.slots[w := Slot.Clearing(b, |b|)] == s.slots;
      assert QueuePlaces(s.store.home, b[n..]) == {};
    } else {
      var t := ApplyWork(s, w, Clear);
      ClearDeletes(s, w);
      PlacesFrom(s.store.home, b, n);
      WithoutMore(s.store, QueuePlaces(s.store.home, [b[n]]), QueuePlaces(s.store.home, b[n + 1..]));
      ClearRun(ok, t, w, b, n + 1);
      assert t.slots[w := Slot.Clearing(b, |b|)] == s.slots[w := Slot.Clearing(b, |b|)];
      assert Clears(w, |b| - n)[1..] == Clears(w, |b| - (n + 1));
    }
  }

  /**
   A worker left alone after its announcement does what `clear_pending` does to the store, one deletion an item, and
   is then done with the batch.
   */
  lemma ClearingIsClearPending(ok: SilverEvent -> bool, s: State, w: nat)
    requires WorkEnabled(s, w, Announce)
    ensures var b, t := s.slots[w].batch, ApplyWork(s, w, Announce);
      && Runnable(ok, t, Clears(w, |b|)) && WorkEnabled(Exec(ok, t, Clears(w, |b|)), w, Finish)
      && ApplyWork(Exec(ok, t, Clears(w, |b|)), w, Finish)
         == s.(slots := s.slots[w := Vacant], store := Without(s.store, QueuePlaces(s.store.home, b)))
  {
    var b, t := s.slots[w].batch, ApplyWork(s, w, Announce);
    ClearRun(ok, t, w, b, 0);
    assert b[0..] == b;
    assert t.slots[w := Slot.Clearing(b, |b|)][w := Vacant] == s.slots[w := Vacant];
  }

  // ---- Among others -----------------------------------------------------

  function ClearsIn(steps: seq<Step>, w: nat): nat
  {
    if steps == [] then 0 else (if steps[0] == Work(w, Clear) then 1 else 0) + ClearsIn(steps[1..], w)
  }

  /** No crash, and the worker itself does nothing but clear. */
  predicate OnlyClears(steps: seq<Step>, w: nat)
  {
    && Uninterrupted(steps)
    && forall n :: 0 <= n < |steps| && steps[n].Work? && steps[n].slot == w ==> steps[n].work.Clear?
  }

  lemma OthersLeaveSlot(ok: SilverEvent -> bool, s: State, step: Step, w: nat)
    requires Enabled(ok, s, step) && !step.Crash? && w < |s.slots| && (step.Work? ==> step.slot != w)
    ensures |Apply(ok, s, step).slots| == |s.slots| && Apply(ok, s, step).slots[w] == s.slots[w]
  {}

  lemma {:induction false} ClearedSoFar(ok: SilverEvent -> bool, s: State, steps: seq<Step>, w: nat, b: Batch, n: nat)
    requires w < |s.slots| && s.slots[w] == Slot.Clearing(b, n) && Runnable(ok, s, steps) && OnlyClears(steps, w)
    ensures var t := Exec(ok, s, steps);
      |t.slots| == |s.slots| && t.slots[w] == Slot.Clearing(b, n + ClearsIn(steps, w))
    decreases |steps|
  {
    if steps != [] {
      var step, t := steps[0], Apply(ok, s, steps[0]);
      assert forall k :: 0 <= k < |steps[1..]| ==> steps[1..][k] == steps[k + 1];
      if step.Work? && step.slot == w {
        assert t.slots[w] == Slot.Clearing(b, n + 1);
        ClearedSoFar(ok, t, steps[1..], w, b, n + 1);
      } else {
        OthersLeaveSlot(ok, s, step, w);
        ClearedSoFar(ok, t, steps[1..], w, b, n);
      }
    }
  }

  lemma ClearingAt(s: State, w: nat, b: Batch, n: nat)
    requires w < |s.slots| && s.slots[w] == Slot.Clearing(b, n)
    ensures WorkEnabled(s, w, Finish) <==> n >= |b|
    ensures n < |b| ==> WorkEnabled(s, w, Clear)
                        && ApplyWork(s, w, Clear).store == Without(s.store, QueuePlaces(s.store.home, [b[n]]))
  {
    if n < |b| { ClearDeletes(s, w); }
  }

  lemma Announced(s: State, w: nat)
    requires WorkEnabled(s, w, Announce)
    ensures var t := ApplyWork(s, w, Announce); w < |t.slots| && t.slots[w] == Slot.Clearing(s.slots[w].batch, 0)
  {}

  /**
   Whatever others do meanwhile, a worker is done with an announced batch exactly when it has cleared as many times
   as the batch has items; and the clears take the items in order.
   */
  lemma DoneWhenAllCleared(ok: SilverEvent -> bool, s: State, steps: seq<Step>, w: nat)
    requires WorkEnabled(s, w, Announce) && Runnable(ok, ApplyWork(s, w, Announce), steps) && OnlyClears(steps, w)
    ensures var b, t, n := s.slots[w].batch, Exec(ok, ApplyWork(s, w, Announce), steps), ClearsIn(steps, w);
      && (WorkEnabled(t, w, Finish) <==> n >= |b|)
      && (n < |b| ==> WorkEnabled(t, w, Clear)
                      && ApplyWork(t, w, Clear).store == Without(t.store, QueuePlaces(t.store.home, [b[n]])))
  {
    Announced(s, w);
    ClearedSoFar(ok, ApplyWork(s, w, Announce), steps, w, s.slots[w].batch, 0);
    ClearingAt(Exec(ok, ApplyWork(s, w, Announce), steps), w, s.slots[w].batch, ClearsIn(steps, w));
  }
}
