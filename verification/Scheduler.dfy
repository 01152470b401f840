/**
 Batch admission (apps/python-enrichment/runtime/scheduler.py) and the dispatch the
 main loop performs inline in STREAM mode (apps/python-enrichment/runtime/worker.py).
 */
module Scheduler {
  import opened Wrappers
  import opened Sequences
  import opened Events
  import opened Readiness

  function Targets(batch: Batch): nat { |LightCurvesIn(batch)| }

  function IsFull(size: nat): Batch -> bool { (b: Batch) => Targets(b) > 0 && Targets(b) >= size }

  function IsPartial(size: nat): Batch -> bool { (b: Batch) => 0 < Targets(b) < size }

  predicate Quiet(lastReceivedAt: Option<real>, now: real, idle: real)
  {
    lastReceivedAt.Some? && now - lastReceivedAt.value >= idle
  }

  /** Full batches at once, partial ones only when the source is quiet. */
  function Dispatchable(ready: seq<Batch>, size: nat, quiet: bool): seq<Batch>
  {
    Filter(IsFull(size), ready) + if quiet then Filter(IsPartial(size), ready) else []
  }

  /** A batch goes out when it has a light curve and is full, or partial and the source quiet. */
  lemma DispatchableMeans(ready: seq<Batch>, size: nat, quiet: bool, b: Batch)
    ensures b in Dispatchable(ready, size, quiet) <==> b in ready && Targets(b) > 0 && (Targets(b) >= size || quiet)
  {
    FilterMember(IsFull(size), ready, b);
    FilterMember(IsPartial(size), ready, b);
  }

  method DispatchableReadyBatches(ready: seq<Batch>, size: nat, lastReceivedAt: Option<real>, idle: real, now: real)
    returns (r: seq<Batch>)
    ensures r == Dispatchable(ready, size, Quiet(lastReceivedAt, now, idle))
    ensures forall b :: b in r <==>
        b in ready && Targets(b) > 0
        && (Targets(b) >= size || (lastReceivedAt.Some? && now - lastReceivedAt.value >= idle))
  {
    forall b ensures b in Dispatchable(ready, size, Quiet(lastReceivedAt, now, idle)) <==>
        b in ready && Targets(b) > 0 && (Targets(b) >= size || Quiet(lastReceivedAt, now, idle))
    {
      DispatchableMeans(ready, size, Quiet(lastReceivedAt, now, idle), b);
    }
    var full: seq<Batch>, part: seq<Batch> := [], [];
    for n := 0 to |ready|
      invariant full == Filter(IsFull(size), ready[..n]) && part == Filter(IsPartial(size), ready[..n])
    {
      FilterStep(IsFull(size), ready, n);
      FilterStep(IsPartial(size), ready, n);
      var count := Targets(ready[n]);
      if count <= 0 {
        continue;
      }
      if count >= size {
        full := full + [ready[n]];
      } else {
        part := part + [ready[n]];
      }
    }
    assert ready[..|ready|] == ready;
    r := full + if Quiet(lastReceivedAt, now, idle) then part else [];
  }

  // ---- Consuming pending light curves -----------------------------------

  predicate IsQueueEntry(i: Item) { i.key.PendingKey? && IsLightCurve(i) }

  function ConsumedIds(batch: Batch): set<Id> { set i | i in batch && IsQueueEntry(i) :: IdOf(i) }

  function KeptBy(ids: set<Id>): Item -> bool { (i: Item) => IdOf(i) !in ids }

  /** `consume_ready`: drop the pending items whose event id the batch consumes. */
  function Consume(pending: seq<Item>, batch: Batch): seq<Item> { Filter(KeptBy(ConsumedIds(batch)), pending) }

  function ConsumeAll(pending: seq<Item>, batches: seq<Batch>): seq<Item>
  {
    if batches == [] then pending else Consume(ConsumeAll(pending, batches[..|batches| - 1]), batches[|batches| - 1])
  }

  lemma ConsumeAllSnoc(pending: seq<Item>, batches: seq<Batch>, b: Batch)
    ensures ConsumeAll(pending, batches + [b]) == Consume(ConsumeAll(pending, batches), b)
  {}

  lemma {:induction false} ConsumeAllConcat(pending: seq<Item>, a: seq<Batch>, b: seq<Batch>)
    ensures ConsumeAll(pending, a + b) == ConsumeAll(ConsumeAll(pending, a), b)
  {
    if b == [] {
      assert a + b == a;
    } else {
      var n := |b| - 1;
      assert a + b == a + b[..n] + [b[n]];
      ConsumeAllSnoc(pending, a + b[..n], b[n]);
      ConsumeAllConcat(pending, a, b[..n]);
    }
  }

  /** What is left was pending, and no batch sent consumed its id. */
  lemma {:induction false} ConsumeAllMember(pending: seq<Item>, batches: seq<Batch>, x: Item)
    ensures x in ConsumeAll(pending, batches) <==>
      x in pending && forall b :: b in batches ==> IdOf(x) !in ConsumedIds(b)
  {
    if batches != [] {
      var n := |batches| - 1;
      ConsumeAllMember(pending, batches[..n], x);
      FilterMember(KeptBy(ConsumedIds(batches[n])), ConsumeAll(pending, batches[..n]), x);
      assert batches == batches[..n] + [batches[n]];
    }
  }

  // ---- STREAM dispatch --------------------------------------------------

  /** The timestamp after the full batches went out: forgotten once nothing is pending. */
  function AfterFull(full: seq<Batch>, pending: seq<Item>, lastReceivedAt: Option<real>): Option<real>
  {
    if full != [] && ConsumeAll(pending, full) == [] then None else lastReceivedAt
  }

  function BelowSize(size: nat): Batch -> bool { (b: Batch) => Targets(b) < size }

  lemma {:induction false} FullOrBelow(ready: seq<Batch>, size: nat)
    requires size >= 1
    ensures Filter(IsPartial(size), Filter(BelowSize(size), ready)) == Filter(IsPartial(size), ready)
  {
    if ready != [] {
      var n := |ready| - 1;
      FullOrBelow(ready[..n], size);
      var below := Filter(BelowSize(size), ready[..n]);
      assert Filter(BelowSize(size), ready) == below + if Targets(ready[n]) < size then [ready[n]] else [];
      if Targets(ready[n]) < size {
        FilterSnoc(IsPartial(size), below, ready[n]);
      } else {
        assert below + [] == below;
      }
    }
  }

  /** Send the full batches as they come, setting the others aside. */
  method SendFull(ready: seq<Batch>, size: nat, pending: seq<Item>, lastReceivedAt: Option<real>)
    returns (sent: seq<Batch>, aside: seq<Batch>, left: seq<Item>, last: Option<real>)
    requires size >= 1
    ensures sent == Filter(IsFull(size), ready) && aside == Filter(BelowSize(size), ready)
    ensures left == ConsumeAll(pending, sent) && last == AfterFull(sent, pending, lastReceivedAt)
  {
    sent, aside, left, last := [], [], pending, lastReceivedAt;
    for n := 0 to |ready|
      invariant sent == Filter(IsFull(size), ready[..n]) && aside == Filter(BelowSize(size), ready[..n])
      invariant left == ConsumeAll(pending, sent) && last == AfterFull(sent, pending, lastReceivedAt)
    {
      FilterStep(IsFull(size), ready, n);
      FilterStep(BelowSize(size), ready, n);
      if Targets(ready[n]) < size {
        aside := aside + [ready[n]];
        continue;
      }
      ConsumeAllSnoc(pending, sent, ready[n]);
      left := Consume(left, ready[n]);
      sent := sent + [ready[n]];
      last := if left == [] then None else last;
    }
    assert ready[..|ready|] == ready;
  }

  /** Send the batches set aside, except those without a light curve. */
  method SendAside(aside: seq<Batch>, size: nat, pending: seq<Item>) returns (sent: seq<Batch>, left: seq<Item>)
    requires forall b :: b in aside ==> Targets(b) < size
    ensures sent == Filter(IsPartial(size), aside) && left == ConsumeAll(pending, sent)
  {
    sent, left := [], pending;
    for n := 0 to |aside|
      invariant sent == Filter(IsPartial(size), aside[..n]) && left == ConsumeAll(pending, sent)
    {
      FilterStep(IsPartial(size), aside, n);
      assert aside[n] in aside;
      if Targets(aside[n]) == 0 {
        continue;
      }
      ConsumeAllSnoc(pending, sent, aside[n]);
      left := Consume(left, aside[n]);
      sent := sent + [aside[n]];
    }
    assert aside[..|aside|] == aside;
  }

  /** What the inline dispatch sends. */
  function StreamSends(ready: seq<Batch>, size: nat, pending: seq<Item>, lastReceivedAt: Option<real>, idle: real,
                       now: real): seq<Batch>
  {
    var full := Filter(IsFull(size), ready);
    full + if Quiet(AfterFull(full, pending, lastReceivedAt), now, idle) then Filter(IsPartial(size), ready) else []
  }

  method DispatchStream(ready: seq<Batch>, size: nat, pending: seq<Item>, lastReceivedAt: Option<real>, idle: real,
                        now: real)
    returns (sent: seq<Batch>, left: seq<Item>, last: Option<real>)
    requires size >= 1
    ensures sent == StreamSends(ready, size, pending, lastReceivedAt, idle, now) && left == ConsumeAll(pending, sent)
    ensures var after := AfterFull(Filter(IsFull(size), ready), pending, lastReceivedAt);
      last == if Filter(BelowSize(size), ready) != [] && Quiet(after, now, idle) then None else after
  {
    var aside: seq<Batch>;
    sent, aside, left, last := SendFull(ready, size, pending, lastReceivedAt);
    FullOrBelow(ready, size);
    if aside != [] && Quiet(last, now, idle) {
      forall b | b in aside ensures Targets(b) < size { FilterMember(BelowSize(size), ready, b); }
      var more: seq<Batch>;
      more, left := SendAside(aside, size, left);
      ConsumeAllConcat(pending, sent, more);
      sent := sent + more;
      last := None;
    }
  }

  /**
   The inline dispatch sends what the scheduler would, except when the full batches consume every pending
   light curve while a partial batch is still to be flushed.
   */
  lemma StreamDiffersExactly(ready: seq<Batch>, size: nat, pending: seq<Item>, lastReceivedAt: Option<real>,
                             idle: real, now: real)
    ensures var full, part := Filter(IsFull(size), ready), Filter(IsPartial(size), ready);
      var quiet := Quiet(lastReceivedAt, now, idle);
      StreamSends(ready, size, pending, lastReceivedAt, idle, now) == Dispatchable(ready, size, quiet)
      <==> !(quiet && full != [] && part != [] && ConsumeAll(pending, full) == [])
  {}

  // ---- With distinct event ids ------------------------------------------

  lemma {:induction false} ConcatHolds(ss: seq<seq<Item>>, i: nat, x: Item)
    requires i < |ss| && x in ss[i]
    ensures x in Concat(ss)
  {
    if i > 0 { ConcatHolds(ss[1..], i - 1, x); }
  }

  lemma {:induction false} ConcatSource(ss: seq<seq<Item>>, x: Item) returns (i: nat)
    requires x in Concat(ss)
    ensures i < |ss| && x in ss[i]
  {
    if x in ss[0] {
      i := 0;
    } else {
      i := ConcatSource(ss[1..], x);
      i := i + 1;
    }
  }

  predicate IdsDiffer(s: seq<Item>)
  {
    forall i, j :: 0 <= i < j < |s| ==> IdOf(s[i]) != IdOf(s[j])
  }

  /** In a listing without repeated ids, different stretches hold different ids. */
  lemma {:induction false} ConcatSeparates(ss: seq<seq<Item>>, i: nat, j: nat, x: Item, y: Item)
    requires IdsDiffer(Concat(ss)) && i < j < |ss| && x in ss[i] && y in ss[j]
    ensures IdOf(x) != IdOf(y)
  {
    var rest := Concat(ss[1..]);
    if i == 0 {
      ConcatHolds(ss[1..], j - 1, y);
      var a :| 0 <= a < |ss[0]| && ss[0][a] == x;
      var b :| 0 <= b < |rest| && rest[b] == y;
      assert Concat(ss)[a] == x && Concat(ss)[|ss[0]| + b] == y;
    } else {
      forall a, b | 0 <= a < b < |rest| ensures IdOf(rest[a]) != IdOf(rest[b]) {
        assert Concat(ss)[|ss[0]| + a] == rest[a] && Concat(ss)[|ss[0]| + b] == rest[b];
      }
      ConcatSeparates(ss[1..], i - 1, j - 1, x, y);
    }
  }

  predicate QueueEntries(pending: seq<Item>)
  {
    forall i :: 0 <= i < |pending| ==> IsQueueEntry(pending[i])
  }

  /** The main loop's pending list: light-curve checkpoints with ids of their own. */
  predicate Orderly(k: Knowledge, pending: seq<Item>) { QueueEntries(pending) && DistinctIds(k, pending) }

  lemma OrderlyBatches(k: Knowledge, pending: seq<Item>, size: nat)
    requires size >= 1 && Orderly(k, pending)
    ensures var groups := Map(LightCurvesIn, Batches(k, pending, size));
      Concat(groups) == Filter(IsReady(k), pending) && IdsDiffer(Concat(groups))
  {
    assert PendingLightCurves(pending);
    BatchesHoldReady(k, pending, size);
    FilterDistinctIds(IsReady(k), pending);
  }

  /** A light curve of a batch is a ready pending item. */
  lemma InBatchIsReady(k: Knowledge, pending: seq<Item>, size: nat, i: nat, x: Item)
    requires size >= 1 && Orderly(k, pending) && i < |Batches(k, pending, size)|
      && x in LightCurvesIn(Batches(k, pending, size)[i])
    ensures x in pending && TpfFor(k, x).Some?
  {
    OrderlyBatches(k, pending, size);
    ConcatHolds(Map(LightCurvesIn, Batches(k, pending, size)), i, x);
    FilterMember(IsReady(k), pending, x);
  }

  lemma SameIdSameItem(k: Knowledge, pending: seq<Item>, x: Item, y: Item)
    requires Orderly(k, pending) && x in pending && y in pending && IdOf(x) == IdOf(y)
    ensures x == y
  {}

  lemma ConsumedByBatch(k: Knowledge, pending: seq<Item>, size: nat, i: nat, x: Item)
    requires size >= 1 && Orderly(k, pending) && i < |Batches(k, pending, size)| && x in pending
    ensures IdOf(x) in ConsumedIds(Batches(k, pending, size)[i]) <==> x in LightCurvesIn(Batches(k, pending, size)[i])
  {
    var b := Batches(k, pending, size)[i];
    if IdOf(x) in ConsumedIds(b) {
      var y :| y in b && IsQueueEntry(y) && IdOf(y) == IdOf(x);
      FilterMember(IsLightCurve, b, y);
      InBatchIsReady(k, pending, size, i, y);
      SameIdSameItem(k, pending, x, y);
    }
    if x in LightCurvesIn(b) {
      FilterMember(IsLightCurve, b, x);
    }
  }

  /** Another batch does not consume a light curve of this one. */
  lemma OtherBatchKeeps(k: Knowledge, pending: seq<Item>, size: nat, i: nat, j: nat, x: Item)
    requires size >= 1 && Orderly(k, pending) && i < |Batches(k, pending, size)| && j < |Batches(k, pending, size)|
      && i != j
    requires x in LightCurvesIn(Batches(k, pending, size)[i])
    ensures IdOf(x) !in ConsumedIds(Batches(k, pending, size)[j])
  {
    InBatchIsReady(k, pending, size, i, x);
    ConsumedByBatch(k, pending, size, j, x);
    OrderlyBatches(k, pending, size);
    var groups := Map(LightCurvesIn, Batches(k, pending, size));
    if x in groups[j] {
      if i < j { ConcatSeparates(groups, i, j, x, x); } else { ConcatSeparates(groups, j, i, x, x); }
    }
  }

  /** A light curve of a partial batch is still pending after the full ones went out. */
  lemma PartialStaysPending(k: Knowledge, pending: seq<Item>, size: nat)
    requires size >= 1 && Orderly(k, pending)
    requires Filter(IsPartial(size), Batches(k, pending, size)) != []
    ensures ConsumeAll(pending, Filter(IsFull(size), Batches(k, pending, size))) != []
  {
    var batches := Batches(k, pending, size);
    var full, b := Filter(IsFull(size), batches), Filter(IsPartial(size), batches)[0];
    FilterMember(IsPartial(size), batches, b);
    var i :| 0 <= i < |batches| && batches[i] == b;
    var x := LightCurvesIn(b)[0];
    InBatchIsReady(k, pending, size, i, x);
    forall f | f in full ensures IdOf(x) !in ConsumedIds(f) {
      FilterMember(IsFull(size), batches, f);
      var j :| 0 <= j < |batches| && batches[j] == f;
      OtherBatchKeeps(k, pending, size, i, j, x);
    }
    ConsumeAllMember(pending, full, x);
  }

  /** With distinct event ids the inline STREAM dispatch sends exactly what the scheduler returns. */
  lemma StreamMatchesScheduler(k: Knowledge, pending: seq<Item>, size: nat, lastReceivedAt: Option<real>, idle: real,
                               now: real)
    requires size >= 1 && Orderly(k, pending)
    ensures var ready := Batches(k, pending, size);
      StreamSends(ready, size, pending, lastReceivedAt, idle, now)
        == Dispatchable(ready, size, Quiet(lastReceivedAt, now, idle))
  {
    var ready := Batches(k, pending, size);
    StreamDiffersExactly(ready, size, pending, lastReceivedAt, idle, now);
    if Filter(IsPartial(size), ready) != [] { PartialStaysPending(k, pending, size); }
  }

  lemma QuietSendsAll(k: Knowledge, pending: seq<Item>, size: nat, i: nat)
    requires size >= 1 && Orderly(k, pending) && i < |Batches(k, pending, size)|
    ensures Batches(k, pending, size)[i] in Dispatchable(Batches(k, pending, size), size, true)
  {
    assert PendingLightCurves(pending);
    BatchesHoldReady(k, pending, size);
    var batches := Batches(k, pending, size);
    FilterMember(IsFull(size), batches, batches[i]);
    FilterMember(IsPartial(size), batches, batches[i]);
  }

  /** After a quiet pass exactly the light curves without a target pixel are still pending. */
  lemma QuietPassLeavesWaiting(k: Knowledge, pending: seq<Item>, size: nat, x: Item)
    requires size >= 1 && Orderly(k, pending)
    ensures x in ConsumeAll(pending, Dispatchable(Batches(k, pending, size), size, true))
      <==> x in pending && TpfFor(k, x).None?
  {
    var batches := Batches(k, pending, size);
    var sent := Dispatchable(batches, size, true);
    ConsumeAllMember(pending, sent, x);
    if x in pending {
      if TpfFor(k, x).Some? {
        OrderlyBatches(k, pending, size);
        FilterMember(IsReady(k), pending, x);
        var i := ConcatSource(Map(LightCurvesIn, batches), x);
        ConsumedByBatch(k, pending, size, i, x);
        QuietSendsAll(k, pending, size, i);
      } else {
        forall b | b in sent ensures IdOf(x) !in ConsumedIds(b) {
          FilterMember(IsFull(size), batches, b);
          FilterMember(IsPartial(size), batches, b);
          var i :| 0 <= i < |batches| && batches[i] == b;
          ConsumedByBatch(k, pending, size, i, x);
          if x in LightCurvesIn(b) { InBatchIsReady(k, pending, size, i, x); }
        }
      }
    }
  }

  lemma TwoGroups(k: Knowledge, a: Item, b: Item, c: Item)
    requires TpfFor(k, a).Some? && TpfFor(k, b).Some? && TpfFor(k, c).Some?
    ensures var p, q, r := Pair(a, TpfFor(k, a).value), Pair(b, TpfFor(k, b).value), Pair(c, TpfFor(k, c).value);
      Batches(k, [a, b, c], 2) == [Inputs([p, q]), Inputs([r])]
  {
    var p, q, r := Pair(a, TpfFor(k, a).value), Pair(b, TpfFor(k, b).value), Pair(c, TpfFor(k, c).value);
    assert [a, b, c][..2] == [a, b] && [a, b][..1] == [a] && [a][..0] == [];
    assert Candidates(k, [a]) == [] + [p];
    assert Candidates(k, [a, b]) == [p] + [q];
    assert Candidates(k, [a, b, c]) == [p, q] + [r];
    assert Candidates(k, [a, b, c])[..2] == [p, q] && Candidates(k, [a, b, c])[2..] == [r];
    var cs := [p, q, r];
    assert cs[..2] == [p, q] && cs[2..] == [r];
    assert Chunks(cs, 2) == [cs[..2]] + Chunks(cs[2..], 2);
    assert Chunks([r], 2) == [[r]];
  }

  lemma PairInputs(p: Pair, q: Pair)
    requires WellKinded([p, q]) && IdOf(p.lc) != IdOf(q.lc) && IdOf(p.tpf) != IdOf(q.lc)
    ensures LightCurvesIn(Inputs([p, q])) == [p.lc, q.lc]
  {
    assert [] + [p] == [p] && [p, q][..1] == [p] && [p, q][..0] == [];
    InputsSnoc([], p);
    GroupKeepsLightCurves([p, q]);
    assert Map(LcOf, [p, q]) == [p.lc, q.lc];
  }

  lemma SingleInputs(r: Pair)
    requires WellKinded([r])
    ensures LightCurvesIn(Inputs([r])) == [r.lc]
  {
    assert [r][..0] == [];
    GroupKeepsLightCurves([r]);
    assert Map(LcOf, [r]) == [r.lc];
  }

  lemma FullThenPartial(x: Batch, y: Batch)
    requires Targets(x) == 2 && Targets(y) == 1
    ensures Filter(IsFull(2), [x, y]) == [x] && Filter(IsPartial(2), [x, y]) == [y]
  {}

  lemma BatchConsumesAll(x: Batch, a: Item, b: Item, c: Item)
    requires QueueEntries([a, b, c]) && IdOf(a) == IdOf(c) && LightCurvesIn(x) == [a, b]
    ensures ConsumeAll([a, b, c], [x]) == []
  {
    var pending, left := [a, b, c], ConsumeAll([a, b, c], [x]);
    assert IsQueueEntry(pending[0]) && IsQueueEntry(pending[1]);
    FilterMember(IsLightCurve, x, a);
    FilterMember(IsLightCurve, x, b);
    assert IdOf(a) in ConsumedIds(x) && IdOf(b) in ConsumedIds(x);
    if left != [] {
      assert x in [x];
      ConsumeAllMember(pending, [x], left[0]);
    }
  }

  /**
   A repeated event id makes the two dispatchers differ: three ready light curves at size two, the third
   repeating the id of the first. The scheduler flushes the third; the inline dispatch drops it from memory.
   */
  lemma RepeatedIdSkipsFlush(k: Knowledge, a: Item, b: Item, c: Item, idle: real, now: real)
    requires QueueEntries([a, b, c]) && TpfFor(k, a).Some? && TpfFor(k, b).Some? && TpfFor(k, c).Some?
    requires IdOf(a) == IdOf(c) && IdOf(a) != IdOf(b) && IdOf(TpfFor(k, a).value) != IdOf(b)
    ensures var ready, sent := Batches(k, [a, b, c], 2), StreamSends(Batches(k, [a, b, c], 2), 2, [a, b, c],
        Some(now - idle), idle, now);
      && |ready| == 2 && sent == [ready[0]] && Dispatchable(ready, 2, true) == ready
      && ConsumeAll([a, b, c], sent) == []
  {
    var p, q, r := Pair(a, TpfFor(k, a).value), Pair(b, TpfFor(k, b).value), Pair(c, TpfFor(k, c).value);
    TwoGroups(k, a, b, c);
    KindsOfThree(k, a, b, c);
    PairInputs(p, q);
    SingleInputs(r);
    FlushSkipped(Inputs([p, q]), Inputs([r]), a, b, c, idle, now);
  }

  lemma FlushSkipped(x: Batch, y: Batch, a: Item, b: Item, c: Item, idle: real, now: real)
    requires QueueEntries([a, b, c]) && IdOf(a) == IdOf(c) && LightCurvesIn(x) == [a, b] && LightCurvesIn(y) == [c]
    ensures StreamSends([x, y], 2, [a, b, c], Some(now - idle), idle, now) == [x]
    ensures Dispatchable([x, y], 2, true) == [x, y] && ConsumeAll([a, b, c], [x]) == []
  {
    FullThenPartial(x, y);
    BatchConsumesAll(x, a, b, c);
    assert [x] + [y] == [x, y] && [x] + [] == [x];
  }

  lemma KindsOfThree(k: Knowledge, a: Item, b: Item, c: Item)
    requires QueueEntries([a, b, c]) && TpfFor(k, a).Some? && TpfFor(k, b).Some? && TpfFor(k, c).Some?
    ensures WellKinded([Pair(a, TpfFor(k, a).value), Pair(b, TpfFor(k, b).value)])
      && WellKinded([Pair(c, TpfFor(k, c).value)])
  {
    var pending := [a, b, c];
    assert IsQueueEntry(pending[0]) && IsQueueEntry(pending[1]) && IsQueueEntry(pending[2]);
    LatestIsNewest(k.rank, k.contexts, Wanted(k.contracts, a.event).value);
    LatestIsNewest(k.rank, k.contexts, Wanted(k.contracts, b.event).value);
    LatestIsNewest(k.rank, k.contexts, Wanted(k.contracts, c.event).value);
  }
}
