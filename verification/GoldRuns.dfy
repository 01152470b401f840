/**
 Gold builds in several processes over one object store
 (apps/python-enrichment/pipeline/materializer.py, run in a process pool by
 apps/python-enrichment/runtime/pool.py). Storing an immutable object is a read and,
 when nothing was found, a later put; builds interleave between the two, and each may be
 abandoned anywhere.
 */
module GoldRuns {
  import opened Wrappers
  import opened Sequences
  import opened Events
  import opened SnapshotIdentity
  import opened GoldBuild

  /** One object a build stores: a data file or, last, the manifest. */
  datatype Write = Write(at: Location, data: Blob)

  /** A build: what it stores, how much is done, and whether it found the next key absent. */
  datatype Build = Build(plan: seq<Write>, done: nat, absent: bool)

  datatype State = State(objects: Objects, builds: map<nat, Build>, next: nat)

  datatype Step =
    | Start(plan: seq<Write>)
    | Read(build: nat)
    | Put(build: nat)
    | Return(build: nat)
    | Abandon(build: nat)
    | Select(bucket: Id, identity: Identity)   // put the current pointer, the one mutable key

  predicate Immutable(l: Location) { l.key != CurrentKey }

  predicate ValidPlan(plan: seq<Write>) { forall i :: 0 <= i < |plan| ==> Immutable(plan[i].at) }

  predicate Pending(b: Build) { b.done < |b.plan| }

  function NextWrite(b: Build): Write
    requires Pending(b)
  {
    b.plan[b.done]
  }

  function Advanced(b: Build): Build { Build(b.plan, b.done + 1, false) }

  predicate Enabled(s: State, step: Step)
  {
    match step
    case Start(plan) => ValidPlan(plan)
    case Read(b) => b in s.builds && Pending(s.builds[b]) && !s.builds[b].absent
    case Put(b) => b in s.builds && Pending(s.builds[b]) && s.builds[b].absent
    case Return(b) => b in s.builds && !Pending(s.builds[b])
    case Abandon(b) => b in s.builds
    case Select(_, _) => true
  }

  /** The build after reading its next key: the same bytes count as stored, others are a conflict. */
  function AfterRead(objects: Objects, b: Build): Option<Build>
    requires Pending(b)
  {
    var w := NextWrite(b);
    if w.at !in objects then Some(b.(absent := true))
    else if objects[w.at] == w.data then Some(Advanced(b))
    else None
  }

  function Moved(builds: map<nat, Build>, b: nat, to: Option<Build>): map<nat, Build>
  {
    if to.Some? then builds[b := to.value] else builds - {b}
  }

  function Apply(s: State, step: Step): State
    requires Enabled(s, step)
  {
    match step
    case Start(plan) => State(s.objects, s.builds[s.next := Build(plan, 0, false)], s.next + 1)
    case Read(b) => s.(builds := Moved(s.builds, b, AfterRead(s.objects, s.builds[b])))
    case Put(b) =>
      var w := NextWrite(s.builds[b]);
      State(s.objects[w.at := w.data], s.builds[b := Advanced(s.builds[b])], s.next)
    case Return(b) => s.(builds := s.builds - {b})
    case Abandon(b) => s.(builds := s.builds - {b})
    case Select(bucket, identity) => s.(objects := s.objects[Location(bucket, CurrentKey) := PointerBytes(identity)])
  }

  predicate Runnable(s: State, steps: seq<Step>)
    decreases |steps|
  {
    steps == [] || (Enabled(s, steps[0]) && Runnable(Apply(s, steps[0]), steps[1..]))
  }

  function Exec(s: State, steps: seq<Step>): State
    requires Runnable(s, steps)
    decreases |steps|
  {
    if steps == [] then s else Exec(Apply(s, steps[0]), steps[1..])
  }

  function Init(): State { State(map[], map[], 0) }

  ghost predicate Reachable(s: State) { exists steps :: Runnable(Init(), steps) && s == Exec(Init(), steps) }

  // ---- What every run keeps ---------------------------------------------

  predicate BuildOk(s: State, b: nat)
    requires b in s.builds
  {
    var build := s.builds[b];
    && b < s.next && ValidPlan(build.plan) && build.done <= |build.plan|
    && forall i :: 0 <= i < build.done ==> build.plan[i].at in s.objects
  }

  /** Whatever a build has dealt with is stored, with its bytes or with those of a build that overtook it. */
  predicate Inv(s: State) { forall b :: b in s.builds ==> BuildOk(s, b) }

  lemma StepInv(s: State, step: Step)
    requires Inv(s) && Enabled(s, step)
    ensures Inv(Apply(s, step)) && NoneGone(s.objects, Apply(s, step).objects)
  {
    var t := Apply(s, step);
    forall b | b in t.builds ensures BuildOk(t, b) {
      if b in s.builds { assert BuildOk(s, b); }
    }
  }

  lemma {:induction false} RunInv(s: State, steps: seq<Step>)
    requires Inv(s) && Runnable(s, steps)
    ensures Inv(Exec(s, steps)) && NoneGone(s.objects, Exec(s, steps).objects)
    decreases |steps|
  {
    if steps != [] {
      StepInv(s, steps[0]);
      RunInv(Apply(s, steps[0]), steps[1..]);
    }
  }

  lemma ReachableInv(s: State)
    requires Reachable(s)
    ensures Inv(s)
  {
    var steps :| Runnable(Init(), steps) && s == Exec(Init(), steps);
    RunInv(Init(), steps);
  }

  // ---- Who can change a stored object -----------------------------------

  /** The builds that found a key absent and have not put it yet. */
  function InFlight(s: State, l: Location): set<nat>
  {
    set b | b in s.builds && Pending(s.builds[b]) && s.builds[b].absent && NextWrite(s.builds[b]).at == l
  }

  lemma ObjectStep(s: State, step: Step, l: Location)
    requires Inv(s) && Enabled(s, step) && Immutable(l) && l in s.objects
    ensures l in Apply(s, step).objects
    ensures Apply(s, step).objects[l] == s.objects[l] || (step.Put? && step.build in InFlight(s, l))
    ensures InFlight(Apply(s, step), l) <= InFlight(s, l)
  {}

  /**
   Over every run: a stored object stays stored, and when its bytes changed, it was by the put of a build that had
   read the key as absent before it was stored.
   */
  lemma {:induction false} ObjectChangesOnlyInFlight(s: State, steps: seq<Step>, l: Location) returns (i: nat)
    requires Inv(s) && Runnable(s, steps) && Immutable(l) && l in s.objects
    ensures l in Exec(s, steps).objects && InFlight(Exec(s, steps), l) <= InFlight(s, l)
    ensures Exec(s, steps).objects[l] != s.objects[l] ==>
      i < |steps| && steps[i].Put? && steps[i].build in InFlight(s, l)
    decreases |steps|
  {
    i := 0;
    if steps != [] {
      var t := Apply(s, steps[0]);
      StepInv(s, steps[0]);
      ObjectStep(s, steps[0], l);
      var j := ObjectChangesOnlyInFlight(t, steps[1..], l);
      i := if t.objects[l] == s.objects[l] then j + 1 else 0;
    }
  }

  /** Every build that found the key absent carries the very bytes stored there. */
  predicate Settled(s: State, l: Location)
  {
    l in s.objects && forall b :: b in InFlight(s, l) ==> NextWrite(s.builds[b]).data == s.objects[l]
  }

  /** Whatever happens next, the bytes stay. */
  ghost predicate Permanent(s: State, l: Location)
  {
    && l in s.objects
    && forall steps :: Runnable(s, steps) ==> l in Exec(s, steps).objects && Exec(s, steps).objects[l] == s.objects[l]
  }

  lemma SettledStep(s: State, step: Step, l: Location)
    requires Inv(s) && Enabled(s, step) && Immutable(l) && Settled(s, l)
    ensures Settled(Apply(s, step), l) && Apply(s, step).objects[l] == s.objects[l]
  {
    ObjectStep(s, step, l);
  }

  lemma {:induction false} SettledRun(s: State, steps: seq<Step>, l: Location)
    requires Inv(s) && Runnable(s, steps) && Immutable(l) && Settled(s, l)
    ensures Settled(Exec(s, steps), l) && Exec(s, steps).objects[l] == s.objects[l]
    decreases |steps|
  {
    if steps != [] {
      StepInv(s, steps[0]);
      SettledStep(s, steps[0], l);
      SettledRun(Apply(s, steps[0]), steps[1..], l);
    }
  }

  /**
   Exactly when a stored object is immutable: when every build that read its key as absent before it was stored
   is about to put the same bytes. One that is not may still replace it.
   */
  lemma ImmutableExactly(s: State, l: Location)
    requires Reachable(s) && Immutable(l) && l in s.objects
    ensures Permanent(s, l) <==> Settled(s, l)
  {
    ReachableInv(s);
    if Settled(s, l) {
      forall steps | Runnable(s, steps)
        ensures l in Exec(s, steps).objects && Exec(s, steps).objects[l] == s.objects[l]
      {
        SettledRun(s, steps, l);
      }
    } else {
      var b :| b in InFlight(s, l) && NextWrite(s.builds[b]).data != s.objects[l];
      OneStep(s, Put(b), []);
      assert Exec(s, [Put(b)] + []).objects[l] != s.objects[l];
    }
  }

  lemma OneStep(s: State, step: Step, rest: seq<Step>)
    requires Enabled(s, step) && Runnable(Apply(s, step), rest)
    ensures Runnable(s, [step] + rest) && Exec(s, [step] + rest) == Exec(Apply(s, step), rest)
  {
    assert ([step] + rest)[1..] == rest;
  }

  lemma {:induction false} RunConcat(s: State, a: seq<Step>, b: seq<Step>)
    requires Runnable(s, a) && Runnable(Exec(s, a), b)
    ensures Runnable(s, a + b) && Exec(s, a + b) == Exec(Exec(s, a), b)
    decreases |a|
  {
    if a == [] {
      assert a + b == b;
    } else {
      assert (a + b)[1..] == a[1..] + b && (a + b)[0] == a[0];
      RunConcat(Apply(s, a[0]), a[1..], b);
    }
  }

  // ---- Two builds of one snapshot ---------------------------------------

  /** What a build of a draft stores: its data files in sector order, then its manifest. */
  function PartWrite(d: Draft): Partition -> Write
  {
    (p: Partition) => Write(PartLocation(d.bucket, d.plan.identity, p), PartBytes(p.rows))
  }

  function Parts(d: Draft): seq<Write> { Map(PartWrite(d), Partitions(d.rows)) }

  function ManifestWrite(d: Draft, createdAt: int): Write
  {
    Write(ManifestLocation(d), ManifestBytes(ManifestFor(d, createdAt)))
  }

  function PlanFor(d: Draft, createdAt: int): seq<Write> { Parts(d) + [ManifestWrite(d, createdAt)] }

  predicate KeysDiffer(plan: seq<Write>) { forall i, j :: 0 <= i < j < |plan| ==> plan[i].at != plan[j].at }

  lemma PartsDiffer(d: Draft)
    ensures KeysDiffer(Parts(d))
    ensures forall i :: 0 <= i < |Parts(d)| ==> Parts(d)[i].at.key.PartKey?
  {
    PartitionSectorsDiffer(d.rows);
  }

  /** Nothing stands in the way of a build up to its k-th write. */
  predicate Clear(objects: Objects, plan: seq<Write>, k: nat)
    requires k <= |plan|
  {
    forall i :: 0 <= i < k ==> plan[i].at in objects ==> objects[plan[i].at] == plan[i].data
  }

  /** Only the first k keys of a plan may differ, and those hold its bytes. */
  ghost predicate Filled(before: Objects, after: Objects, plan: seq<Write>, k: nat)
    requires k <= |plan|
  {
    && (forall i :: 0 <= i < k ==> Stored(after, plan[i].at, plan[i].data))
    && (forall l :: (forall i :: 0 <= i < k ==> plan[i].at != l) ==>
          (l in after <==> l in before) && (l in before ==> after[l] == before[l]))
  }

  /** One object: found with the same bytes, or found absent and put. */
  lemma StoresOne(s: State, b: nat) returns (steps: seq<Step>)
    requires b in s.builds && Pending(s.builds[b]) && !s.builds[b].absent
    requires var w := NextWrite(s.builds[b]); w.at in s.objects ==> s.objects[w.at] == w.data
    ensures Runnable(s, steps)
    ensures var w := NextWrite(s.builds[b]);
      Exec(s, steps) == State(s.objects[w.at := w.data], s.builds[b := Advanced(s.builds[b])], s.next)
  {
    var w := NextWrite(s.builds[b]);
    if w.at in s.objects {
      OneStep(s, Read(b), []);
      steps := [Read(b)] + [];
      assert s.objects[w.at := w.data] == s.objects;
    } else {
      var t := Apply(s, Read(b));
      OneStep(t, Put(b), []);
      OneStep(s, Read(b), [Put(b)] + []);
      steps := [Read(b)] + ([Put(b)] + []);
      assert t.builds[b := Advanced(t.builds[b])] == s.builds[b := Advanced(s.builds[b])];
    }
  }

  lemma FilledSnoc(before: Objects, after: Objects, plan: seq<Write>, n: nat)
    requires n < |plan| && Filled(before, after, plan, n) && Clear(before, plan, n + 1)
    requires forall i :: 0 <= i < n ==> plan[i].at != plan[n].at
    ensures Filled(before, after[plan[n].at := plan[n].data], plan, n + 1)
    ensures plan[n].at in after ==> after[plan[n].at] == plan[n].data
  {}

  lemma StoresNext(s: State, t: State, b: nat, plan: seq<Write>, n: nat) returns (steps: seq<Step>)
    requires n < |plan| && t.builds == s.builds[b := Build(plan, n, false)] && t.next == s.next
    requires Filled(s.objects, t.objects, plan, n) && Clear(s.objects, plan, n + 1)
    requires forall i :: 0 <= i < n ==> plan[i].at != plan[n].at
    ensures Runnable(t, steps)
    ensures var u := Exec(t, steps);
      u.builds == s.builds[b := Build(plan, n + 1, false)] && u.next == s.next
        && Filled(s.objects, u.objects, plan, n + 1)
  {
    FilledSnoc(s.objects, t.objects, plan, n);
    steps := StoresOne(t, b);
    assert t.builds[b := Build(plan, n + 1, false)] == s.builds[b := Build(plan, n + 1, false)];
  }

  /** A build nothing stands in the way of can store its first k objects. */
  lemma {:induction false} StoresUpTo(s: State, b: nat, plan: seq<Write>, k: nat) returns (steps: seq<Step>)
    requires k <= |plan| && b in s.builds && s.builds[b] == Build(plan, 0, false)
    requires (forall i, j :: 0 <= i < j < k ==> plan[i].at != plan[j].at) && Clear(s.objects, plan, k)
    ensures Runnable(s, steps)
    ensures var t := Exec(s, steps);
      t.builds == s.builds[b := Build(plan, k, false)] && t.next == s.next && Filled(s.objects, t.objects, plan, k)
    decreases k
  {
    if k == 0 {
      steps := [];
      assert s.builds[b := Build(plan, 0, false)] == s.builds;
    } else {
      var first := StoresUpTo(s, b, plan, k - 1);
      var last := StoresNext(s, Exec(s, first), b, plan, k - 1);
      RunConcat(s, first, last);
      steps := first + last;
    }
  }

  lemma PlanIsValid(d: Draft, createdAt: int)
    ensures ValidPlan(PlanFor(d, createdAt)) && KeysDiffer(PlanFor(d, createdAt))
  {
    PartsDiffer(d);
  }

  lemma UnblockedIsClear(objects: Objects, d: Draft, createdAt: int)
    requires !Blocked(objects, d, createdAt)
    ensures Clear(objects, PlanFor(d, createdAt), |PlanFor(d, createdAt)|)
  {
    var plan := PlanFor(d, createdAt);
    forall i | 0 <= i < |plan| && plan[i].at in objects ensures objects[plan[i].at] == plan[i].data {
      if i < |Parts(d)| {
        var p := Partitions(d.rows)[i];
        assert p in Partitions(d.rows);
        assert !Clashes(objects, PartLocation(d.bucket, d.plan.identity, p), PartBytes(p.rows));
      }
    }
  }

  lemma FilledIsCommitted(before: Objects, after: Objects, d: Draft, createdAt: int)
    requires Filled(before, after, PlanFor(d, createdAt), |PlanFor(d, createdAt)|)
    ensures Committed(after, d, createdAt, ManifestFor(d, createdAt))
  {
    var plan, parts := PlanFor(d, createdAt), Partitions(d.rows);
    forall i | 0 <= i < |parts|
      ensures Stored(after, PartLocation(d.bucket, d.plan.identity, parts[i]), PartBytes(parts[i].rows))
    {
      assert plan[i] == PartWrite(d)(parts[i]);
      assert Stored(after, plan[i].at, plan[i].data);
    }
    assert plan[|parts|] == ManifestWrite(d, createdAt);
    assert Stored(after, plan[|parts|].at, plan[|parts|].data);
  }

  /**
   A build of any draft that is not blocked can run alone to its end from any state: every data file and the manifest
   are stored then, no other key differs, and the build is over. So the runs contain what `GoldStore.Commit` does.
   */
  lemma BuildRunsAlone(s: State, d: Draft, createdAt: int) returns (steps: seq<Step>)
    requires Inv(s) && !Blocked(s.objects, d, createdAt)
    ensures Runnable(s, steps)
    ensures var t, plan := Exec(s, steps), PlanFor(d, createdAt);
      && t.builds == s.builds && Committed(t.objects, d, createdAt, ManifestFor(d, createdAt))
      && Filled(s.objects, t.objects, plan, |plan|)
  {
    var plan, b := PlanFor(d, createdAt), s.next;
    PlanIsValid(d, createdAt);
    UnblockedIsClear(s.objects, d, createdAt);
    assert b in s.builds ==> BuildOk(s, b);
    var u := Apply(s, Start(plan));
    var stores := StoresUpTo(u, b, plan, |plan|);
    var t := Exec(u, stores);
    OneStep(t, Return(b), []);
    RunConcat(u, stores, [Return(b)] + []);
    OneStep(s, Start(plan), stores + ([Return(b)] + []));
    steps := [Start(plan)] + (stores + ([Return(b)] + []));
    FilledIsCommitted(s.objects, t.objects, d, createdAt);
    assert t.builds - {b} == s.builds;
  }

  /** A build that finds other bytes under its next key is over, and so is one that is abandoned; nothing is stored. */
  lemma BuildStops(s: State, b: nat)
    requires b in s.builds
    ensures Enabled(s, Abandon(b)) && Apply(s, Abandon(b)) == s.(builds := s.builds - {b})
    ensures var build := s.builds[b];
      Pending(build) && !build.absent && Clashes(s.objects, NextWrite(build).at, NextWrite(build).data) ==>
        Enabled(s, Read(b)) && Apply(s, Read(b)) == s.(builds := s.builds - {b})
  {}

  /** Two builds that agree on all but their last object, each of which has stored the others. */
  function BothAtLast(objects: Objects, parts: seq<Write>, a: Write, b: Write, absent: bool): State
  {
    State(objects, map[0 := Build(parts + [a], |parts|, absent), 1 := Build(parts + [b], |parts|, absent)], 2)
  }

  lemma Started(a: seq<Write>, b: seq<Write>) returns (steps: seq<Step>)
    requires ValidPlan(a) && ValidPlan(b)
    ensures Runnable(Init(), steps)
    ensures Exec(Init(), steps) == State(map[], map[0 := Build(a, 0, false), 1 := Build(b, 0, false)], 2)
  {
    var s := Apply(Init(), Start(a));
    OneStep(s, Start(b), []);
    OneStep(Init(), Start(a), [Start(b)] + []);
    steps := [Start(a)] + ([Start(b)] + []);
    assert Apply(s, Start(b)).builds == map[0 := Build(a, 0, false), 1 := Build(b, 0, false)];
  }

  lemma FirstStores(parts: seq<Write>, a: Write, b: Write) returns (steps: seq<Step>, objects: Objects)
    requires KeysDiffer(parts)
    ensures var s := State(map[], map[0 := Build(parts + [a], 0, false), 1 := Build(parts + [b], 0, false)], 2);
      && Runnable(s, steps)
      && Exec(s, steps) == State(objects,
                                 map[0 := Build(parts + [a], |parts|, false), 1 := Build(parts + [b], 0, false)], 2)
    ensures Filled(map[], objects, parts, |parts|)
  {
    var plan, n := parts + [a], |parts|;
    var s := State(map[], map[0 := Build(plan, 0, false), 1 := Build(parts + [b], 0, false)], 2);
    assert forall i :: 0 <= i < n ==> plan[i] == parts[i];
    steps := StoresUpTo(s, 0, plan, n);
    objects := Exec(s, steps).objects;
    assert Exec(s, steps).builds == map[0 := Build(plan, n, false), 1 := Build(parts + [b], 0, false)];
    FilledPrefix(map[], objects, plan, parts);
  }

  lemma FilledPrefix(before: Objects, after: Objects, plan: seq<Write>, parts: seq<Write>)
    requires |parts| <= |plan| && parts == plan[..|parts|] && Filled(before, after, plan, |parts|)
    ensures Filled(before, after, parts, |parts|)
  {
    assert forall i :: 0 <= i < |parts| ==> plan[i] == parts[i];
  }

  lemma SecondStores(parts: seq<Write>, a: Write, b: Write, objects: Objects) returns (steps: seq<Step>, after: Objects)
    requires KeysDiffer(parts) && Filled(map[], objects, parts, |parts|)
    ensures var s := State(objects, map[0 := Build(parts + [a], |parts|, false), 1 := Build(parts + [b], 0, false)], 2);
      Runnable(s, steps) && Exec(s, steps) == BothAtLast(after, parts, a, b, false)
    ensures Filled(objects, after, parts, |parts|)
  {
    var plan, n := parts + [b], |parts|;
    var s := State(objects, map[0 := Build(parts + [a], n, false), 1 := Build(plan, 0, false)], 2);
    assert forall i :: 0 <= i < n ==> plan[i] == parts[i];
    steps := StoresUpTo(s, 1, plan, n);
    after := Exec(s, steps).objects;
    assert Exec(s, steps).builds == BothAtLast(after, parts, a, b, false).builds;
    FilledPrefix(objects, after, plan, parts);
  }

  lemma ReachesLast(parts: seq<Write>, a: Write, b: Write) returns (steps: seq<Step>, objects: Objects)
    requires KeysDiffer(parts) && ValidPlan(parts + [a]) && ValidPlan(parts + [b])
    requires forall i :: 0 <= i < |parts| ==> parts[i].at != a.at
    ensures Runnable(Init(), steps) && Exec(Init(), steps) == BothAtLast(objects, parts, a, b, false)
    ensures a.at !in objects
  {
    var start := Started(parts + [a], parts + [b]);
    var one, after := FirstStores(parts, a, b);
    var two;
    two, objects := SecondStores(parts, a, b, after);
    var s := Exec(Init(), start);
    RunConcat(s, one, two);
    RunConcat(Init(), start, one + two);
    steps := start + (one + two);
  }

  lemma BothRead(objects: Objects, parts: seq<Write>, a: Write, b: Write) returns (steps: seq<Step>)
    requires a.at == b.at && a.at !in objects
    ensures var s := BothAtLast(objects, parts, a, b, false);
      Runnable(s, steps) && Exec(s, steps) == BothAtLast(objects, parts, a, b, true)
  {
    var s := BothAtLast(objects, parts, a, b, false);
    var m := Apply(s, Read(0));
    OneStep(m, Read(1), []);
    OneStep(s, Read(0), [Read(1)] + []);
    steps := [Read(0)] + ([Read(1)] + []);
    assert Apply(m, Read(1)).builds == BothAtLast(objects, parts, a, b, true).builds;
  }

  /** Both have found the last key absent: the first puts and returns, then the second puts over it. */
  lemma FirstThenSecond(objects: Objects, parts: seq<Write>, a: Write, b: Write)
    returns (first: seq<Step>, second: seq<Step>)
    requires a.at == b.at
    ensures var s := BothAtLast(objects, parts, a, b, true);
      && Runnable(s, first) && Runnable(Exec(s, first), second)
      && Stored(Exec(s, first).objects, a.at, a.data) && 0 !in Exec(s, first).builds
      && Stored(Exec(Exec(s, first), second).objects, a.at, b.data)
  {
    var s := BothAtLast(objects, parts, a, b, true);
    var t := Apply(s, Put(0));
    OneStep(t, Return(0), []);
    OneStep(s, Put(0), [Return(0)] + []);
    first := [Put(0)] + ([Return(0)] + []);
    OneStep(Apply(t, Return(0)), Put(1), []);
    second := [Put(1)] + [];
  }

  /**
   The overwriting run: two builds of one draft both find the manifest absent. The first puts its own and returns;
   the second puts another over it, for any draft and any two creation times.
   */
  lemma OverlapOverwrites(d: Draft, first: int, second: int) returns (before: seq<Step>, after: seq<Step>)
    ensures Runnable(Init(), before) && Runnable(Exec(Init(), before), after)
    ensures Stored(Exec(Init(), before).objects, ManifestLocation(d), ManifestBytes(ManifestFor(d, first)))
    ensures 0 !in Exec(Init(), before).builds
    ensures Stored(Exec(Exec(Init(), before), after).objects, ManifestLocation(d),
                   ManifestBytes(ManifestFor(d, second)))
  {
    var parts, a, b := Parts(d), ManifestWrite(d, first), ManifestWrite(d, second);
    PartsDiffer(d);
    var reach, objects := ReachesLast(parts, a, b);
    var looks := BothRead(objects, parts, a, b);
    var finish;
    finish, after := FirstThenSecond(objects, parts, a, b);
    RunConcat(BothAtLast(objects, parts, a, b, false), looks, finish);
    RunConcat(Init(), reach, looks + finish);
    before := reach + (looks + finish);
  }
}
