/**
 Catalog requests of any number of workers over one object store
 (apps/python-enrichment/pipeline/catalogs.py, started in threads by
 apps/python-enrichment/runtime/pool.py): a step is one read or one put of one request,
 a request may be abandoned between any two of them, and operators import and select
 snapshots in between. Cache pointers are read once and written unconditionally.
 */
module CatalogRuns {
  import opened Wrappers
  import opened Catalogs

  /** Where a request is. */
  datatype Stage =
    | ReadingTic
    | ReadingToi
    | Deriving(catalog: Catalog)
    | Checking(id: SnapshotId)          // records derived; is the manifest already there?
    | PuttingFile(id: SnapshotId)
    | PuttingManifest(id: SnapshotId)
    | PuttingPointer(id: SnapshotId)
    | Verifying

  /** A request and the two snapshots it read or derived so far. */
  datatype Request = Request(targets: Scope, tic: Option<SnapshotId>, toi: Option<SnapshotId>, stage: Stage)

  datatype State = State(store: Store, requests: map<nat, Request>, next: nat)

  /** What one request does next: one read or one put. `Derive` is any outcome of provider and normaliser. */
  datatype Move = Read | Derive(records: seq<Record>) | Check | PutRecords | Describe | Point | Finish | Abandon

  /** What operators do; an import writes the records before the manifest and the manifest before the selection. */
  datatype Import = ImportFile(id: SnapshotId) | ImportManifest(id: SnapshotId) | SelectCurrent(id: SnapshotId)

  datatype Step = Start(targets: Scope) | Move(r: nat, move: Move) | Operator(put: Import)

  function Slot(q: Request, c: Catalog): Option<SnapshotId> { if c == Tic then q.tic else q.toi }

  function WithSlot(q: Request, c: Catalog, id: SnapshotId): Request
  {
    if c == Tic then q.(tic := Some(id)) else q.(toi := Some(id))
  }

  /** Past the pointer reads: derive what is missing, TIC first, then verify. */
  function Onward(q: Request): Request
  {
    q.(stage := if q.tic.None? then Deriving(Tic) else if q.toi.None? then Deriving(Toi) else Verifying)
  }

  predicate MoveEnabled(s: Store, q: Request, move: Move)
  {
    match move
    case Read => q.stage.ReadingTic? || q.stage.ReadingToi?
    case Derive(_) => q.stage.Deriving?
    case Check => q.stage.Checking?
    case PutRecords => q.stage.PuttingFile?
    case Describe => q.stage.PuttingManifest?
    case Point => q.stage.PuttingPointer?
    case Finish => q.stage.Verifying?
    case Abandon => true
  }

  /** The store after a move. */
  function MovePut(s: Store, q: Request, move: Move): Store
    requires MoveEnabled(s, q, move)
  {
    match move
    case PutRecords => PutFile(s, q.stage.id)
    case Describe => PutManifest(s, q.stage.id)
    case Point => PutPointer(s, q.stage.id)
    case _ => s
  }

  /** The request after a move, unless that ends it. */
  function MoveNext(s: Store, q: Request, move: Move): Option<Request>
    requires MoveEnabled(s, q, move)
  {
    match move
    case Read =>
      Some(if q.stage.ReadingTic? then q.(tic := PointerTo(s, Tic, q.targets), stage := ReadingToi)
           else Onward(q.(toi := PointerTo(s, Toi, q.targets))))
    case Derive(records) => Some(q.(stage := Checking(SnapshotId(q.stage.catalog, records, q.targets))))
    case Check =>
      var id := q.stage.id;
      Some(q.(stage := if id in s.manifests then PuttingPointer(id) else PuttingFile(id)))
    case PutRecords => Some(q.(stage := PuttingManifest(q.stage.id)))
    case Describe => Some(q.(stage := PuttingPointer(q.stage.id)))
    case Point => Some(Onward(WithSlot(q, q.stage.id.catalog, q.stage.id)))
    case Finish => None
    case Abandon => None
  }

  /** The request once provider and normaliser have answered, if they do. */
  function Answered(s: Store, q: Request, w: World): Option<Request>
    requires q.stage.Deriving?
  {
    var c, records := q.stage.catalog, Answer(s, q.stage.catalog, q.targets, w);
    if records.None? then None else Some(q.(stage := Checking(SnapshotId(c, records.value, q.targets))))
  }

  /**
   What `Derive` steps lead to is what a request can get from the active snapshot, the provider and the
   normaliser.
   */
  lemma DerivationsAreAnswers(s: Store, q: Request, t: Request)
    requires q.stage.Deriving?
    ensures (exists records :: MoveNext(s, q, Derive(records)) == Some(t)) <==>
      (exists w :: Answered(s, q, w) == Some(t))
  {
    if records :| MoveNext(s, q, Derive(records)) == Some(t) {
      var w := World(Some([]), Some([]), (_, _) => Some(records), _ => Raw(""));
      assert Answered(s, q, w) == Some(t);
    }
    if w :| Answered(s, q, w) == Some(t) {
      assert MoveNext(s, q, Derive(Answer(s, q.stage.catalog, q.targets, w).value)) == Some(t);
    }
  }

  predicate ImportEnabled(s: Store, put: Import)
  {
    match put
    case ImportFile(_) => true
    case ImportManifest(id) => id in s.files
    case SelectCurrent(id) => id in s.manifests
  }

  function ImportPut(s: Store, put: Import): Store
  {
    match put
    case ImportFile(id) => PutFile(s, id)
    case ImportManifest(id) => PutManifest(s, id)
    case SelectCurrent(id) => PutCurrent(s, id)
  }

  predicate Enabled(s: State, step: Step)
  {
    match step
    case Start(targets) => targets != []
    case Move(r, move) => r in s.requests && MoveEnabled(s.store, s.requests[r], move)
    case Operator(put) => ImportEnabled(s.store, put)
  }

  function At(requests: map<nat, Request>, r: nat, q: Option<Request>): map<nat, Request>
  {
    if q.Some? then requests[r := q.value] else requests - {r}
  }

  function Apply(s: State, step: Step): State
    requires Enabled(s, step)
  {
    match step
    case Start(targets) => State(s.store, s.requests[s.next := Request(targets, None, None, ReadingTic)], s.next + 1)
    case Move(r, move) =>
      State(MovePut(s.store, s.requests[r], move), At(s.requests, r, MoveNext(s.store, s.requests[r], move)), s.next)
    case Operator(put) => s.(store := ImportPut(s.store, put))
  }

  predicate Runnable(s: State, steps: seq<Step>)
    decreases |steps|
  {
    steps == [] || (Enabled(s, steps[0]) && Runnable(Apply(s, steps[0]), steps[1..]))
  }

  function Exec(s: State, steps: seq<Step>): State
    requires Runnable(s, steps)
    decreases |steps|
  {
    if steps == [] then s else Exec(Apply(s, steps[0]), steps[1..])
  }

  function Init(): State { State(Store(map[], map[], map[], map[]), map[], 0) }

  ghost predicate Reachable(s: State) { exists steps :: Runnable(Init(), steps) && s == Exec(Init(), steps) }

  // ---- Every pointer names a complete snapshot --------------------------

  /** The id of the snapshot a request derived and is storing. */
  predicate Carries(stage: Stage)
  {
    stage.Checking? || stage.PuttingFile? || stage.PuttingManifest? || stage.PuttingPointer?
  }

  /** The catalog a request is deriving or storing. */
  function CatalogOf(stage: Stage): Catalog
    requires stage.Deriving? || Carries(stage)
  {
    if stage.Deriving? then stage.catalog else stage.id.catalog
  }

  /** What holds of a request at every stage. */
  predicate RequestOk(s: Store, q: Request)
  {
    && q.targets != [] && Names(s, Tic, q.targets, q.tic) && Names(s, Toi, q.targets, q.toi)
    && (q.stage.ReadingTic? ==> q.tic.None? && q.toi.None?)
    && (q.stage.ReadingToi? ==> q.toi.None?)
    && (q.stage.Deriving? || Carries(q.stage) ==>
          Slot(q, CatalogOf(q.stage)).None? && (CatalogOf(q.stage) == Toi ==> q.tic.Some?))
    && (Carries(q.stage) ==> q.stage.id.scope == q.targets)
    && (q.stage.PuttingManifest? ==> q.stage.id in s.files)
    && (q.stage.PuttingPointer? ==> q.stage.id in s.manifests)
    && (q.stage.Verifying? ==> q.tic.Some? && q.toi.Some?)
  }

  ghost predicate Inv(s: State)
  {
    && Sound(s.store)
    && (forall r :: r in s.requests ==> r < s.next && RequestOk(s.store, s.requests[r]))
  }

  lemma RequestEvolves(a: Store, b: Store, q: Request)
    requires Evolves(a, b) && RequestOk(a, q)
    ensures RequestOk(b, q)
  {}

  lemma MoveKeepsSound(s: Store, q: Request, move: Move)
    requires Sound(s) && RequestOk(s, q) && MoveEnabled(s, q, move)
    ensures Sound(MovePut(s, q, move)) && Evolves(s, MovePut(s, q, move))
  {
    match move
    case PutRecords => FileKeepsSound(s, q.stage.id);
    case Describe => ManifestKeepsSound(s, q.stage.id);
    case Point => PointerKeepsSound(s, q.stage.id);
    case _ =>
  }

  lemma ImportKeepsSound(s: Store, put: Import)
    requires Sound(s) && ImportEnabled(s, put)
    ensures Sound(ImportPut(s, put)) && Evolves(s, ImportPut(s, put))
  {
    match put
    case ImportFile(id) => FileKeepsSound(s, id);
    case ImportManifest(id) => ManifestKeepsSound(s, id);
    case SelectCurrent(id) => CurrentKeepsSound(s, id);
  }

  lemma MoveKeepsRequest(s: Store, q: Request, move: Move)
    requires Sound(s) && RequestOk(s, q) && MoveEnabled(s, q, move) && MoveNext(s, q, move).Some?
    ensures RequestOk(MovePut(s, q, move), MoveNext(s, q, move).value)
  {}

  lemma StepKeepsSound(s: State, step: Step)
    requires Inv(s) && Enabled(s, step)
    ensures Sound(Apply(s, step).store) && Evolves(s.store, Apply(s, step).store)
  {
    match step
    case Move(r, move) => MoveKeepsSound(s.store, s.requests[r], move);
    case Operator(put) => ImportKeepsSound(s.store, put);
    case Start(_) =>
  }

  lemma StepInv(s: State, step: Step)
    requires Inv(s) && Enabled(s, step)
    ensures Inv(Apply(s, step)) && Evolves(s.store, Apply(s, step).store) && s.next <= Apply(s, step).next
  {
    var t := Apply(s, step);
    StepKeepsSound(s, step);
    forall r | r in t.requests ensures r < t.next && RequestOk(t.store, t.requests[r]) {
      if step.Move? && step.r == r {
        MoveKeepsRequest(s.store, s.requests[r], step.move);
      } else if r in s.requests && (step.Start? ==> r != s.next) {
        RequestEvolves(s.store, t.store, s.requests[r]);
      }
    }
  }

  lemma {:induction false} RunInv(s: State, steps: seq<Step>)
    requires Inv(s) && Runnable(s, steps)
    ensures Inv(Exec(s, steps)) && Evolves(s.store, Exec(s, steps).store) && s.next <= Exec(s, steps).next
    decreases |steps|
  {
    if steps != [] {
      StepInv(s, steps[0]);
      RunInv(Apply(s, steps[0]), steps[1..]);
      EvolvesTransitive(s.store, Apply(s, steps[0]).store, Exec(s, steps).store);
    }
  }

  /**
   In every reachable state, whatever overlapped and was cut short, every manifest has its records beside it and
   every cache pointer names a complete snapshot of its own catalog and scope.
   */
  lemma AlwaysSound(s: State)
    requires Reachable(s)
    ensures Inv(s) && Sound(s.store)
  {
    var steps :| Runnable(Init(), steps) && s == Exec(Init(), steps);
    RunInv(Init(), steps);
  }

  // ---- Who can change a set pointer -------------------------------------

  /** The request read the pointer of a catalog as absent and has not written it yet. */
  predicate FoundAbsent(q: Request, c: Catalog)
  {
    Slot(q, c).None? && !q.stage.ReadingTic? && (c == Toi ==> !q.stage.ReadingToi?)
  }

  function InFlight(s: State, k: CacheKey): set<nat>
  {
    set r | r in s.requests && s.requests[r].targets == k.scope && FoundAbsent(s.requests[r], k.catalog)
  }

  /** One step leaves a set pointer alone, unless it is the put of a request that found it absent. */
  lemma PointerStep(s: State, step: Step, k: CacheKey)
    requires Inv(s) && Enabled(s, step) && k in s.store.cache
    ensures k in Apply(s, step).store.cache
    ensures Apply(s, step).store.cache[k] == s.store.cache[k]
      || (step.Move? && step.move.Point? && step.r in InFlight(s, k)
          && s.requests[step.r].stage.id == Apply(s, step).store.cache[k])
  {}

  /** A request finds a pointer absent only while it is. */
  lemma MoveFindsAbsent(s: Store, q: Request, move: Move, c: Catalog)
    requires RequestOk(s, q) && MoveEnabled(s, q, move) && MoveNext(s, q, move).Some?
      && CacheKey(c, q.targets) in s.cache
    ensures FoundAbsent(MoveNext(s, q, move).value, c) ==> FoundAbsent(q, c)
    ensures MoveNext(s, q, move).value.targets == q.targets
  {}

  /** Once a pointer is set, no further request can find it absent. */
  lemma InFlightStep(s: State, step: Step, k: CacheKey)
    requires Inv(s) && Enabled(s, step) && k in s.store.cache
    ensures InFlight(Apply(s, step), k) <= InFlight(s, k)
  {
    if step.Move? && MoveNext(s.store, s.requests[step.r], step.move).Some? && s.requests[step.r].targets == k.scope {
      MoveFindsAbsent(s.store, s.requests[step.r], step.move, k.catalog);
    }
  }

  /**
   Over every run: a pointer that was set is still set, and when it changed, it was changed by a request that
   had read it as absent before it was set.
   */
  lemma {:induction false} PointerChangesOnlyInFlight(s: State, steps: seq<Step>, k: CacheKey) returns (i: nat)
    requires Inv(s) && Runnable(s, steps) && k in s.store.cache
    ensures k in Exec(s, steps).store.cache && InFlight(Exec(s, steps), k) <= InFlight(s, k)
    ensures Exec(s, steps).store.cache[k] != s.store.cache[k] ==>
      i < |steps| && steps[i].Move? && steps[i].move.Point? && steps[i].r in InFlight(s, k)
    decreases |steps|
  {
    i := 0;
    if steps != [] {
      var t := Apply(s, steps[0]);
      StepInv(s, steps[0]);
      PointerStep(s, steps[0], k);
      InFlightStep(s, steps[0], k);
      if t.store.cache[k] == s.store.cache[k] {
        var j := PointerChangesOnlyInFlight(t, steps[1..], k);
        i := j + 1;
      } else {
        var _ := PointerChangesOnlyInFlight(t, steps[1..], k);
      }
    }
  }

  // ---- When a pointer is permanent --------------------------------------

  /** Every request that found the pointer absent has meanwhile derived the very snapshot it names. */
  predicate Settled(s: State, k: CacheKey)
  {
    && k in s.store.cache
    && forall r :: r in InFlight(s, k) ==> Carries(s.requests[r].stage) && s.requests[r].stage.id == s.store.cache[k]
  }

  /** Whatever happens next, the pointer stays. */
  ghost predicate Permanent(s: State, k: CacheKey)
  {
    && k in s.store.cache
    && forall steps :: Runnable(s, steps) ==>
      k in Exec(s, steps).store.cache && Exec(s, steps).store.cache[k] == s.store.cache[k]
  }

  lemma MoveKeepsSnapshot(s: Store, q: Request, move: Move, c: Catalog)
    requires RequestOk(s, q) && MoveEnabled(s, q, move) && MoveNext(s, q, move).Some?
    requires Carries(q.stage) && q.stage.id.catalog == c && FoundAbsent(MoveNext(s, q, move).value, c)
    ensures var n := MoveNext(s, q, move).value; Carries(n.stage) && n.stage.id == q.stage.id
  {}

  lemma SettledStep(s: State, step: Step, k: CacheKey)
    requires Inv(s) && Enabled(s, step) && Settled(s, k)
    ensures Settled(Apply(s, step), k) && Apply(s, step).store.cache[k] == s.store.cache[k]
  {
    var t := Apply(s, step);
    PointerStep(s, step, k);
    InFlightStep(s, step, k);
    forall r | r in InFlight(t, k) ensures Carries(t.requests[r].stage) && t.requests[r].stage.id == t.store.cache[k] {
      assert r in InFlight(s, k);
      if step.Move? && step.r == r {
        MoveKeepsSnapshot(s.store, s.requests[r], step.move, k.catalog);
      }
    }
  }

  lemma {:induction false} SettledRun(s: State, steps: seq<Step>, k: CacheKey)
    requires Inv(s) && Runnable(s, steps) && Settled(s, k)
    ensures Settled(Exec(s, steps), k) && Exec(s, steps).store.cache[k] == s.store.cache[k]
    decreases |steps|
  {
    if steps != [] {
      StepInv(s, steps[0]);
      SettledStep(s, steps[0], k);
      SettledRun(Apply(s, steps[0]), steps[1..], k);
    }
  }

  lemma {:induction false} RunConcat(s: State, a: seq<Step>, b: seq<Step>)
    requires Runnable(s, a) && Runnable(Exec(s, a), b)
    ensures Runnable(s, a + b) && Exec(s, a + b) == Exec(Exec(s, a), b)
    decreases |a|
  {
    if a == [] {
      assert a + b == b;
    } else {
      assert (a + b)[1..] == a[1..] + b && (a + b)[0] == a[0];
      RunConcat(Apply(s, a[0]), a[1..], b);
    }
  }

  lemma OneStep(s: State, step: Step, rest: seq<Step>)
    requires Enabled(s, step) && Runnable(Apply(s, step), rest)
    ensures Runnable(s, [step] + rest) && Exec(s, [step] + rest) == Exec(Apply(s, step), rest)
  {
    assert ([step] + rest)[1..] == rest;
  }

  /** The state after request `r` has pointed the cache at `id`: what else differs are snapshots only. */
  ghost predicate PointedAt(s: State, t: State, r: nat, id: SnapshotId)
  {
    && r in s.requests
    && t.requests == s.requests[r := Onward(WithSlot(s.requests[r], id.catalog, id))] && t.next == s.next
    && t.store.cache == s.store.cache[CacheKey(id.catalog, id.scope) := id]
    && t.store.current == s.store.current && Evolves(s.store, t.store)
  }

  /** Request `r` has come to another stage; what else differs are snapshots only. */
  ghost predicate Advanced(s: State, t: State, r: nat, stage: Stage)
  {
    && r in s.requests
    && t.requests == s.requests[r := s.requests[r].(stage := stage)] && t.next == s.next
    && t.store.cache == s.store.cache && t.store.current == s.store.current && Evolves(s.store, t.store)
  }

  lemma UpdateTwice<K, V>(m: map<K, V>, k: K, x: V, y: V)
    ensures m[k := x][k := y] == m[k := y]
  {}

  lemma AdvancedThenPointed(s: State, t: State, u: State, r: nat, stage: Stage, id: SnapshotId)
    requires Advanced(s, t, r, stage) && PointedAt(t, u, r, id)
    ensures PointedAt(s, u, r, id)
  {
    var q := s.requests[r];
    assert Onward(WithSlot(q.(stage := stage), id.catalog, id)) == Onward(WithSlot(q, id.catalog, id));
    UpdateTwice(s.requests, r, q.(stage := stage), Onward(WithSlot(q, id.catalog, id)));
    EvolvesTransitive(s.store, t.store, u.store);
  }

  lemma AdvanceFirst(s: State, step: Step, rest: seq<Step>, r: nat, stage: Stage, id: SnapshotId)
    requires Enabled(s, step) && Advanced(s, Apply(s, step), r, stage)
    requires Runnable(Apply(s, step), rest) && PointedAt(Apply(s, step), Exec(Apply(s, step), rest), r, id)
    ensures Runnable(s, [step] + rest) && PointedAt(s, Exec(s, [step] + rest), r, id)
  {
    OneStep(s, step, rest);
    AdvancedThenPointed(s, Apply(s, step), Exec(Apply(s, step), rest), r, stage, id);
  }

  lemma PointsNow(s: State, r: nat)
    requires Inv(s) && r in s.requests && s.requests[r].stage.PuttingPointer?
    ensures Runnable(s, [Move(r, Point)]) && PointedAt(s, Exec(s, [Move(r, Point)]), r, s.requests[r].stage.id)
  {
    StepInv(s, Move(r, Point));
    OneStep(s, Move(r, Point), []);
    assert [Move(r, Point)] + [] == [Move(r, Point)];
  }

  /** The move of a request that has derived its snapshot, and the stage it comes to. */
  function StoringMove(s: State, r: nat): (Move, Stage)
    requires r in s.requests
      && (s.requests[r].stage.Checking? || s.requests[r].stage.PuttingFile? || s.requests[r].stage.PuttingManifest?)
  {
    var id := s.requests[r].stage.id;
    match s.requests[r].stage
    case Checking(_) => (Check, if id in s.store.manifests then PuttingPointer(id) else PuttingFile(id))
    case PuttingFile(_) => (PutRecords, PuttingManifest(id))
    case PuttingManifest(_) => (Describe, PuttingPointer(id))
  }

  lemma StoringAdvances(s: State, r: nat)
    requires Inv(s) && r in s.requests
      && (s.requests[r].stage.Checking? || s.requests[r].stage.PuttingFile? || s.requests[r].stage.PuttingManifest?)
    ensures var m := StoringMove(s, r);
      Enabled(s, Move(r, m.0)) && Advanced(s, Apply(s, Move(r, m.0)), r, m.1) && Inv(Apply(s, Move(r, m.0)))
  {
    StepInv(s, Move(r, StoringMove(s, r).0));
  }

  /** How many moves come before the pointer is put. */
  function Left(stage: Stage): nat
  {
    match stage
    case Checking(_) => 3
    case PuttingFile(_) => 2
    case PuttingManifest(_) => 1
    case _ => 0
  }

  /** A request that has derived its snapshot can go on to store it and point the cache at it. */
  lemma {:induction false} Stores(s: State, r: nat) returns (steps: seq<Step>)
    requires Inv(s) && r in s.requests && Carries(s.requests[r].stage)
    ensures Runnable(s, steps) && PointedAt(s, Exec(s, steps), r, s.requests[r].stage.id)
    decreases if r in s.requests then Left(s.requests[r].stage) else 0
  {
    if Left(s.requests[r].stage) == 0 {
      PointsNow(s, r);
      steps := [Move(r, Point)];
    } else {
      StoringAdvances(s, r);
      var m := StoringMove(s, r);
      var rest := Stores(Apply(s, Move(r, m.0)), r);
      AdvanceFirst(s, Move(r, m.0), rest, r, m.1, s.requests[r].stage.id);
      steps := [Move(r, m.0)] + rest;
    }
  }

  /** A request can derive any snapshot, and store that. */
  lemma DerivesAndStores(s: State, r: nat, id: SnapshotId) returns (steps: seq<Step>)
    requires Inv(s) && r in s.requests && s.requests[r].stage.Deriving?
    requires id.catalog == s.requests[r].stage.catalog && id.scope == s.requests[r].targets
    ensures Runnable(s, steps) && PointedAt(s, Exec(s, steps), r, id)
  {
    var derive := Move(r, Derive(id.records));
    StepInv(s, derive);
    assert Advanced(s, Apply(s, derive), r, Checking(id));
    var rest := Stores(Apply(s, derive), r);
    AdvanceFirst(s, derive, rest, r, Checking(id), id);
    steps := [derive] + rest;
  }

  /** A request that found a pointer absent and has not derived that snapshot can be led to the point where it does. */
  lemma ReachesDerivation(s: State, r: nat, k: CacheKey) returns (steps: seq<Step>)
    requires Inv(s) && r in InFlight(s, k) && k in s.store.cache
    requires !(Carries(s.requests[r].stage) && s.requests[r].stage.id.catalog == k.catalog)
    ensures Runnable(s, steps)
    ensures var t := Exec(s, steps);
      && Inv(t) && r in t.requests && t.requests[r].stage == Deriving(k.catalog) && t.requests[r].targets == k.scope
      && k in t.store.cache && t.store.cache[k] == s.store.cache[k]
  {
    var q := s.requests[r];
    if q.stage.ReadingToi? {
      steps := [Move(r, Read)];
      StepInv(s, Move(r, Read));
      OneStep(s, Move(r, Read), []);
    } else if Carries(q.stage) {
      steps := Stores(s, r);
      RunInv(s, steps);
    } else if q.stage.catalog != k.catalog {
      steps := DerivesAndStores(s, r, SnapshotId(Tic, [], q.targets));
      RunInv(s, steps);
    } else {
      steps := [];
    }
  }

  /** An unsettled pointer can be overwritten with something else. */
  lemma Overwritten(s: State, r: nat, k: CacheKey) returns (steps: seq<Step>)
    requires Inv(s) && k in s.store.cache && r in InFlight(s, k)
    requires !(Carries(s.requests[r].stage) && s.requests[r].stage.id == s.store.cache[k])
    ensures Runnable(s, steps) && k in Exec(s, steps).store.cache && Exec(s, steps).store.cache[k] != s.store.cache[k]
  {
    if Carries(s.requests[r].stage) && s.requests[r].stage.id.catalog == k.catalog {
      steps := Stores(s, r);
    } else {
      var first := ReachesDerivation(s, r, k);
      var t := Exec(s, first);
      var records := if s.store.cache[k].records == [] then [Record(1, "")] else [];
      var second := DerivesAndStores(t, r, SnapshotId(k.catalog, records, k.scope));
      RunConcat(s, first, second);
      steps := first + second;
    }
  }

  /**
   Exactly when a set pointer is permanent: when every request that read it as absent before it was set has
   meanwhile derived the same snapshot. One that has not may still overwrite it.
   */
  lemma PermanentExactly(s: State, k: CacheKey)
    requires Reachable(s) && k in s.store.cache
    ensures Permanent(s, k) <==> Settled(s, k)
  {
    AlwaysSound(s);
    if Settled(s, k) {
      forall steps | Runnable(s, steps)
        ensures k in Exec(s, steps).store.cache && Exec(s, steps).store.cache[k] == s.store.cache[k]
      {
        SettledRun(s, steps, k);
      }
    } else {
      var r :| r in InFlight(s, k) && !(Carries(s.requests[r].stage) && s.requests[r].stage.id == s.store.cache[k]);
      var steps := Overwritten(s, r, k);
      assert !Permanent(s, k);
    }
  }

  // ---- Replay -----------------------------------------------------------

  predicate BothSettled(s: State, targets: Scope)
  {
    Settled(s, CacheKey(Tic, targets)) && Settled(s, CacheKey(Toi, targets))
  }

  /** A request that only reads: it has found what the pointers name, and is deriving and storing nothing. */
  predicate Replays(s: Store, q: Request)
  {
    || q.stage.ReadingTic?
    || (q.stage.ReadingToi? && q.tic.Some? && q.tic == PointerTo(s, Tic, q.targets))
    || (q.stage.Verifying? && q.tic.Some? && q.tic == PointerTo(s, Tic, q.targets) && q.toi.Some?
        && q.toi == PointerTo(s, Toi, q.targets))
  }

  /** The requests for these targets that were started since `first`. */
  predicate AllReplay(s: State, first: nat, targets: Scope)
  {
    forall r :: r in s.requests && r >= first && s.requests[r].targets == targets ==> Replays(s.store, s.requests[r])
  }

  lemma ReplayMove(s: Store, q: Request, move: Move)
    requires MoveEnabled(s, q, move) && MoveNext(s, q, move).Some? && Replays(s, q) && Cached(s, q.targets)
    ensures MovePut(s, q, move) == s && Replays(s, MoveNext(s, q, move).value)
      && MoveNext(s, q, move).value.targets == q.targets
  {}

  lemma SamePointers(a: Store, b: Store, q: Request)
    requires PointerTo(a, Tic, q.targets) == PointerTo(b, Tic, q.targets)
      && PointerTo(a, Toi, q.targets) == PointerTo(b, Toi, q.targets)
    ensures Replays(a, q) <==> Replays(b, q)
  {}

  lemma ReplayStep(s: State, step: Step, first: nat, targets: Scope)
    requires Inv(s) && Enabled(s, step) && BothSettled(s, targets) && first <= s.next && AllReplay(s, first, targets)
    ensures AllReplay(Apply(s, step), first, targets)
  {
    var t := Apply(s, step);
    SettledStep(s, step, CacheKey(Tic, targets));
    SettledStep(s, step, CacheKey(Toi, targets));
    forall r | r in t.requests && r >= first && t.requests[r].targets == targets
      ensures Replays(t.store, t.requests[r])
    {
      SamePointers(s.store, t.store, t.requests[r]);
      if step.Move? && step.r == r {
        ReplayedMove(s, r, step.move, first, targets);
      }
    }
  }

  lemma ReplayedMove(s: State, r: nat, move: Move, first: nat, targets: Scope)
    requires Inv(s) && Enabled(s, Move(r, move)) && BothSettled(s, targets) && AllReplay(s, first, targets)
    requires var t := Apply(s, Move(r, move)); r in t.requests && r >= first && t.requests[r].targets == targets
    ensures Replays(s.store, Apply(s, Move(r, move)).requests[r])
  {
    MoveKeepsTargets(s.store, s.requests[r], move);
    ReplayMove(s.store, s.requests[r], move);
  }

  lemma MoveKeepsTargets(s: Store, q: Request, move: Move)
    requires MoveEnabled(s, q, move) && MoveNext(s, q, move).Some?
    ensures MoveNext(s, q, move).value.targets == q.targets
  {}

  lemma {:induction false} ReplayRun(s: State, steps: seq<Step>, first: nat, targets: Scope)
    requires Inv(s) && Runnable(s, steps) && BothSettled(s, targets) && first <= s.next && AllReplay(s, first, targets)
    ensures AllReplay(Exec(s, steps), first, targets)
    decreases |steps|
  {
    if steps != [] {
      StepInv(s, steps[0]);
      ReplayStep(s, steps[0], first, targets);
      SettledStep(s, steps[0], CacheKey(Tic, targets));
      SettledStep(s, steps[0], CacheKey(Toi, targets));
      ReplayRun(Apply(s, steps[0]), steps[1..], first, targets);
    }
  }

  /** What a request returns when it verifies now. */
  function Returns(s: Store, q: Request): Option<Result<Bundle, SyncError>>
  {
    if q.stage.Verifying? && q.tic.Some? && q.toi.Some? then Some(Verify(s, q.targets, q.tic.value, q.toi.value))
    else None
  }

  /** In every reachable state a request about to verify holds complete snapshots of its scope: it cannot miss one. */
  lemma VerifiesComplete(s: State, r: nat)
    requires Inv(s) && r in s.requests && s.requests[r].stage.Verifying?
    ensures var q := s.requests[r];
      && q.tic.Some? && q.toi.Some? && BothComplete(s.store, q.targets, q.tic.value, q.toi.value)
      && Returns(s.store, q) == Some(Verdict(q.targets, q.tic.value, q.toi.value))
  {
    VerifySound(s.store, s.requests[r].targets, s.requests[r].tic.value, s.requests[r].toi.value);
  }

  lemma ReplayHolds(s: State, steps: seq<Step>, targets: Scope, r: nat)
    requires Inv(s) && BothSettled(s, targets) && Runnable(s, steps)
    requires r in Exec(s, steps).requests && r >= s.next && Exec(s, steps).requests[r].targets == targets
    ensures var q := Exec(s, steps).requests[r];
      && !q.stage.Deriving? && !Carries(q.stage)
      && (q.stage.Verifying? ==> Returns(Exec(s, steps).store, q) == Some(Replay(s.store, targets)))
  {
    var t := Exec(s, steps);
    RunInv(s, steps);
    ReplayRun(s, steps, s.next, targets);
    SettledRun(s, steps, CacheKey(Tic, targets));
    SettledRun(s, steps, CacheKey(Toi, targets));
    if t.requests[r].stage.Verifying? {
      VerifiesComplete(t, r);
      VerifySound(s.store, targets, s.store.cache[CacheKey(Tic, targets)], s.store.cache[CacheKey(Toi, targets)]);
    }
  }

  /**
   Replay: once both pointers of a target set are settled, whatever runs follow, a request started later that names
   the same positive targets in any order and multiplicity never derives, fetches or stores anything, and what it
   verifies in the end is what the pointers said then: the same snapshots, the same records, the same verdict.
   */
  lemma ReplayIsPermanent(s: State, steps: seq<Step>, a: seq<int>, b: seq<int>, r: nat)
    requires Reachable(s) && BothSettled(s, Targets(a)) && Runnable(s, steps)
    requires forall x :: x > 0 ==> (x in a <==> x in b)
    requires r in Exec(s, steps).requests && r >= s.next && Exec(s, steps).requests[r].targets == Targets(b)
    ensures var q := Exec(s, steps).requests[r];
      && !q.stage.Deriving? && !Carries(q.stage)
      && (q.stage.Verifying? ==> Returns(Exec(s, steps).store, q) == Some(Replay(s.store, Targets(a))))
  {
    ScopeIsCanonical(a, b);
    AlwaysSound(s);
    ReplayHolds(s, steps, Targets(a), r);
  }

  // ---- Overlapping requests replace each other's snapshots --------------

  /** Two requests for the same targets that both found both pointers absent. */
  function Overlap(targets: Scope): State
  {
    var absent := Request(targets, None, None, Deriving(Tic));
    State(Init().store, map[0 := absent, 1 := absent], 2)
  }

  lemma OverlapReached(targets: Scope) returns (steps: seq<Step>)
    requires targets != []
    ensures Runnable(Init(), steps) && Exec(Init(), steps) == Overlap(targets) && Inv(Overlap(targets))
  {
    var started := Request(targets, None, None, ReadingTic);
    var reading := Request(targets, None, None, ReadingToi);
    var absent := Request(targets, None, None, Deriving(Tic));
    var s0 := Init();
    var s1 := State(s0.store, map[0 := started], 1);
    var s2 := State(s0.store, map[0 := started, 1 := started], 2);
    var s3 := State(s0.store, map[0 := reading, 1 := started], 2);
    var s4 := State(s0.store, map[0 := reading, 1 := reading], 2);
    var s5 := State(s0.store, map[0 := absent, 1 := reading], 2);
    steps := [Start(targets), Start(targets), Move(0, Read), Move(1, Read), Move(0, Read), Move(1, Read)];
    PathRuns([s0, s1, s2, s3, s4, s5, Overlap(targets)], steps);
    RunInv(s0, steps);
  }

  /** A sequence of states, each the result of a step in the one before, is a run. */
  lemma {:induction false} PathRuns(path: seq<State>, steps: seq<Step>)
    requires |path| == |steps| + 1
    requires forall i :: 0 <= i < |steps| ==> Enabled(path[i], steps[i]) && Apply(path[i], steps[i]) == path[i + 1]
    ensures Runnable(path[0], steps) && Exec(path[0], steps) == path[|steps|]
    decreases |steps|
  {
    if steps != [] {
      PathRuns(path[1..], steps[1..]);
    }
  }

  lemma PointedTwice(s: State, m: State, t: State, r: nat, tic: SnapshotId, toi: SnapshotId)
    requires r in s.requests && s.requests[r] == Request(tic.scope, None, None, Deriving(Tic))
    requires tic.catalog == Tic && toi.catalog == Toi && tic.scope == toi.scope
    requires PointedAt(s, m, r, tic) && PointedAt(m, t, r, toi)
    ensures t.requests == s.requests[r := Request(tic.scope, Some(tic), Some(toi), Verifying)]
    ensures PointerTo(t.store, Tic, tic.scope) == Some(tic) && PointerTo(t.store, Toi, tic.scope) == Some(toi)
  {
    UpdateTwice(s.requests, r, Request(tic.scope, Some(tic), None, Deriving(Toi)),
                Request(tic.scope, Some(tic), Some(toi), Verifying));
  }

  /** A request that found both pointers absent can derive any two snapshots and get as far as verifying them. */
  lemma DerivesBoth(s: State, r: nat, tic: SnapshotId, toi: SnapshotId) returns (steps: seq<Step>)
    requires Inv(s) && r in s.requests && s.requests[r] == Request(tic.scope, None, None, Deriving(Tic))
    requires tic.catalog == Tic && toi.catalog == Toi && tic.scope == toi.scope
    ensures Runnable(s, steps)
    ensures var t := Exec(s, steps);
      && Inv(t) && t.requests == s.requests[r := Request(tic.scope, Some(tic), Some(toi), Verifying)]
      && PointerTo(t.store, Tic, tic.scope) == Some(tic) && PointerTo(t.store, Toi, tic.scope) == Some(toi)
  {
    var first := DerivesAndStores(s, r, tic);
    var m := Exec(s, first);
    RunInv(s, first);
    assert m.requests[r] == Request(tic.scope, Some(tic), None, Deriving(Toi));
    var second := DerivesAndStores(m, r, toi);
    PointedTwice(s, m, Exec(m, second), r, tic, toi);
    RunInv(m, second);
    RunConcat(s, first, second);
    steps := first + second;
  }

  /**
   The losing run: two overlapping requests for one target set both find the pointers absent. The first derives
   its snapshots and returns; the second derives others and overwrites both pointers. From then on the targets
   replay to the second pair, whichever two pairs these are.
   */
  lemma OverlapReplaces(a: seq<int>, tic: SnapshotId, toi: SnapshotId, tic': SnapshotId, toi': SnapshotId)
    returns (before: seq<Step>, after: seq<Step>)
    requires Targets(a) != [] && tic.catalog == tic'.catalog == Tic && toi.catalog == toi'.catalog == Toi
    requires tic.scope == toi.scope == tic'.scope == toi'.scope == Targets(a)
    ensures Runnable(Init(), before) && Runnable(Exec(Init(), before), after)
    ensures var s := Exec(Init(), before);
      && 0 in s.requests && Returns(s.store, s.requests[0]) == Some(Verdict(Targets(a), tic, toi))
      && Cached(s.store, Targets(a)) && Replay(s.store, Targets(a)) == Verdict(Targets(a), tic, toi)
    ensures var t := Exec(Exec(Init(), before), after);
      Cached(t.store, Targets(a)) && Replay(t.store, Targets(a)) == Verdict(Targets(a), tic', toi')
  {
    var targets := Targets(a);
    var reach := OverlapReached(targets);
    var first := DerivesBoth(Overlap(targets), 0, tic, toi);
    RunConcat(Init(), reach, first);
    before := reach + first;
    var s := Exec(Init(), before);
    VerifiesComplete(s, 0);
    after := DerivesBoth(s, 1, tic', toi');
    var t := Exec(s, after);
    VerifiesComplete(t, 1);
  }
}
