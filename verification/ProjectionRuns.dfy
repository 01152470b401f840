/**
 Attempts to project snapshots, any number of them at once and of one snapshot too
 (apps/python-enrichment/storage/clickhouse.py, run in a process pool by
 apps/python-enrichment/runtime/pool.py). A step is one effect of one attempt, and an
 attempt may be abandoned between any two.
 */
module ProjectionRuns {
  import opened Wrappers
  import opened Events
  import opened Projection

  /**
   What never changes: the contents of a snapshot, the labelling policy, and which manifests builds of a snapshot
   return, by checksum. Manifests of one snapshot differ in their creation time only.
   */
  datatype World = World(library: Id -> Manifest, policy: Policy, returned: (Id, Id) -> bool)

  /** Where an attempt is: projecting, or refreshing the cohort of a snapshot that is READY. */
  datatype Phase =
    | Begun
    | Loading(n: nat)
    | Filling
    | Sampling(n: nat)
    | Recording
    | Refreshing
    | Refilling

  datatype Attempt = Attempt(id: Id, sha: Id, phase: Phase)

  datatype State = State(tables: Tables, attempts: map<nat, Attempt>, next: nat)

  datatype Step = Begin(id: Id, sha: Id) | Advance(attempt: nat) | Abandon(attempt: nat)

  /** The next effect of an attempt; a refresh labels the rows it finds in the table. */
  function NextEffect(w: World, a: Attempt, rows: seq<Row>): Effect
  {
    var m := w.library(a.id);
    match a.phase
    case Begun => DeleteRows
    case Loading(n) => if n < |m.artifacts| then InsertFile(n) else ClearCohort
    case Filling => FillCohort(w.policy(RowsOf(m)))
    case Sampling(n) => if n < |m.curves| then AddSamples(n) else MarkReady(a.sha)
    case Recording => RecordLineage
    case Refreshing => ClearCohort
    case Refilling => FillCohort(w.policy(rows))
  }

  function NextPhase(m: Manifest, phase: Phase): Option<Phase>
  {
    match phase
    case Begun => Some(Loading(0))
    case Loading(n) => Some(if n < |m.artifacts| then Loading(n + 1) else Filling)
    case Filling => Some(Sampling(0))
    case Sampling(n) => Some(if n < |m.curves| then Sampling(n + 1) else Recording)
    case Recording => None
    case Refreshing => Some(Refilling)
    case Refilling => None
  }

  predicate Enabled(w: World, s: State, step: Step)
  {
    match step
    case Begin(id, sha) => w.returned(id, sha)
    case Advance(a) => a in s.attempts
    case Abandon(a) => a in s.attempts
  }

  function Moved(attempts: map<nat, Attempt>, a: nat, phase: Option<Phase>): map<nat, Attempt>
    requires a in attempts
  {
    if phase.Some? then attempts[a := attempts[a].(phase := phase.value)] else attempts - {a}
  }

  /** An attempt refreshes what is READY for its own manifest and projects anything else. */
  function FirstPhase(t: Tables, id: Id, sha: Id): Phase { if sha in ReadyFor(t, id) then Refreshing else Begun }

  function Apply(w: World, s: State, step: Step): State
    requires Enabled(w, s, step)
  {
    match step
    case Begin(id, sha) => State(s.tables, s.attempts[s.next := Attempt(id, sha, FirstPhase(s.tables, id, sha))],
                                 s.next + 1)
    case Advance(a) =>
      var x := s.attempts[a];
      var m := w.library(x.id);
      State(Perform(s.tables, m, NextEffect(w, x, RowsIn(s.tables.candidates, x.id))),
            Moved(s.attempts, a, NextPhase(m, x.phase)), s.next)
    case Abandon(a) => s.(attempts := s.attempts - {a})
  }

  predicate Runnable(w: World, s: State, steps: seq<Step>)
    decreases |steps|
  {
    steps == [] || (Enabled(w, s, steps[0]) && Runnable(w, Apply(w, s, steps[0]), steps[1..]))
  }

  function Exec(w: World, s: State, steps: seq<Step>): State
    requires Runnable(w, s, steps)
    decreases |steps|
  {
    if steps == [] then s else Exec(w, Apply(w, s, steps[0]), steps[1..])
  }

  const INIT := State(NO_ROWS, map[], 0)

  ghost predicate Reachable(w: World, s: State)
  {
    exists steps :: Runnable(w, INIT, steps) && s == Exec(w, INIT, steps)
  }

  /** A manifest is stored under its own snapshot id. */
  ghost predicate Consistent(w: World) { forall id :: w.library(id).snapshot == id }

  function Sight(s: State, id: Id): View { ViewOf(s.tables, id) }

  // ---- What one step does -----------------------------------------------

  /** The snapshot of a step. */
  function About(s: State, step: Step): Option<Id>
  {
    match step
    case Begin(id, _) => Some(id)
    case Advance(a) => if a in s.attempts then Some(s.attempts[a].id) else None
    case Abandon(a) => if a in s.attempts then Some(s.attempts[a].id) else None
  }

  /** The attempts of a snapshot. */
  function Of(s: State, id: Id): map<nat, Attempt>
  {
    map a | a in s.attempts && s.attempts[a].id == id :: s.attempts[a]
  }

  lemma OthersUntouched(w: World, s: State, step: Step, id: Id)
    requires Consistent(w) && Enabled(w, s, step) && About(s, step) != Some(id)
    requires forall a :: a in s.attempts ==> a < s.next
    ensures SampledMore(Sight(s, id), Sight(Apply(w, s, step), id)) && Of(Apply(w, s, step), id) == Of(s, id)
  {
    if step.Advance? {
      var x := s.attempts[step.attempt];
      EffectMeans(s.tables, w.library(x.id), NextEffect(w, x, RowsIn(s.tables.candidates, x.id)), id);
    }
  }

  lemma OwnAdvance(w: World, s: State, a: nat)
    requires Consistent(w) && a in s.attempts
    ensures var x, t := s.attempts[a], Apply(w, s, Advance(a));
      Sight(t, x.id) == Seen(Sight(s, x.id), w.library(x.id), NextEffect(w, x, Sight(s, x.id).rows))
  {
    var x := s.attempts[a];
    EffectMeans(s.tables, w.library(x.id), NextEffect(w, x, RowsIn(s.tables.candidates, x.id)), x.id);
  }

  // ---- What every run keeps ---------------------------------------------

  /** What an attempt has done that nobody undoes. */
  predicate AttemptOk(w: World, x: Attempt, v: View)
  {
    var m := w.library(x.id);
    && w.returned(x.id, x.sha)
    && match x.phase
       case Loading(n) => n <= |m.artifacts|
       case Sampling(n) => n <= |m.curves| && SamplesTo(m, n) <= v.samples
       case Recording => x.sha in v.ready
       case Refreshing => x.sha in v.ready
       case Refilling => x.sha in v.ready
       case _ => true
  }

  /** What overlapping attempts cannot spoil: no foreign row, whole samples and lineage, no lineage before READY. */
  predicate ViewOk(w: World, m: Manifest, v: View)
  {
    && (forall r :: r in v.rows ==> r in RowsOf(m))
    && (forall sha :: sha in v.ready ==> w.returned(m.snapshot, sha))
    && (v.ready != {} ==> SamplesTo(m, |m.curves|) <= v.samples)
    && (v.lineage == {} || (v.ready != {} && v.lineage == Recorded(m)))
  }

  ghost predicate SnapshotOk(w: World, s: State, id: Id) { ViewOk(w, w.library(id), Sight(s, id)) }

  ghost predicate Inv(w: World, s: State)
  {
    && (forall a :: a in s.attempts ==> a < s.next && AttemptOk(w, s.attempts[a], Sight(s, s.attempts[a].id)))
    && (forall id :: SnapshotOk(w, s, id))
  }

  lemma AttemptGrows(w: World, x: Attempt, v: View, u: View)
    requires AttemptOk(w, x, v) && v.samples <= u.samples && v.ready <= u.ready
    ensures AttemptOk(w, x, u)
  {}

  lemma {:induction false} FlattenHolds(parts: seq<seq<Row>>, n: nat, r: Row)
    requires n < |parts| && r in parts[n]
    ensures r in Flatten(parts)
  {
    if n < |parts| - 1 { FlattenHolds(parts[..|parts| - 1], n, r); }
  }

  /** One effect of an attempt, seen from its snapshot. */
  lemma EffectOk(w: World, x: Attempt, v: View)
    requires Consistent(w) && AttemptOk(w, x, v) && ViewOk(w, w.library(x.id), v)
    ensures var m := w.library(x.id);
      var u, phase := Seen(v, m, NextEffect(w, x, v.rows)), NextPhase(m, x.phase);
      && ViewOk(w, m, u) && v.samples <= u.samples && v.ready <= u.ready
      && (phase.Some? ==> AttemptOk(w, x.(phase := phase.value), u))
  {
    var m := w.library(x.id);
    if x.phase.Loading? && x.phase.n < |m.artifacts| {
      forall r | r in m.artifacts[x.phase.n] ensures r in RowsOf(m) { FlattenHolds(m.artifacts, x.phase.n, r); }
    }
  }

  lemma SampledOk(w: World, m: Manifest, v: View, u: View)
    requires ViewOk(w, m, v) && SampledMore(v, u)
    ensures ViewOk(w, m, u)
  {}

  lemma AdvanceViews(w: World, s: State, a: nat, id: Id)
    requires Consistent(w) && Inv(w, s) && a in s.attempts
    ensures var t := Apply(w, s, Advance(a));
      SnapshotOk(w, t, id) && Sight(s, id).samples <= Sight(t, id).samples && Sight(s, id).ready <= Sight(t, id).ready
  {
    var x := s.attempts[a];
    if id == x.id {
      OwnAdvance(w, s, a);
      assert SnapshotOk(w, s, id);
      EffectOk(w, x, Sight(s, id));
    } else {
      OthersUntouched(w, s, Advance(a), id);
      assert SnapshotOk(w, s, id);
      SampledOk(w, w.library(id), Sight(s, id), Sight(Apply(w, s, Advance(a)), id));
    }
  }

  lemma AdvanceInv(w: World, s: State, a: nat)
    requires Consistent(w) && Inv(w, s) && a in s.attempts
    ensures Inv(w, Apply(w, s, Advance(a)))
  {
    var x, t := s.attempts[a], Apply(w, s, Advance(a));
    forall id ensures SnapshotOk(w, t, id) { AdvanceViews(w, s, a, id); }
    forall b | b in t.attempts ensures b < t.next && AttemptOk(w, t.attempts[b], Sight(t, t.attempts[b].id)) {
      if b == a {
        OwnAdvance(w, s, a);
        assert SnapshotOk(w, s, x.id);
        EffectOk(w, x, Sight(s, x.id));
      } else {
        AdvanceViews(w, s, a, s.attempts[b].id);
        AttemptGrows(w, s.attempts[b], Sight(s, s.attempts[b].id), Sight(t, s.attempts[b].id));
      }
    }
  }

  lemma StepInv(w: World, s: State, step: Step)
    requires Consistent(w) && Inv(w, s) && Enabled(w, s, step)
    ensures Inv(w, Apply(w, s, step))
  {
    if step.Advance? {
      AdvanceInv(w, s, step.attempt);
    } else {
      var t := Apply(w, s, step);
      forall id ensures SnapshotOk(w, t, id) { assert SnapshotOk(w, s, id); }
    }
  }

  lemma {:induction false} RunInv(w: World, s: State, steps: seq<Step>)
    requires Consistent(w) && Inv(w, s) && Runnable(w, s, steps)
    ensures Inv(w, Exec(w, s, steps))
    decreases |steps|
  {
    if steps != [] {
      StepInv(w, s, steps[0]);
      RunInv(w, Apply(w, s, steps[0]), steps[1..]);
    }
  }

  /**
   What holds of every snapshot however its attempts overlap: only rows of its manifest, and when it is READY all
   samples of its light curves; lineage whole or not at all, and not before READY.
   */
  lemma OverlapKeeps(w: World, s: State, id: Id)
    requires Consistent(w) && Reachable(w, s)
    ensures Inv(w, s) && ViewOk(w, w.library(id), Sight(s, id))
  {
    var steps :| Runnable(w, INIT, steps) && s == Exec(w, INIT, steps);
    RunInv(w, INIT, steps);
    assert SnapshotOk(w, s, id);
  }

  // ---- When the rows stay exact -----------------------------------------

  /** The attempt will still delete or insert rows. */
  predicate Threatens(m: Manifest, phase: Phase)
  {
    || phase.Begun?
    || (phase.Loading? && phase.n < |m.artifacts| && Flatten(m.artifacts[phase.n..]) != [])
  }

  /** No attempt of the snapshot is projecting rows, and none can begin to: it is READY for every manifest returned. */
  ghost predicate Calm(w: World, s: State, id: Id)
  {
    && (forall a :: a in s.attempts && s.attempts[a].id == id ==> !Threatens(w.library(id), s.attempts[a].phase))
    && (forall sha :: w.returned(id, sha) ==> sha in Sight(s, id).ready)
  }

  /** Whatever happens next, the snapshot has exactly the rows of its manifest. */
  ghost predicate StaysExact(w: World, s: State, id: Id)
  {
    forall steps :: Runnable(w, s, steps) ==> Sight(Exec(w, s, steps), id).rows == RowsOf(w.library(id))
  }

  lemma Reassociate(a: seq<Row>, b: seq<Row>, c: seq<Row>)
    ensures a + b + c == a + (b + c)
  {}
  lemma {:induction false} FlattenCons(parts: seq<seq<Row>>)
    requires parts != []
    ensures Flatten(parts) == parts[0] + Flatten(parts[1..])
  {
    var n, tail := |parts| - 1, parts[1..];
    if n == 0 {
      assert parts[..0] == [] && tail == [];
    } else {
      var first, last := parts[..n], parts[n];
      FlattenCons(first);
      assert first[1..] == tail[..n - 1] && tail[n - 1] == last;
      Reassociate(parts[0], Flatten(tail[..n - 1]), last);
    }
  }

  lemma RestCons(m: Manifest, n: nat)
    requires n < |m.artifacts|
    ensures Flatten(m.artifacts[n..]) == m.artifacts[n] + Flatten(m.artifacts[n + 1..])
  {
    FlattenCons(m.artifacts[n..]);
    assert m.artifacts[n..][1..] == m.artifacts[n + 1..];
  }

  /** An attempt that does not threaten the rows leaves them alone and goes on not to threaten them. */
  lemma HarmlessEffect(w: World, x: Attempt, v: View)
    requires !Threatens(w.library(x.id), x.phase)
    ensures var m := w.library(x.id);
      && Seen(v, m, NextEffect(w, x, v.rows)).rows == v.rows
      && (NextPhase(m, x.phase).Some? ==> !Threatens(m, NextPhase(m, x.phase).value))
  {
    var m := w.library(x.id);
    if x.phase.Loading? && x.phase.n < |m.artifacts| {
      RestCons(m, x.phase.n);
      assert v.rows + [] == v.rows;
    }
  }

  lemma CalmStep(w: World, s: State, step: Step, id: Id)
    requires Consistent(w) && Inv(w, s) && Enabled(w, s, step) && Calm(w, s, id)
    ensures Calm(w, Apply(w, s, step), id) && Sight(Apply(w, s, step), id).rows == Sight(s, id).rows
  {
    var t := Apply(w, s, step);
    if About(s, step) != Some(id) {
      OthersUntouched(w, s, step, id);
      forall a | a in t.attempts && t.attempts[a].id == id ensures !Threatens(w.library(id), t.attempts[a].phase) {
        assert a in Of(t, id) && Of(t, id)[a] == s.attempts[a];
      }
    } else if step.Advance? {
      OwnAdvance(w, s, step.attempt);
      HarmlessEffect(w, s.attempts[step.attempt], Sight(s, id));
      AdvanceViews(w, s, step.attempt, id);
    }
  }

  lemma {:induction false} CalmRun(w: World, s: State, steps: seq<Step>, id: Id)
    requires Consistent(w) && Inv(w, s) && Runnable(w, s, steps) && Calm(w, s, id)
    ensures Calm(w, Exec(w, s, steps), id) && Sight(Exec(w, s, steps), id).rows == Sight(s, id).rows
    decreases |steps|
  {
    if steps != [] {
      StepInv(w, s, steps[0]);
      CalmStep(w, s, steps[0], id);
      CalmRun(w, Apply(w, s, steps[0]), steps[1..], id);
    }
  }

  lemma OneStep(w: World, s: State, step: Step, rest: seq<Step>)
    requires Enabled(w, s, step) && Runnable(w, Apply(w, s, step), rest)
    ensures Runnable(w, s, [step] + rest) && Exec(w, s, [step] + rest) == Exec(w, Apply(w, s, step), rest)
  {
    assert ([step] + rest)[1..] == rest;
  }

  lemma {:induction false} RunConcat(w: World, s: State, a: seq<Step>, b: seq<Step>)
    requires Runnable(w, s, a) && Runnable(w, Exec(w, s, a), b)
    ensures Runnable(w, s, a + b) && Exec(w, s, a + b) == Exec(w, Exec(w, s, a), b)
    decreases |a|
  {
    if a == [] {
      assert a + b == b;
    } else {
      assert (a + b)[1..] == a[1..] + b && (a + b)[0] == a[0];
      RunConcat(w, Apply(w, s, a[0]), a[1..], b);
    }
  }

  /** The state after attempt `a` alone has come to `phase` with the rows of its snapshot as given. */
  predicate Came(s: State, t: State, a: nat, phase: Phase, rows: seq<Row>)
  {
    && a in s.attempts && t.next == s.next && t.attempts == s.attempts[a := s.attempts[a].(phase := phase)]
    && Sight(t, s.attempts[a].id).rows == rows
    && Sight(t, s.attempts[a].id).lineage == Sight(s, s.attempts[a].id).lineage
  }

  lemma CameOn(s: State, t: State, u: State, a: nat, first: Phase, some: seq<Row>, second: Phase, rows: seq<Row>)
    requires Came(s, t, a, first, some) && Came(t, u, a, second, rows)
    ensures Came(s, u, a, second, rows)
  {
    var x := s.attempts[a];
    assert s.attempts[a := x.(phase := first)][a := x.(phase := second)] == s.attempts[a := x.(phase := second)];
  }

  lemma LoadsOne(w: World, s: State, a: nat)
    requires Consistent(w) && a in s.attempts && s.attempts[a].phase.Loading?
    requires s.attempts[a].phase.n < |w.library(s.attempts[a].id).artifacts|
    ensures var x := s.attempts[a];
      Came(s, Apply(w, s, Advance(a)), a, Loading(x.phase.n + 1),
           Sight(s, x.id).rows + w.library(x.id).artifacts[x.phase.n])
  {
    OwnAdvance(w, s, a);
  }

  /** An attempt that is loading can insert all it has left, whatever is there already. */
  lemma {:induction false} LoadsRest(w: World, s: State, a: nat, m: Manifest, n: nat) returns (steps: seq<Step>)
    requires Consistent(w) && a in s.attempts && m == w.library(s.attempts[a].id)
    requires s.attempts[a].phase == Loading(n) && n <= |m.artifacts|
    ensures Runnable(w, s, steps)
    ensures Came(s, Exec(w, s, steps), a, Loading(|m.artifacts|),
                 Sight(s, s.attempts[a].id).rows + Flatten(m.artifacts[n..]))
    decreases |m.artifacts| - n
  {
    var id := s.attempts[a].id;
    var rows, k := Sight(s, id).rows, |m.artifacts|;
    if n == k {
      steps := [];
      assert m.artifacts[n..] == [] && rows + [] == rows;
      assert s.attempts[a := s.attempts[a]] == s.attempts;
    } else {
      LoadsOne(w, s, a);
      var t := Apply(w, s, Advance(a));
      var rest := LoadsRest(w, t, a, m, n + 1);
      OneStep(w, s, Advance(a), rest);
      steps := [Advance(a)] + rest;
      RestCons(m, n);
      Reassociate(rows, m.artifacts[n], Flatten(m.artifacts[n + 1..]));
      CameOn(s, t, Exec(w, t, rest), a, Loading(n + 1), rows + m.artifacts[n], Loading(k),
             rows + Flatten(m.artifacts[n..]));
    }
  }


  /** The first effect of an attempt deletes the rows. */
  lemma Deletes(w: World, s: State, a: nat)
    requires Consistent(w) && a in s.attempts && s.attempts[a].phase.Begun?
    ensures Runnable(w, s, [Advance(a)]) && Came(s, Exec(w, s, [Advance(a)]), a, Loading(0), [])
  {
    OwnAdvance(w, s, a);
    OneStep(w, s, Advance(a), []);
    assert [Advance(a)] + [] == [Advance(a)];
  }

  lemma ThreatCarriedOut(w: World, s: State, a: nat) returns (steps: seq<Step>)
    requires Consistent(w) && Inv(w, s) && a in s.attempts
    requires var x := s.attempts[a];
      var m := w.library(x.id);
      Threatens(m, x.phase) && RowsOf(m) != [] && Sight(s, x.id).rows == RowsOf(m)
    ensures Runnable(w, s, steps) && Sight(Exec(w, s, steps),
                                           s.attempts[a].id).rows != RowsOf(w.library(s.attempts[a].id))
  {
    if s.attempts[a].phase.Begun? {
      Deletes(w, s, a);
      steps := [Advance(a)];
    } else {
      steps := LoadsRest(w, s, a, w.library(s.attempts[a].id), s.attempts[a].phase.n);
    }
  }

  lemma NewThreat(w: World, s: State, id: Id, sha: Id) returns (steps: seq<Step>)
    requires Consistent(w) && w.returned(id, sha) && sha !in Sight(s, id).ready && RowsOf(w.library(id)) != []
    ensures Runnable(w, s, steps) && Sight(Exec(w, s, steps), id).rows != RowsOf(w.library(id))
  {
    var t := Apply(w, s, Begin(id, sha));
    Deletes(w, t, s.next);
    OneStep(w, s, Begin(id, sha), [Advance(s.next)]);
    steps := [Begin(id, sha)] + [Advance(s.next)];
  }

  /** A snapshot has rows only if its manifest does. */
  lemma RowsHaveSource(w: World, s: State, id: Id)
    requires Inv(w, s)
    ensures Sight(s, id).rows == [] || RowsOf(w.library(id)) != []
  {
    assert SnapshotOk(w, s, id);
    if Sight(s, id).rows != [] { assert Sight(s, id).rows[0] in Sight(s, id).rows; }
  }

  /**
   Exactly when an exact snapshot stays exact: when it has no rows to lose, or no attempt of it is still loading
   rows and none can begin to.
   */
  lemma StaysExactExactly(w: World, s: State, id: Id)
    requires Consistent(w) && Reachable(w, s) && Sight(s, id).rows == RowsOf(w.library(id))
    ensures StaysExact(w, s, id) <==> RowsOf(w.library(id)) == [] || Calm(w, s, id)
  {
    OverlapKeeps(w, s, id);
    var m := w.library(id);
    if RowsOf(m) == [] || Calm(w, s, id) {
      forall steps | Runnable(w, s, steps) ensures Sight(Exec(w, s, steps), id).rows == RowsOf(m) {
        if RowsOf(m) == [] {
          RunInv(w, s, steps);
          RowsHaveSource(w, Exec(w, s, steps), id);
        } else {
          CalmRun(w, s, steps, id);
        }
      }
    } else if a :| a in s.attempts && s.attempts[a].id == id && Threatens(m, s.attempts[a].phase) {
      var steps := ThreatCarriedOut(w, s, a);
      assert !StaysExact(w, s, id);
    } else {
      var sha :| w.returned(id, sha) && sha !in Sight(s, id).ready;
      var steps := NewThreat(w, s, id, sha);
      assert !StaysExact(w, s, id);
    }
  }

  /** Builds of a snapshot return one manifest. */
  ghost predicate OneManifest(w: World) { forall id, a, b :: w.returned(id, a) && w.returned(id, b) ==> a == b }

  /**
   With one manifest per snapshot: a READY snapshot that is exact stays so in every continuation if and only if no
   other attempt of it is under way that will still delete or insert rows.
   */
  lemma ReadyStaysExactExactly(w: World, s: State, id: Id)
    requires Consistent(w) && OneManifest(w) && Reachable(w, s)
    requires Sight(s, id).ready != {} && Sight(s, id).rows == RowsOf(w.library(id)) && RowsOf(w.library(id)) != []
    ensures StaysExact(w, s, id) <==>
      forall a :: a in s.attempts && s.attempts[a].id == id ==> !Threatens(w.library(id), s.attempts[a].phase)
  {
    StaysExactExactly(w, s, id);
    OverlapKeeps(w, s, id);
    var sha :| sha in Sight(s, id).ready;
    assert w.returned(id, sha);
  }

  // ---- Overlapping attempts double the rows -----------------------------

  /** The rows are in: what is left before READY, and how much of it. */
  predicate Loaded(m: Manifest, phase: Phase)
  {
    phase == Loading(|m.artifacts|) || phase.Filling? || (phase.Sampling? && phase.n <= |m.curves|)
  }

  function Left(m: Manifest, phase: Phase): nat
    requires Loaded(m, phase)
  {
    match phase
    case Loading(_) => |m.curves| + 2
    case Filling => |m.curves| + 1
    case Sampling(n) => |m.curves| - n
  }

  lemma LoadedAdvance(w: World, s: State, a: nat)
    requires Consistent(w) && a in s.attempts && Loaded(w.library(s.attempts[a].id), s.attempts[a].phase)
    ensures var x, t := s.attempts[a], Apply(w, s, Advance(a));
      var m := w.library(x.id);
      && Came(s, t, a, NextPhase(m, x.phase).value, Sight(s, x.id).rows)
      && (NextPhase(m, x.phase).value.Recording? ==> x.sha in Sight(t, x.id).ready)
  {
    OwnAdvance(w, s, a);
  }

  /** An attempt that has loaded its rows can get as far as READY without touching them. */
  lemma {:induction false} ReachesReady(w: World, s: State, a: nat, m: Manifest, left: nat) returns (steps: seq<Step>)
    requires Consistent(w) && a in s.attempts && m == w.library(s.attempts[a].id)
    requires Loaded(m, s.attempts[a].phase) && left == Left(m, s.attempts[a].phase)
    ensures Runnable(w, s, steps)
    ensures var x, t := s.attempts[a], Exec(w, s, steps);
      Came(s, t, a, Recording, Sight(s, x.id).rows) && x.sha in Sight(t, x.id).ready
    decreases left
  {
    var x, t := s.attempts[a], Apply(w, s, Advance(a));
    var next := NextPhase(m, x.phase).value;
    LoadedAdvance(w, s, a);
    if next.Recording? {
      OneStep(w, s, Advance(a), []);
      steps := [Advance(a)] + [];
    } else {
      var rest := ReachesReady(w, t, a, m, left - 1);
      OneStep(w, s, Advance(a), rest);
      steps := [Advance(a)] + rest;
      CameOn(s, t, Exec(w, t, rest), a, next, Sight(s, x.id).rows, Recording, Sight(s, x.id).rows);
    }
  }

  /** Two attempts of one snapshot, at these phases and with these rows. */
  predicate TwoOf(s: State, id: Id, sha: Id, other: Id, first: Phase, second: Phase, rows: seq<Row>)
  {
    && s.attempts == map[0 := Attempt(id, sha, first), 1 := Attempt(id, other, second)] && s.next == 2
    && Sight(s, id).rows == rows
  }

  lemma TwoBegin(w: World, id: Id, sha: Id, other: Id) returns (steps: seq<Step>)
    requires Consistent(w) && w.returned(id, sha) && w.returned(id, other)
    ensures Runnable(w, INIT, steps) && TwoOf(Exec(w, INIT, steps), id, sha, other, Begun, Begun, [])
  {
    var s := Apply(w, INIT, Begin(id, sha));
    OneStep(w, s, Begin(id, other), []);
    OneStep(w, INIT, Begin(id, sha), [Begin(id, other)] + []);
    steps := [Begin(id, sha)] + ([Begin(id, other)] + []);
    assert ReadyFor(NO_ROWS, id) == {};
  }

  lemma TwoDelete(w: World, s: State, id: Id, sha: Id, other: Id) returns (steps: seq<Step>)
    requires Consistent(w) && TwoOf(s, id, sha, other, Begun, Begun, [])
    ensures Runnable(w, s, steps) && TwoOf(Exec(w, s, steps), id, sha, other, Loading(0), Loading(0), [])
  {
    Deletes(w, s, 0);
    var t := Exec(w, s, [Advance(0)]);
    Deletes(w, t, 1);
    RunConcat(w, s, [Advance(0)], [Advance(1)]);
    steps := [Advance(0)] + [Advance(1)];
    assert Exec(w, s, steps).attempts == map[0 := Attempt(id, sha, Loading(0)), 1 := Attempt(id, other, Loading(0))];
  }

  /** Either of the two loads all its rows. */
  lemma FirstLoads(w: World, s: State, id: Id, sha: Id, other: Id, m: Manifest) returns (steps: seq<Step>)
    requires Consistent(w) && m == w.library(id) && TwoOf(s, id, sha, other, Loading(0), Loading(0), [])
    ensures Runnable(w, s, steps) && TwoOf(Exec(w, s, steps), id, sha, other, Loading(|m.artifacts|), Loading(0),
                                           RowsOf(m))
  {
    assert m.artifacts[0..] == m.artifacts && [] + RowsOf(m) == RowsOf(m);
    steps := LoadsRest(w, s, 0, m, 0);
    assert Exec(w, s, steps).attempts
      == map[0 := Attempt(id, sha, Loading(|m.artifacts|)), 1 := Attempt(id, other, Loading(0))];
  }

  lemma SecondLoads(w: World, s: State, id: Id, sha: Id, other: Id, m: Manifest) returns (steps: seq<Step>)
    requires Consistent(w) && m == w.library(id)
      && TwoOf(s, id, sha, other, Loading(|m.artifacts|), Loading(0), RowsOf(m))
    ensures var k := Loading(|m.artifacts|);
      Runnable(w, s, steps) && TwoOf(Exec(w, s, steps), id, sha, other, k, k, RowsOf(m) + RowsOf(m))
  {
    var k := Loading(|m.artifacts|);
    assert m.artifacts[0..] == m.artifacts;
    steps := LoadsRest(w, s, 1, m, 0);
    assert Exec(w, s, steps).attempts == map[0 := Attempt(id, sha, k), 1 := Attempt(id, other, k)];
  }

  /**
   The losing run: two attempts of one snapshot, for the same manifest or for two, both delete before either inserts.
   The first marks the snapshot READY with every row twice, for every manifest.
   */
  lemma OverlapDoubles(w: World, id: Id, sha: Id, other: Id) returns (steps: seq<Step>)
    requires Consistent(w) && w.returned(id, sha) && w.returned(id, other)
    ensures Runnable(w, INIT, steps)
    ensures var v, m := Sight(Exec(w, INIT, steps), id), w.library(id);
      sha in v.ready && v.rows == RowsOf(m) + RowsOf(m)
  {
    var m := w.library(id);
    var begin := TwoBegin(w, id, sha, other);
    var s := Exec(w, INIT, begin);
    var delete := TwoDelete(w, s, id, sha, other);
    RunConcat(w, INIT, begin, delete);
    var t := Exec(w, s, delete);
    var one := FirstLoads(w, t, id, sha, other, m);
    var u := Exec(w, t, one);
    var two := SecondLoads(w, u, id, sha, other, m);
    RunConcat(w, t, one, two);
    RunConcat(w, INIT, begin + delete, one + two);
    var ready := ReachesReady(w, Exec(w, u, two), 0, m, Left(m, Loading(|m.artifacts|)));
    RunConcat(w, INIT, begin + delete + (one + two), ready);
    steps := begin + delete + (one + two) + ready;
  }

  // ---- One attempt of a snapshot at a time ------------------------------

  predicate Unattempted(s: State, id: Id) { forall a :: a in s.attempts ==> s.attempts[a].id != id }

  /** A run in which an attempt of a snapshot begins only when no other of it is under way. */
  ghost predicate SerialRun(w: World, s: State, steps: seq<Step>)
    decreases |steps|
  {
    steps == [] ||
    (Enabled(w, s, steps[0]) && (steps[0].Begin? ==> Unattempted(s, steps[0].id))
     && SerialRun(w, Apply(w, s, steps[0]), steps[1..]))
  }

  lemma {:induction false} SerialRuns(w: World, s: State, steps: seq<Step>)
    requires SerialRun(w, s, steps)
    ensures Runnable(w, s, steps)
    decreases |steps|
  {
    if steps != [] { SerialRuns(w, Apply(w, s, steps[0]), steps[1..]); }
  }

  /** What the only attempt of a snapshot has made of it. */
  predicate PhaseOk(w: World, x: Attempt, v: View)
  {
    var m := w.library(x.id);
    match x.phase
    case Begun => v.ready == {}
    case Loading(n) => v.ready == {} && n <= |m.artifacts| && v.rows == Flatten(m.artifacts[..n])
    case Filling => v.ready == {} && v.rows == RowsOf(m) && v.cohort == {}
    case Sampling(_) => v.ready == {} && Exact(w.policy, m, v)
    case Recording => v.ready != {} && Exact(w.policy, m, v)
    case Refreshing => v.ready != {}
    case Refilling => v.ready != {} && v.cohort == {}
  }

  predicate ReadyOk(w: World, m: Manifest, v: View)
  {
    v.ready != {} ==> v.rows == RowsOf(m) && (v.cohort == {} || Exact(w.policy, m, v))
  }

  ghost predicate SerialOk(w: World, s: State, id: Id)
  {
    && (forall a, b :: a in s.attempts && b in s.attempts && s.attempts[a].id == id && s.attempts[b].id == id ==>
          a == b)
    && (forall a :: a in s.attempts && s.attempts[a].id == id ==> PhaseOk(w, s.attempts[a], Sight(s, id)))
    && ReadyOk(w, w.library(id), Sight(s, id))
  }

  /** One effect of the only attempt. */
  lemma SerialEffect(w: World, x: Attempt, v: View)
    requires PhaseOk(w, x, v) && ReadyOk(w, w.library(x.id), v)
    ensures var m := w.library(x.id);
      var u, phase := Seen(v, m, NextEffect(w, x, v.rows)), NextPhase(m, x.phase);
      && ReadyOk(w, m, u)
      && if phase.Some? then PhaseOk(w, x.(phase := phase.value), u) else u.ready != {} && Exact(w.policy, m, u)
  {
    var m := w.library(x.id);
    if x.phase.Loading? {
      var n := x.phase.n;
      if n < |m.artifacts| { FlattenStep(m.artifacts, n); } else { assert m.artifacts[..n] == m.artifacts; }
    }
  }

  lemma SerialForeign(w: World, s: State, step: Step, id: Id)
    requires Consistent(w) && Inv(w, s) && SerialOk(w, s, id) && Enabled(w, s, step) && About(s, step) != Some(id)
    ensures SerialOk(w, Apply(w, s, step), id)
  {
    var t := Apply(w, s, step);
    OthersUntouched(w, s, step, id);
    forall a | a in t.attempts && t.attempts[a].id == id ensures a in s.attempts && t.attempts[a] == s.attempts[a] {
      assert a in Of(t, id);
    }
  }

  lemma SerialAdvance(w: World, s: State, a: nat)
    requires Consistent(w) && a in s.attempts && SerialOk(w, s, s.attempts[a].id)
    ensures SerialOk(w, Apply(w, s, Advance(a)), s.attempts[a].id)
  {
    OwnAdvance(w, s, a);
    SerialEffect(w, s.attempts[a], Sight(s, s.attempts[a].id));
  }

  lemma SerialStep(w: World, s: State, step: Step, id: Id)
    requires Consistent(w) && OneManifest(w) && Inv(w, s) && SerialOk(w, s, id) && Enabled(w, s, step)
    requires step.Begin? ==> Unattempted(s, step.id)
    ensures SerialOk(w, Apply(w, s, step), id)
  {
    if About(s, step) != Some(id) {
      SerialForeign(w, s, step, id);
    } else if step.Advance? {
      SerialAdvance(w, s, step.attempt);
    } else {
      assert SnapshotOk(w, s, id);
    }
  }

  lemma {:induction false} SerialRunOk(w: World, s: State, steps: seq<Step>, id: Id)
    requires Consistent(w) && OneManifest(w) && Inv(w, s) && SerialOk(w, s, id) && SerialRun(w, s, steps)
    ensures Runnable(w, s, steps) && Inv(w, Exec(w, s, steps)) && SerialOk(w, Exec(w, s, steps), id)
    decreases |steps|
  {
    if steps != [] {
      SerialStep(w, s, steps[0], id);
      StepInv(w, s, steps[0]);
      SerialRunOk(w, Apply(w, s, steps[0]), steps[1..], id);
    }
  }

  /**
   Serial attempts: READY means projected exactly once. In every run in which attempts of one snapshot do not overlap,
   abandoned anywhere, a READY snapshot has exactly its manifest's rows, and its training cohort is what the policy
   says of them or, between the two halves of a refresh, nothing.
   */
  lemma ReadyMeansExactlyOnce(w: World, steps: seq<Step>, id: Id)
    requires Consistent(w) && OneManifest(w) && SerialRun(w, INIT, steps)
    ensures Runnable(w, INIT, steps)
    ensures var v, m := Sight(Exec(w, INIT, steps), id), w.library(id);
      v.ready != {} ==> v.rows == RowsOf(m) && (v.cohort == {} || v.cohort == w.policy(RowsOf(m)))
  {
    SerialRunOk(w, INIT, steps, id);
  }

  /** Serial attempts: one that ends, projecting or refreshing, leaves rows and cohort exact. */
  lemma EndedAttemptIsExact(w: World, steps: seq<Step>, a: nat)
    requires Consistent(w) && OneManifest(w) && SerialRun(w, INIT, steps) && Runnable(w, INIT, steps)
    requires a in Exec(w, INIT, steps).attempts
    requires var x := Exec(w, INIT, steps).attempts[a]; NextPhase(w.library(x.id), x.phase).None?
    ensures var x := Exec(w, INIT, steps).attempts[a];
      var v := Sight(Apply(w, Exec(w, INIT, steps), Advance(a)), x.id);
      v.ready != {} && Exact(w.policy, w.library(x.id), v)
  {
    var s := Exec(w, INIT, steps);
    var id := s.attempts[a].id;
    SerialRunOk(w, INIT, steps, id);
    OwnAdvance(w, s, a);
    SerialEffect(w, s.attempts[a], Sight(s, id));
  }

  /** Steps that concern other snapshots leave all of a snapshot as it is, but for samples it may share with them. */
  lemma {:induction false} ForeignRunsTouchNothing(w: World, s: State, steps: seq<Step>, id: Id)
    requires Consistent(w) && Inv(w, s) && Runnable(w, s, steps) && ForeignRun(w, s, steps, id)
    ensures SampledMore(Sight(s, id), Sight(Exec(w, s, steps), id))
    decreases |steps|
  {
    if steps != [] {
      OthersUntouched(w, s, steps[0], id);
      StepInv(w, s, steps[0]);
      ForeignRunsTouchNothing(w, Apply(w, s, steps[0]), steps[1..], id);
    }
  }

  predicate ForeignRun(w: World, s: State, steps: seq<Step>, id: Id)
    requires Runnable(w, s, steps)
    decreases |steps|
  {
    steps == [] || (About(s, steps[0]) != Some(id) && ForeignRun(w, Apply(w, s, steps[0]), steps[1..], id))
  }

  // ---- Lineage that is never recorded -----------------------------------

  /** The snapshot is READY for every manifest returned, and its attempts are refreshes. */
  ghost predicate LineageClosed(w: World, s: State, id: Id)
  {
    && (forall a :: a in s.attempts && s.attempts[a].id == id ==>
          s.attempts[a].phase.Refreshing? || s.attempts[a].phase.Refilling?)
    && (forall sha :: w.returned(id, sha) ==> sha in Sight(s, id).ready)
  }

  lemma ClosedStep(w: World, s: State, step: Step, id: Id)
    requires Consistent(w) && Inv(w, s) && Enabled(w, s, step) && LineageClosed(w, s, id)
    ensures LineageClosed(w, Apply(w, s, step), id) && Sight(Apply(w, s, step), id).lineage == Sight(s, id).lineage
  {
    var t := Apply(w, s, step);
    if About(s, step) != Some(id) {
      OthersUntouched(w, s, step, id);
      forall a | a in t.attempts && t.attempts[a].id == id ensures a in s.attempts && t.attempts[a] == s.attempts[a] {
        assert a in Of(t, id);
      }
    } else if step.Advance? {
      OwnAdvance(w, s, step.attempt);
    }
  }

  /** From then on its lineage stays as it is: what was not recorded by then is not recorded by any later attempt. */
  lemma {:induction false} LineageIsFinal(w: World, s: State, steps: seq<Step>, id: Id)
    requires Consistent(w) && Inv(w, s) && Runnable(w, s, steps) && LineageClosed(w, s, id)
    ensures LineageClosed(w, Exec(w, s, steps), id) && Sight(Exec(w, s, steps), id).lineage == Sight(s, id).lineage
    decreases |steps|
  {
    if steps != [] {
      ClosedStep(w, s, steps[0], id);
      StepInv(w, s, steps[0]);
      LineageIsFinal(w, Apply(w, s, steps[0]), steps[1..], id);
    }
  }

  predicate OneOf(s: State, id: Id, sha: Id, phase: Phase)
  {
    s.attempts == map[0 := Attempt(id, sha, phase)] && Sight(s, id).lineage == {}
  }

  lemma OneBegins(w: World, id: Id, sha: Id) returns (steps: seq<Step>)
    requires Consistent(w) && w.returned(id, sha)
    ensures Runnable(w, INIT, steps) && OneOf(Exec(w, INIT, steps), id, sha, Loading(0))
  {
    var s := Apply(w, INIT, Begin(id, sha));
    assert ReadyFor(NO_ROWS, id) == {};
    Deletes(w, s, 0);
    OneStep(w, INIT, Begin(id, sha), [Advance(0)]);
    steps := [Begin(id, sha)] + [Advance(0)];
    assert Exec(w, INIT, steps).attempts == map[0 := Attempt(id, sha, Loading(0))];
  }

  lemma OneLoads(w: World, s: State, id: Id, sha: Id, m: Manifest) returns (steps: seq<Step>)
    requires Consistent(w) && m == w.library(id) && OneOf(s, id, sha, Loading(0))
    ensures Runnable(w, s, steps)
    ensures OneOf(Exec(w, s, steps), id, sha, Recording) && sha in Sight(Exec(w, s, steps), id).ready
  {
    var load := LoadsRest(w, s, 0, m, 0);
    var t, k := Exec(w, s, load), Loading(|m.artifacts|);
    var ready := ReachesReady(w, t, 0, m, Left(m, k));
    CameOn(s, t, Exec(w, t, ready), 0, k, Sight(t, id).rows, Recording, Sight(t, id).rows);
    RunConcat(w, s, load, ready);
    steps := load + ready;
    assert s.attempts[0 := Attempt(id, sha, Recording)] == map[0 := Attempt(id, sha, Recording)];
  }

  /** The only attempt there is gets as far as READY. */
  lemma OneReachesReady(w: World, id: Id, sha: Id) returns (steps: seq<Step>)
    requires Consistent(w) && w.returned(id, sha)
    ensures Runnable(w, INIT, steps) && Inv(w, Exec(w, INIT, steps))
    ensures OneOf(Exec(w, INIT, steps), id, sha, Recording) && sha in Sight(Exec(w, INIT, steps), id).ready
  {
    var begin := OneBegins(w, id, sha);
    var load := OneLoads(w, Exec(w, INIT, begin), id, sha, w.library(id));
    RunConcat(w, INIT, begin, load);
    steps := begin + load;
    RunInv(w, INIT, steps);
  }

  /**
   An attempt stopped between marking the snapshot READY and recording its lineage: no later attempt records it,
   in any run, since each finds the snapshot READY.
   */
  lemma LineageCanBeMissed(w: World, id: Id, sha: Id) returns (steps: seq<Step>)
    requires Consistent(w) && w.returned(id, sha) && forall x :: w.returned(id, x) ==> x == sha
    ensures Runnable(w, INIT, steps) && sha in Sight(Exec(w, INIT, steps), id).ready
    ensures forall more :: Runnable(w, Exec(w, INIT, steps), more) ==>
      Sight(Exec(w, Exec(w, INIT, steps), more), id).lineage == {}
  {
    var first := OneReachesReady(w, id, sha);
    var s := Exec(w, INIT, first);
    OneStep(w, s, Abandon(0), []);
    var stop := [Abandon(0)] + [];
    RunConcat(w, INIT, first, stop);
    steps := first + stop;
    var t := Exec(w, INIT, steps);
    StepInv(w, s, Abandon(0));
    forall more | Runnable(w, t, more) ensures Sight(Exec(w, t, more), id).lineage == {} {
      LineageIsFinal(w, t, more, id);
    }
  }
}
