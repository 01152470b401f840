/**
 Projecting a committed snapshot into the analytical tables
 (apps/python-enrichment/storage/clickhouse.py). The candidate table is a listing, since
 its engine keeps every inserted row; the tables whose engine replaces rows by key are
 sets. An attempt may stop after any of its effects.
 */
module Projection {
  import opened Wrappers
  import opened Sequences
  import opened Events

  /** A candidate row; the payload stands for the columns nothing here depends on. */
  datatype Row = Row(tic: Option<int>, sector: Option<int>, payload: string)

  /** A row of the training cohort. */
  datatype Label = Label(source: Id, payload: string)

  datatype Input = Input(source: Id, objectKey: Id)

  /** A light-curve sample for plotting. */
  datatype Sample = Sample(source: Id, sha256: Id, time: real, flux: real)

  /** A row of a table that is kept per snapshot. */
  datatype Tagged<T> = Tagged(snapshot: Id, row: T)

  /**
   A committed manifest as the projector reads it: the rows of its data files, in order, the samples of its
   light-curve inputs, and its inputs.
   */
  datatype Manifest = Manifest(snapshot: Id, artifacts: seq<seq<Row>>, curves: seq<set<Sample>>, inputs: seq<Input>)

  /** A row of gold_snapshots_v1 with status READY, for the manifest with this checksum. */
  datatype Entry = Entry(snapshot: Id, sha256: Id, rows: nat)

  datatype Tables = Tables(
    candidates: seq<Tagged<Row>>,
    cohort: set<Tagged<Label>>,
    lineage: set<Tagged<Input>>,
    samples: set<Sample>,
    entries: set<Entry>)

  const NO_ROWS := Tables([], {}, {}, {}, {})

  function Flatten(parts: seq<seq<Row>>): seq<Row>
  {
    if parts == [] then [] else Flatten(parts[..|parts| - 1]) + parts[|parts| - 1]
  }

  lemma FlattenStep(parts: seq<seq<Row>>, n: nat)
    requires n < |parts|
    ensures Flatten(parts[..n + 1]) == Flatten(parts[..n]) + parts[n]
  {
    assert parts[..n + 1][..n] == parts[..n];
  }

  /** The rows of a snapshot, as its manifest lists them. */
  function RowsOf(m: Manifest): seq<Row> { Flatten(m.artifacts) }

  /** The samples of the first `n` curves. */
  function SamplesTo(m: Manifest, n: nat): set<Sample>
    requires n <= |m.curves|
  {
    if n == 0 then {} else SamplesTo(m, n - 1) + m.curves[n - 1]
  }

  /** The samples of the light curves, no others. */
  lemma {:induction false} SamplesMean(m: Manifest, n: nat, x: Sample)
    requires n <= |m.curves|
    ensures x in SamplesTo(m, n) <==> exists i :: 0 <= i < n && x in m.curves[i]
  {
    if n > 0 { SamplesMean(m, n - 1, x); }
  }

  /** An input is recorded unless it has neither product nor object key. */
  predicate Recordable(i: Input) { i.source != EMPTY || i.objectKey != EMPTY }

  function Recorded(m: Manifest): set<Input> { set i | i in m.inputs && Recordable(i) }

  // ---- Tables kept per snapshot -----------------------------------------

  function OfSnapshot<T>(id: Id): Tagged<T> -> bool { (x: Tagged<T>) => x.snapshot == id }

  function NotOf<T>(id: Id): Tagged<T> -> bool { (x: Tagged<T>) => x.snapshot != id }

  function Tag<T>(id: Id): T -> Tagged<T> { (r: T) => Tagged(id, r) }

  function Untag<T>(): Tagged<T> -> T { (x: Tagged<T>) => x.row }

  /** The rows a snapshot has in a listing, and in a set. */
  function RowsIn<T>(table: seq<Tagged<T>>, id: Id): seq<T> { Map(Untag(), Filter(OfSnapshot(id), table)) }

  function KeptFor<T(==, !new)>(table: set<Tagged<T>>, id: Id): set<T>
  {
    set x | x in table && x.snapshot == id :: x.row
  }

  function Without<T>(table: seq<Tagged<T>>, id: Id): seq<Tagged<T>> { Filter(NotOf(id), table) }

  function With<T>(table: seq<Tagged<T>>, id: Id, rows: seq<T>): seq<Tagged<T>> { table + Map(Tag(id), rows) }

  function Dropped<T(==, !new)>(table: set<Tagged<T>>, id: Id): set<Tagged<T>>
  {
    set x | x in table && x.snapshot != id
  }

  function Merged<T(==, !new)>(table: set<Tagged<T>>, id: Id, rows: set<T>): set<Tagged<T>>
  {
    table + set r | r in rows :: Tagged(id, r)
  }

  lemma {:induction false} FilterTwice<T(!new)>(p: T -> bool, q: T -> bool, s: seq<T>)
    ensures (forall x :: p(x) ==> q(x)) ==> Filter(p, Filter(q, s)) == Filter(p, s)
    ensures (forall x :: !(p(x) && q(x))) ==> Filter(p, Filter(q, s)) == []
  {
    if s != [] {
      var n := |s| - 1;
      FilterTwice(p, q, s[..n]);
      if q(s[n]) {
        FilterSnoc(p, Filter(q, s[..n]), s[n]);
      } else {
        assert Filter(q, s) == Filter(q, s[..n]) + [];
        assert Filter(q, s[..n]) + [] == Filter(q, s[..n]);
      }
    }
  }

  lemma {:induction false} FilterTagged<T>(id: Id, at: Id, rows: seq<T>)
    ensures Filter(OfSnapshot(id), Map(Tag(at), rows)) == if id == at then Map(Tag(at), rows) else []
  {
    if rows != [] {
      var n := |rows| - 1;
      FilterTagged(id, at, rows[..n]);
      MapSnoc(Tag(at), rows, n);
      assert rows[..n + 1] == rows;
      FilterSnoc(OfSnapshot(id), Map(Tag(at), rows[..n]), Tag(at)(rows[n]));
    }
  }

  /** Deleting empties the snapshot and touches no other. */
  lemma WithoutMeans<T(!new)>(table: seq<Tagged<T>>, at: Id, id: Id)
    ensures RowsIn(Without(table, at), id) == if id == at then [] else RowsIn(table, id)
  {
    FilterTwice(OfSnapshot(id), NotOf(at), table);
  }

  /** Inserting adds exactly the rows given to the snapshot and touches no other. */
  lemma WithMeans<T>(table: seq<Tagged<T>>, at: Id, rows: seq<T>, id: Id)
    ensures RowsIn(With(table, at, rows), id) == RowsIn(table, id) + if id == at then rows else []
  {
    FilterConcat(OfSnapshot(id), table, Map(Tag(at), rows));
    FilterTagged(id, at, rows);
    MapConcat(Untag<T>(), Filter(OfSnapshot(id), table), Filter(OfSnapshot(id), Map(Tag(at), rows)));
    assert Map(Untag(), Map(Tag(at), rows)) == rows;
  }

  lemma DroppedMeans<T(!new)>(table: set<Tagged<T>>, at: Id, id: Id)
    ensures KeptFor(Dropped(table, at), id) == if id == at then {} else KeptFor(table, id)
  {
    if id != at {
      forall r | r in KeptFor(table, id) ensures r in KeptFor(Dropped(table, at), id) {
        assert Tagged(id, r) in Dropped(table, at);
      }
    }
  }

  lemma MergedMeans<T(!new)>(table: set<Tagged<T>>, at: Id, rows: set<T>, id: Id)
    ensures KeptFor(Merged(table, at, rows), id) == KeptFor(table, id) + if id == at then rows else {}
  {
    forall r | r in KeptFor(table, id) ensures r in KeptFor(Merged(table, at, rows), id) {
      assert Tagged(id, r) in Merged(table, at, rows);
    }
    if id == at {
      forall r | r in rows ensures r in KeptFor(Merged(table, at, rows), id) {
        assert Tagged(id, r) in Merged(table, at, rows);
      }
    }
  }

  // ---- The effects ------------------------------------------------------

  datatype Effect =
    | DeleteRows
    | InsertFile(n: nat)
    | ClearCohort
    | FillCohort(labels: set<Label>)
    | AddSamples(n: nat)
    | MarkReady(sha: Id)
    | RecordLineage

  function FileRows(m: Manifest, n: nat): seq<Row> { if n < |m.artifacts| then m.artifacts[n] else [] }

  function CurveSamples(m: Manifest, n: nat): set<Sample> { if n < |m.curves| then m.curves[n] else {} }

  function Perform(t: Tables, m: Manifest, e: Effect): Tables
  {
    match e
    case DeleteRows => t.(candidates := Without(t.candidates, m.snapshot))
    case InsertFile(n) => t.(candidates := With(t.candidates, m.snapshot, FileRows(m, n)))
    case ClearCohort => t.(cohort := Dropped(t.cohort, m.snapshot))
    case FillCohort(labels) => t.(cohort := Merged(t.cohort, m.snapshot, labels))
    case AddSamples(n) => t.(samples := t.samples + CurveSamples(m, n))
    case MarkReady(sha) => t.(entries := t.entries + {Entry(m.snapshot, sha, |RowsOf(m)|)})
    case RecordLineage => t.(lineage := Merged(t.lineage, m.snapshot, Recorded(m)))
  }

  /** The manifests a snapshot is READY for, by checksum. */
  function ReadyFor(t: Tables, id: Id): set<Id> { set e | e in t.entries && e.snapshot == id :: e.sha256 }

  /** What the tables hold of one snapshot; samples belong to products, not to snapshots. */
  datatype View = View(rows: seq<Row>, cohort: set<Label>, lineage: set<Input>, samples: set<Sample>, ready: set<Id>)

  function ViewOf(t: Tables, id: Id): View
  {
    View(RowsIn(t.candidates, id), KeptFor(t.cohort, id), KeptFor(t.lineage, id), t.samples, ReadyFor(t, id))
  }

  /** An effect, seen from its own snapshot. */
  function Seen(v: View, m: Manifest, e: Effect): View
  {
    match e
    case DeleteRows => v.(rows := [])
    case InsertFile(n) => v.(rows := v.rows + FileRows(m, n))
    case ClearCohort => v.(cohort := {})
    case FillCohort(labels) => v.(cohort := v.cohort + labels)
    case AddSamples(n) => v.(samples := v.samples + CurveSamples(m, n))
    case MarkReady(sha) => v.(ready := v.ready + {sha})
    case RecordLineage => v.(lineage := v.lineage + Recorded(m))
  }

  /** An effect, seen from another snapshot: at most there are more samples. */
  function Overheard(v: View, m: Manifest, e: Effect): View
  {
    if e.AddSamples? then v.(samples := v.samples + CurveSamples(m, e.n)) else v
  }

  lemma ReadyMeans(t: Tables, m: Manifest, sha: Id, id: Id)
    ensures ReadyFor(Perform(t, m, MarkReady(sha)), id) == ReadyFor(t, id) + if id == m.snapshot then {sha} else {}
  {
    var e := Entry(m.snapshot, sha, |RowsOf(m)|);
    assert forall x :: x in t.entries + {e} <==> x in t.entries || x == e;
    forall x | x in ReadyFor(t, id) ensures x in ReadyFor(Perform(t, m, MarkReady(sha)), id) {
      var f :| f in t.entries && f.snapshot == id && f.sha256 == x;
      assert f in t.entries + {e};
    }
    if id == m.snapshot {
      assert e in t.entries + {e};
    }
  }

  /** An effect does what it says to its own snapshot and nothing to any other. */
  lemma EffectMeans(t: Tables, m: Manifest, e: Effect, id: Id)
    ensures ViewOf(Perform(t, m, e), id) == if id
      == m.snapshot then Seen(ViewOf(t, id), m, e) else Overheard(ViewOf(t, id), m, e)
  {
    match e
    case DeleteRows => WithoutMeans(t.candidates, m.snapshot, id);
    case InsertFile(n) => WithMeans(t.candidates, m.snapshot, FileRows(m, n), id);
    case ClearCohort => DroppedMeans(t.cohort, m.snapshot, id);
    case FillCohort(labels) => MergedMeans(t.cohort, m.snapshot, labels, id);
    case AddSamples(n) =>
    case MarkReady(sha) => ReadyMeans(t, m, sha, id);
    case RecordLineage => MergedMeans(t.lineage, m.snapshot, Recorded(m), id);
  }

  // ---- One attempt ------------------------------------------------------

  /** The policy that labels the rows of a snapshot. */
  type Policy = seq<Row> -> set<Label>

  /** Rows and cohort as they should be. */
  predicate Exact(policy: Policy, m: Manifest, v: View) { v.rows == RowsOf(m) && v.cohort == policy(RowsOf(m)) }

  /** What a snapshot nobody else is projecting looks like between attempts, for the manifest with checksum `sha`. */
  predicate Sane(policy: Policy, m: Manifest, sha: Id, v: View)
  {
    && (sha in v.ready ==>
          v.rows == RowsOf(m) && (v.cohort == {} || Exact(policy, m, v)) && SamplesTo(m, |m.curves|) <= v.samples)
    && (v.lineage == {} || v.lineage == Recorded(m))
  }

  /** Two views that differ in the samples at most, of which there are more in the second. */
  predicate SampledMore(u: View, v: View) { v == u.(samples := v.samples) && u.samples <= v.samples }

  class Warehouse {
    var tables: Tables
    // How many more effects the process lives to make.
    var life: nat

    constructor (life: nat)
      ensures tables == NO_ROWS && this.life == life
    {
      tables, this.life := NO_ROWS, life;
    }

    /** Make one effect, if the process lives to. */
    method Make(m: Manifest, e: Effect) returns (alive: bool)
      modifies this
      ensures alive <==> old(life) > 0
      ensures life == if alive then old(life) - 1 else old(life)
      ensures tables == if alive then Perform(old(tables), m, e) else old(tables)
      ensures forall id :: id != m.snapshot ==> SampledMore(ViewOf(old(tables), id), ViewOf(tables, id))
      ensures alive ==> ViewOf(tables, m.snapshot) == Seen(ViewOf(old(tables), m.snapshot), m, e)
    {
      alive := life > 0;
      if alive {
        tables, life := Perform(tables, m, e), life - 1;
        EffectMeans(old(tables), m, e, m.snapshot);
        forall id | id != m.snapshot ensures SampledMore(ViewOf(old(tables), id), ViewOf(tables, id)) {
          EffectMeans(old(tables), m, e, id);
        }
      }
    }

    /** Replace the training cohort of a snapshot. */
    method ProjectCohort(m: Manifest, labels: set<Label>) returns (alive: bool)
      modifies this
      ensures alive <==> old(life) >= 2
      ensures alive ==> life == old(life) - 2
      ensures forall id :: id != m.snapshot ==> SampledMore(ViewOf(old(tables), id), ViewOf(tables, id))
      ensures var v := ViewOf(old(tables), m.snapshot);
        ViewOf(tables, m.snapshot) == if alive then v.(cohort := labels) else if old(life)
          == 1 then v.(cohort := {}) else v
    {
      alive := Make(m, ClearCohort);
      if alive {
        alive := Make(m, FillCohort(labels));
      }
    }

    /** Load the data files one after the other. */
    method LoadFiles(m: Manifest) returns (alive: bool)
      modifies this
      ensures alive <==> old(life) > |m.artifacts|
      ensures alive ==> life == old(life) - |m.artifacts| - 1
      ensures forall id :: id != m.snapshot ==> SampledMore(ViewOf(old(tables), id), ViewOf(tables, id))
      ensures var v, u := ViewOf(old(tables), m.snapshot), ViewOf(tables, m.snapshot);
        u == v.(rows := u.rows) && (alive ==> u.rows == RowsOf(m))
    {
      alive := Make(m, DeleteRows);
      if !alive {
        return;
      }
      for n := 0 to |m.artifacts|
        invariant life == old(life) - 1 - n
        invariant ViewOf(tables, m.snapshot) == ViewOf(old(tables), m.snapshot).(rows := Flatten(m.artifacts[..n]))
        invariant forall id :: id != m.snapshot ==> SampledMore(ViewOf(old(tables), id), ViewOf(tables, id))
      {
        FlattenStep(m.artifacts, n);
        alive := Make(m, InsertFile(n));
        if !alive {
          return;
        }
      }
      assert m.artifacts[..|m.artifacts|] == m.artifacts;
      alive := true;
    }

    /** Index the samples of the light-curve inputs. */
    method LoadSamples(m: Manifest) returns (alive: bool)
      modifies this
      ensures alive <==> old(life) >= |m.curves|
      ensures alive ==> life == old(life) - |m.curves|
      ensures forall id :: id != m.snapshot ==> SampledMore(ViewOf(old(tables), id), ViewOf(tables, id))
      ensures SampledMore(ViewOf(old(tables), m.snapshot), ViewOf(tables, m.snapshot))
      ensures alive ==> SamplesTo(m, |m.curves|) <= ViewOf(tables, m.snapshot).samples
    {
      for n := 0 to |m.curves|
        invariant life == old(life) - n
        invariant forall id :: id != m.snapshot ==> SampledMore(ViewOf(old(tables), id), ViewOf(tables, id))
        invariant SampledMore(ViewOf(old(tables), m.snapshot), ViewOf(tables, m.snapshot))
        invariant SamplesTo(m, n) <= ViewOf(tables, m.snapshot).samples
      {
        alive := Make(m, AddSamples(n));
        if !alive {
          return;
        }
      }
      alive := true;
    }

    /**
     One call of `project`, in a process that may not live to its end, with nobody else projecting the snapshot.
     Whatever it leaves behind, READY still means exactly once and other snapshots are as before; a call that ends
     leaves rows, cohort and samples complete, and the lineage recorded unless the snapshot was READY already, when
     nothing but the cohort is touched.
     */
    method Project(policy: Policy, m: Manifest, sha: Id) returns (done: bool)
      requires Sane(policy, m, sha, ViewOf(tables, m.snapshot))
      modifies this
      ensures Sane(policy, m, sha, ViewOf(tables, m.snapshot))
      ensures forall id :: id != m.snapshot ==> SampledMore(ViewOf(old(tables), id), ViewOf(tables, id))
      ensures var v, u := ViewOf(old(tables), m.snapshot), ViewOf(tables, m.snapshot);
        && (done ==> sha in u.ready && Exact(policy, m, u))
        && (done && sha !in v.ready ==>
              forall i :: i in u.lineage <==> i in m.inputs && (i.source != Id("") || i.objectKey != Id("")))
        && (sha in v.ready ==> u == v.(cohort := u.cohort))
      ensures old(life) >= |m.artifacts| + |m.curves| + 5 ==> done
    {
      if sha in ReadyFor(tables, m.snapshot) {
        done := ProjectCohort(m, policy(RowsIn(tables.candidates, m.snapshot)));
        return;
      }
      done := LoadFiles(m);
      if !done {
        return;
      }
      done := ProjectCohort(m, policy(RowsOf(m)));
      if !done {
        return;
      }
      done := LoadSamples(m);
      if !done {
        return;
      }
      done := Make(m, MarkReady(sha));
      if !done {
        return;
      }
      done := Make(m, RecordLineage);
    }
  }

  // ---- Targets ----------------------------------------------------------

  datatype Target = Target(tic: int, sector: int, payload: string)

  datatype TargetKey = TargetKey(tic: int, sector: int)

  function KeyOf(t: Target): TargetKey { TargetKey(t.tic, t.sector) }

  function NotKeyed(keys: set<TargetKey>): Target -> bool { (t: Target) => KeyOf(t) !in keys }

  function Keyed(k: TargetKey): Target -> bool { (t: Target) => KeyOf(t) == k }

  function Keys(rows: seq<Target>): set<TargetKey> { Members(Map(KeyOf, rows)) }

  /** The table once the keys of `rows` were deleted and `rows` inserted. */
  function Replaced(table: seq<Target>, rows: seq<Target>): seq<Target> { Filter(NotKeyed(Keys(rows)), table) + rows }

  lemma {:induction false} FilterFilter(p: Target -> bool, q: Target -> bool, r: Target -> bool, s: seq<Target>)
    requires forall x :: r(x) <==> p(x) && q(x)
    ensures Filter(p, Filter(q, s)) == Filter(r, s)
  {
    if s != [] {
      var n := |s| - 1;
      FilterFilter(p, q, r, s[..n]);
      if q(s[n]) {
        FilterSnoc(p, Filter(q, s[..n]), s[n]);
      } else {
        assert Filter(q, s) == Filter(q, s[..n]) + [];
        assert Filter(q, s[..n]) + [] == Filter(q, s[..n]);
      }
    }
  }

  /** The keys of `rows` in the sectors dealt with so far. */
  function KeysIn(rows: seq<Target>, sectors: seq<int>): set<TargetKey>
  {
    set k | k in Keys(rows) && k.sector in sectors
  }

  function Sectors(rows: seq<Target>): (s: seq<int>)
    ensures forall i :: 0 <= i < |rows| ==> rows[i].sector in s
  {
    if rows == [] then []
    else
      var before, x := Sectors(rows[..|rows| - 1]), rows[|rows| - 1].sector;
      if x in before then before else before + [x]
  }

  /** Delete sector by sector, then insert; no row of another key goes, none of these keys stays. */
  method ReplaceTargets(table: seq<Target>, rows: seq<Target>) returns (t: seq<Target>)
    ensures t == Replaced(table, rows)
  {
    var sectors := Sectors(rows);
    t := table;
    NothingDeleted(table, rows);
    for n := 0 to |sectors|
      invariant t == Filter(NotKeyed(KeysIn(rows, sectors[..n])), table)
    {
      var gone := KeysIn(rows, [sectors[n]]);
      assert sectors[..n + 1] == sectors[..n] + [sectors[n]];
      FilterFilter(NotKeyed(gone), NotKeyed(KeysIn(rows, sectors[..n])), NotKeyed(KeysIn(rows, sectors[..n + 1])),
                   table);
      t := Filter(NotKeyed(gone), t);
    }
    assert sectors[..|sectors|] == sectors;
    assert KeysIn(rows, sectors) == Keys(rows);
    t := t + rows;
  }

  lemma NothingDeleted(table: seq<Target>, rows: seq<Target>)
    ensures Filter(NotKeyed(KeysIn(rows, [])), table) == table
  {}

  lemma {:induction false} SoleKeyed(rows: seq<Target>, i: nat)
    requires i < |rows| && Distinct(Map(KeyOf, rows))
    ensures Filter(Keyed(KeyOf(rows[i])), rows) == [rows[i]]
  {
    var n := |rows| - 1;
    var k := KeyOf(rows[i]);
    assert forall a :: 0 <= a < |rows| ==> Map(KeyOf, rows)[a] == KeyOf(rows[a]);
    assert Distinct(Map(KeyOf, rows[..n])) by {
      assert forall a :: 0 <= a < n ==> Map(KeyOf, rows[..n])[a] == Map(KeyOf, rows)[a];
    }
    if i < n {
      SoleKeyed(rows[..n], i);
    } else {
      NoneKeyed(rows[..n], k);
    }
  }

  lemma {:induction false} NoneKeyed(rows: seq<Target>, k: TargetKey)
    requires forall i :: 0 <= i < |rows| ==> KeyOf(rows[i]) != k
    ensures Filter(Keyed(k), rows) == []
  {
    if rows != [] { NoneKeyed(rows[..|rows| - 1], k); }
  }

  /** After a replacement each given key has its one row and every other key has the rows it had. */
  lemma ReplacedMeans(table: seq<Target>, rows: seq<Target>, k: TargetKey)
    requires Distinct(Map(KeyOf, rows))
    ensures k !in Keys(rows) ==> Filter(Keyed(k), Replaced(table, rows)) == Filter(Keyed(k), table)
    ensures forall i :: 0 <= i < |rows| && KeyOf(rows[i]) == k ==> Filter(Keyed(k), Replaced(table, rows)) == [rows[i]]
  {
    var kept := Filter(NotKeyed(Keys(rows)), table);
    FilterConcat(Keyed(k), kept, rows);
    if k !in Keys(rows) {
      forall i | 0 <= i < |rows| ensures KeyOf(rows[i]) != k { assert Map(KeyOf, rows)[i] in Map(KeyOf, rows); }
      NoneKeyed(rows, k);
      FilterFilter(Keyed(k), NotKeyed(Keys(rows)), Keyed(k), table);
    } else {
      forall i | 0 <= i < |kept| ensures KeyOf(kept[i]) != k { FilterMember(NotKeyed(Keys(rows)), table, kept[i]); }
      NoneKeyed(kept, k);
      forall i | 0 <= i < |rows| && KeyOf(rows[i]) == k
        ensures Filter(Keyed(k), rows) == [rows[i]]
      {
        SoleKeyed(rows, i);
      }
    }
  }
}
