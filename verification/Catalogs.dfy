/**
 Target-scoped catalog snapshots (apps/python-enrichment/pipeline/catalogs.py). A
 snapshot id is a collision-free digest of the catalog kind, the canonical records
 and the scope it was taken for, so it is modelled as those.
 */
module Catalogs {
  import opened Wrappers
  import opened Orders
  import opened Sequences

  datatype Catalog = Tic | Toi

  datatype Record = Record(tic: int, payload: string)

  /** A provider row before normalisation. */
  datatype Raw = Raw(text: string)

  /** The exact sorted target list; empty for an operator import without a scope. */
  type Scope = seq<int>

  datatype SnapshotId = SnapshotId(catalog: Catalog, records: seq<Record>, scope: Scope)

  // ---- Target scope -----------------------------------------------------

  predicate IntLeq(a: int, b: int) { a <= b }

  function PutNew(s: seq<int>, x: int): seq<int> { if x in s then s else s + [x] }

  /** The set of positive ids, as a listing without repetition. */
  function Positive(ids: seq<int>): seq<int>
  {
    if ids == [] then []
    else
      var before, x := Positive(ids[..|ids| - 1]), ids[|ids| - 1];
      if x > 0 then PutNew(before, x) else before
  }

  function Targets(ids: seq<int>): Scope { Sort(IntLeq, Positive(ids)) }

  lemma {:induction false} PositiveMeans(ids: seq<int>, x: int)
    ensures x in Positive(ids) <==> x in ids && x > 0
    ensures Distinct(Positive(ids))
  {
    if ids != [] {
      var n := |ids| - 1;
      PositiveMeans(ids[..n], x);
      assert ids == ids[..n] + [ids[n]];
    }
  }

  lemma TargetsMean(ids: seq<int>, x: int)
    ensures x in Targets(ids) <==> x in ids && x > 0
  {
    PositiveMeans(ids, x);
    SameElements(Targets(ids), Positive(ids), x);
  }

  /** Two requests have the same scope exactly when they name the same positive targets. */
  lemma ScopeIsCanonical(a: seq<int>, b: seq<int>)
    ensures Targets(a) == Targets(b) <==> forall x :: x > 0 ==> (x in a <==> x in b)
  {
    forall x | x > 0 ensures (x in Targets(a) <==> x in a) && (x in Targets(b) <==> x in b) {
      TargetsMean(a, x);
      TargetsMean(b, x);
    }
    if forall x :: x > 0 ==> (x in a <==> x in b) {
      forall x ensures x in Positive(a) <==> x in Positive(b) {
        PositiveMeans(a, x);
        PositiveMeans(b, x);
      }
      PositiveMeans(a, 0);
      PositiveMeans(b, 0);
      DistinctSameMembers(Positive(a), Positive(b));
      SortCanonical(IntLeq, Positive(a), Positive(b));
    }
  }

  // ---- The store --------------------------------------------------------

  /** A stored manifest: the digest of the records it describes and how many there are. */
  datatype Manifest = Manifest(data: seq<Record>, rowCount: nat)

  datatype CacheKey = CacheKey(catalog: Catalog, scope: Scope)

  datatype Store = Store(
    manifests: map<SnapshotId, Manifest>,
    files: map<SnapshotId, seq<Record>>,
    cache: map<CacheKey, SnapshotId>,
    current: map<Catalog, SnapshotId>)

  /** Every manifest is the one its id was derived from, with its records beside it. */
  ghost predicate Sound(s: Store)
  {
    && (forall id :: id in s.manifests ==> s.manifests[id] == Manifest(id.records, |id.records|))
    && (forall id :: id in s.manifests ==> id in s.files)
    && (forall id :: id in s.files ==> s.files[id] == id.records)
    && (forall k :: k in s.cache ==>
          s.cache[k] in s.manifests && s.cache[k].catalog == k.catalog && s.cache[k].scope == k.scope)
    && (forall c :: c in s.current ==> s.current[c] in s.manifests && s.current[c].catalog == c)
  }

  /** Snapshots stay as they are and cache pointers stay set, though perhaps to something else. */
  ghost predicate Evolves(a: Store, b: Store)
  {
    && (forall id :: id in a.manifests ==> id in b.manifests && b.manifests[id] == a.manifests[id])
    && (forall id :: id in a.files ==> id in b.files && b.files[id] == a.files[id])
    && (forall k :: k in a.cache ==> k in b.cache)
  }

  lemma EvolvesTransitive(a: Store, b: Store, c: Store)
    requires Evolves(a, b) && Evolves(b, c)
    ensures Evolves(a, c)
  {}

  // The four puts.

  function PutFile(s: Store, id: SnapshotId): Store { s.(files := s.files[id := id.records]) }

  function PutManifest(s: Store, id: SnapshotId): Store
  {
    s.(manifests := s.manifests[id := Manifest(id.records, |id.records|)])
  }

  function PutPointer(s: Store, id: SnapshotId): Store { s.(cache := s.cache[CacheKey(id.catalog, id.scope) := id]) }

  function PutCurrent(s: Store, id: SnapshotId): Store { s.(current := s.current[id.catalog := id]) }

  // Each put, made in its turn, keeps the store sound: between any two of them a call may be cut short.

  lemma FileKeepsSound(s: Store, id: SnapshotId)
    requires Sound(s)
    ensures Sound(PutFile(s, id)) && Evolves(s, PutFile(s, id))
  {}

  lemma ManifestKeepsSound(s: Store, id: SnapshotId)
    requires Sound(s) && id in s.files
    ensures Sound(PutManifest(s, id)) && Evolves(s, PutManifest(s, id))
  {}

  lemma PointerKeepsSound(s: Store, id: SnapshotId)
    requires Sound(s) && id in s.manifests
    ensures Sound(PutPointer(s, id)) && Evolves(s, PutPointer(s, id))
  {}

  lemma CurrentKeepsSound(s: Store, id: SnapshotId)
    requires Sound(s) && id in s.manifests
    ensures Sound(PutCurrent(s, id)) && Evolves(s, PutCurrent(s, id))
  {}

  datatype SyncError = NoTargets | FetchFailed | NotNormal | MissingSnapshot | Uncovered

  /** Load a snapshot, validating kind, checksum and row count. */
  function Load(s: Store, c: Catalog, id: SnapshotId): Option<seq<Record>>
  {
    if id in s.manifests && id.catalog == c && id in s.files && s.files[id] == s.manifests[id].data
      && |s.files[id]| == s.manifests[id].rowCount
    then Some(s.files[id]) else None
  }

  function LoadCurrent(s: Store, c: Catalog): Option<seq<Record>>
  {
    if c in s.current then Load(s, c, s.current[c]) else None
  }

  function TicOf(r: Record): int { r.tic }

  predicate CoversExactly(records: seq<Record>, targets: Scope) { Members(Map(TicOf, records)) == Members(targets) }

  datatype Bundle = Bundle(tic: SnapshotId, toi: SnapshotId, ticRecords: seq<Record>, toiRecords: seq<Record>)

  /** The last part of a sync: load both snapshots and check that the TIC records cover exactly the targets. */
  function Verify(s: Store, targets: Scope, tic: SnapshotId, toi: SnapshotId): Result<Bundle, SyncError>
  {
    match (Load(s, Tic, tic), Load(s, Toi, toi))
    case (Some(a), Some(b)) => if CoversExactly(a, targets) then Ok(Bundle(tic, toi, a, b)) else Err(Uncovered)
    case _ => Err(MissingSnapshot)
  }

  predicate Cached(s: Store, targets: Scope) { CacheKey(Tic, targets) in s.cache && CacheKey(Toi, targets) in s.cache }

  /** What a call finds when both cache pointers exist. */
  function Replay(s: Store, targets: Scope): Result<Bundle, SyncError>
    requires Cached(s, targets)
  {
    Verify(s, targets, s.cache[CacheKey(Tic, targets)], s.cache[CacheKey(Toi, targets)])
  }

  /** What a pair of complete snapshots verifies to, whatever else the store holds. */
  function Verdict(targets: Scope, tic: SnapshotId, toi: SnapshotId): Result<Bundle, SyncError>
  {
    if CoversExactly(tic.records, targets) then Ok(Bundle(tic, toi, tic.records, toi.records)) else Err(Uncovered)
  }

  /** In a sound store two snapshots load; only the coverage check can fail. */
  lemma VerifySound(s: Store, targets: Scope, tic: SnapshotId, toi: SnapshotId)
    requires Sound(s) && tic in s.manifests && toi in s.manifests && tic.catalog == Tic && toi.catalog == Toi
    ensures Verify(s, targets, tic, toi) == Verdict(targets, tic, toi)
  {}

  // ---- The provider and the normalisers ---------------------------------

  /** What the outside world answers during one call, and how rows are normalised; any of it may fail. */
  datatype World = World(
    ticRows: Option<seq<Raw>>,
    toiRows: Option<seq<Raw>>,
    normalize: (Catalog, seq<Raw>) -> Option<seq<Record>>,
    toRaw: Record -> Raw)

  /** `{record.tic_id: record}` keeps the last record of a target. */
  function LastOf(records: seq<Record>, tic: int): Option<Record>
  {
    if records == [] then None
    else if records[|records| - 1].tic == tic then Some(records[|records| - 1])
    else LastOf(records[..|records| - 1], tic)
  }

  lemma {:induction false} LastOfMeans(records: seq<Record>, tic: int)
    ensures LastOf(records, tic).Some? <==> tic in Map(TicOf, records)
    ensures LastOf(records, tic).Some? ==>
      LastOf(records, tic).value in records && LastOf(records, tic).value.tic == tic
  {
    if records != [] {
      var n := |records| - 1;
      LastOfMeans(records[..n], tic);
      MapSnoc(TicOf, records, n);
      assert records[..n + 1] == records;
    }
  }

  function RowsFor(w: World, records: seq<Record>): int -> Raw
  {
    (tic: int) => if LastOf(records, tic).Some? then w.toRaw(LastOf(records, tic).value) else Raw("")
  }

  /** The active records hold every target. */
  predicate HoldsAll(records: seq<Record>, targets: Scope)
  {
    forall i :: 0 <= i < |targets| ==> targets[i] in Map(TicOf, records)
  }

  /** Whether a catalog has to be fetched: its active snapshot cannot serve the targets. */
  predicate MustFetch(s: Store, c: Catalog, targets: Scope)
  {
    var active := LoadCurrent(s, c);
    active.None? || (c == Tic && !HoldsAll(active.value, targets))
  }

  function InScope(targets: Scope): Record -> bool { (r: Record) => r.tic in targets }

  /** The rows a catalog is derived from: the active snapshot's when it can serve, else the provider's. */
  function Rows(s: Store, c: Catalog, targets: Scope, w: World): Option<seq<Raw>>
  {
    if MustFetch(s, c, targets) then if c == Tic then w.ticRows else w.toiRows
    else if c == Tic then Some(Map(RowsFor(w, LoadCurrent(s, Tic).value), targets))
    else Some(Map(w.toRaw, Filter(InScope(targets), LoadCurrent(s, Toi).value)))
  }

  /** The records a request derives, if provider and normaliser succeed. */
  function Answer(s: Store, c: Catalog, targets: Scope, w: World): Option<seq<Record>>
  {
    var rows := Rows(s, c, targets, w);
    if rows.None? then None else w.normalize(c, rows.value)
  }

  /** What a derivation comes to in a store: a snapshot of the normalised rows, or why there is none. */
  function Derived(s: Store, c: Catalog, targets: Scope, w: World): Result<SnapshotId, SyncError>
  {
    var rows := Rows(s, c, targets, w);
    if rows.None? then Err(FetchFailed)
    else
      var records := w.normalize(c, rows.value);
      if records.None? then Err(NotNormal) else Ok(SnapshotId(c, records.value, targets))
  }

  /** The snapshot of one catalog a request ends up with: the one its pointer names, or else a derived one. */
  function Owed(s: Store, c: Catalog, targets: Scope, w: World): Result<SnapshotId, SyncError>
  {
    if CacheKey(c, targets) in s.cache then Ok(s.cache[CacheKey(c, targets)]) else Derived(s, c, targets, w)
  }

  function BothOwed(s: Store, targets: Scope, w: World): Result<(SnapshotId, SnapshotId), SyncError>
  {
    match (Owed(s, Tic, targets, w), Owed(s, Toi, targets, w))
    case (Err(e), _) => Err(e)
    case (_, Err(e)) => Err(e)
    case (Ok(tic), Ok(toi)) => Ok((tic, toi))
  }

  /** What a request nobody disturbs returns. */
  function SyncSpec(s: Store, targets: Scope, w: World): Result<Bundle, SyncError>
  {
    if targets == [] then Err(NoTargets)
    else
      match BothOwed(s, targets, w)
      case Err(e) => Err(e)
      case Ok(ids) => Verdict(targets, ids.0, ids.1)
  }

  /** What a catalog is derived from depends on its active snapshot alone. */
  lemma DerivedIsStable(s: Store, t: Store, c: Catalog, targets: Scope, w: World)
    requires Sound(s) && Evolves(s, t) && t.current == s.current
    ensures Derived(t, c, targets, w) == Derived(s, c, targets, w)
  {
    assert LoadCurrent(t, c) == LoadCurrent(s, c);
  }

  /** The active snapshot of a catalog in a sound store. */
  lemma ActiveRecords(s: Store, c: Catalog)
    requires Sound(s)
    ensures LoadCurrent(s, c) == if c in s.current then Some(s.current[c].records) else None
  {}

  /**
   The rows owed to a TOI request: of the active snapshot all records whose tic is a target, in order; without an
   active snapshot the provider's.
   */
  lemma ToiRowsOwed(s: Store, targets: Scope, w: World)
    requires Sound(s)
    ensures Rows(s, Toi, targets, w) ==
      if Toi in s.current
      then Some(Map(w.toRaw, Filter((r: Record) => r.tic in targets, s.current[Toi].records)))
      else w.toiRows
  {
    ActiveRecords(s, Toi);
    if Toi in s.current {
      FilterAgree((r: Record) => r.tic in targets, InScope(targets), s.current[Toi].records);
    }
  }

  lemma {:induction false} LastOfIsLast(records: seq<Record>, tic: int) returns (k: nat)
    requires LastOf(records, tic).Some?
    ensures k < |records| && LastOf(records, tic).value == records[k] && records[k].tic == tic
    ensures forall j :: k < j < |records| ==> records[j].tic != tic
  {
    var n := |records| - 1;
    if records[n].tic == tic {
      k := n;
    } else {
      k := LastOfIsLast(records[..n], tic);
    }
  }

  predicate Lists(records: seq<Record>, tic: int) { exists k :: 0 <= k < |records| && records[k].tic == tic }

  /** The active snapshot has a record for every target. */
  predicate ServesAll(records: seq<Record>, targets: Scope)
  {
    forall i :: 0 <= i < |targets| ==> Lists(records, targets[i])
  }

  lemma ServesMeansHolds(records: seq<Record>, targets: Scope)
    ensures ServesAll(records, targets) <==> HoldsAll(records, targets)
  {
    forall i | 0 <= i < |targets| ensures targets[i] in Map(TicOf, records) <==> Lists(records, targets[i]) {
      TicListed(records, targets[i]);
    }
  }

  lemma TicListed(records: seq<Record>, tic: int)
    ensures tic in Map(TicOf, records) <==> Lists(records, tic)
  {
    if Lists(records, tic) {
      var k :| 0 <= k < |records| && records[k].tic == tic;
      assert Map(TicOf, records)[k] == tic;
    }
    if tic in Map(TicOf, records) {
      var k :| 0 <= k < |records| && Map(TicOf, records)[k] == tic;
      assert records[k].tic == tic;
    }
  }

  /** Covering exactly: each target has a record and each record is of a target. */
  lemma CoverageMeans(records: seq<Record>, targets: Scope)
    ensures CoversExactly(records, targets) <==>
      ServesAll(records, targets) && forall k :: 0 <= k < |records| ==> records[k].tic in targets
  {
    ServesMeansHolds(records, targets);
    assert forall k :: 0 <= k < |records| ==> Map(TicOf, records)[k] == records[k].tic;
    if CoversExactly(records, targets) {
      forall i | 0 <= i < |targets| ensures targets[i] in Map(TicOf, records) {
        assert targets[i] in Members(Map(TicOf, records));
      }
      forall k | 0 <= k < |records| ensures records[k].tic in targets {
        assert Map(TicOf, records)[k] in Members(targets);
      }
    }
  }

  /** The i-th row is that of the last record of the i-th target. */
  ghost predicate RowOfTarget(w: World, records: seq<Record>, tic: int, row: Raw)
  {
    exists k :: 0 <= k < |records| && records[k].tic == tic && row == w.toRaw(records[k])
                && forall j :: k < j < |records| ==> records[j].tic != tic
  }

  /**
   The rows owed to a TIC request: one per target from the active snapshot when it has a record for each, the last
   one of a target counting; otherwise the provider's.
   */
  lemma TicRowsOwed(s: Store, targets: Scope, w: World)
    requires Sound(s)
    ensures var rows := Rows(s, Tic, targets, w);
      if Tic in s.current && ServesAll(s.current[Tic].records, targets)
      then rows.Some? && |rows.value| == |targets|
           && forall i :: 0 <= i < |targets| ==> RowOfTarget(w, s.current[Tic].records, targets[i], rows.value[i])
      else rows == w.ticRows
  {
    ActiveRecords(s, Tic);
    if Tic in s.current {
      var records := s.current[Tic].records;
      ServesMeansHolds(records, targets);
      if ServesAll(records, targets) {
        forall i | 0 <= i < |targets| ensures RowOfTarget(w, records, targets[i], RowsFor(w, records)(targets[i])) {
          LastOfMeans(records, targets[i]);
          var k := LastOfIsLast(records, targets[i]);
        }
      }
    }
  }

  // ---- The catalog store object -----------------------------------------

  /**
   What happens around a call: nothing, or what others do to the store before its n-th access and how many
   accesses it lives to make.
   */
  datatype Around = Alone | Among(others: (nat, Store) -> Store, life: nat)

  /**
   Others keep the store sound, delete nothing and unset no pointer, as every run of requests does
   (`CatalogRuns.RunInv`).
   */
  ghost predicate Benign(a: Around)
  {
    a.Among? ==> forall n, s :: Sound(s) ==> Sound(a.others(n, s)) && Evolves(s, a.others(n, s))
  }

  /** A snapshot of one catalog for one scope, complete in the store. */
  predicate Complete(s: Store, c: Catalog, scope: Scope, id: SnapshotId)
  {
    id in s.manifests && id.catalog == c && id.scope == scope
  }

  /** What the cache pointer of a catalog and scope names, if it is set. */
  function PointerTo(s: Store, c: Catalog, targets: Scope): Option<SnapshotId>
  {
    if CacheKey(c, targets) in s.cache then Some(s.cache[CacheKey(c, targets)]) else None
  }

  /** What was read from a pointer: nothing, or a complete snapshot while the pointer stays set. */
  predicate Names(s: Store, c: Catalog, targets: Scope, found: Option<SnapshotId>)
  {
    found.Some? ==> Complete(s, c, targets, found.value) && CacheKey(c, targets) in s.cache
  }

  predicate BothComplete(s: Store, targets: Scope, tic: SnapshotId, toi: SnapshotId)
  {
    Complete(s, Tic, targets, tic) && Complete(s, Toi, targets, toi) && Cached(s, targets)
  }

  /** This is what the pointer of the catalog names, or what a derivation comes to. */
  ghost predicate Answers(s: Store, c: Catalog, targets: Scope, w: World, r: Result<SnapshotId, SyncError>)
  {
    (r.Ok? && PointerTo(s, c, targets) == Some(r.value)) || Derived(s, c, targets, w) == r
  }

  /** At some moment between two states this is what a request was owed for the catalog. */
  ghost predicate OwedBetween(before: Store, after: Store, c: Catalog, targets: Scope, w: World,
                              r: Result<SnapshotId, SyncError>)
  {
    exists m :: Sound(m) && Evolves(before, m) && Evolves(m, after) && Answers(m, c, targets, w, r)
  }

  lemma OwedWithin(a: Store, b: Store, c: Store, d: Store, k: Catalog, targets: Scope, w: World,
                   r: Result<SnapshotId, SyncError>)
    requires Evolves(a, b) && Evolves(c, d) && OwedBetween(b, c, k, targets, w, r)
    ensures OwedBetween(a, d, k, targets, w, r)
  {
    var m :| Sound(m) && Evolves(b, m) && Evolves(m, c) && Answers(m, k, targets, w, r);
    EvolvesTransitive(a, b, m);
    EvolvesTransitive(m, c, d);
  }

  /**
   What a request returns: snapshots it was owed, complete and of its scope, that cover the targets; or the failure
   it met. Nothing it needs is ever missing.
   */
  ghost predicate Synced(before: Store, s: Store, targets: Scope, w: World, r: Outcome<Bundle>)
  {
    r.Returned? ==>
      match r.result
      case Ok(b) =>
        && BothComplete(s, targets, b.tic, b.toi) && r.result == Verdict(targets, b.tic, b.toi)
        && OwedBetween(before, s, Tic, targets, w, Ok(b.tic)) && OwedBetween(before, s, Toi, targets, w, Ok(b.toi))
      case Err(NoTargets) => targets == []
      case Err(Uncovered) => Cached(s, targets)
      case Err(MissingSnapshot) => false
      case Err(e) => OwedBetween(before, s, Tic, targets, w, Err(e)) || OwedBetween(before, s, Toi, targets, w, Err(e))
  }

  datatype Outcome<T> = Died | Returned(result: Result<T, SyncError>)

  function Both(first: Outcome<SnapshotId>, second: Outcome<SnapshotId>): Outcome<(SnapshotId, SnapshotId)>
  {
    if first.Died? then Died
    else if first.result.Err? then Returned(Err(first.result.error))
    else if second.Died? then Died
    else if second.result.Err? then Returned(Err(second.result.error))
    else Returned(Ok((first.result.value, second.result.value)))
  }

  /** What was read from a pointer: nothing, or a complete snapshot it named while it stays set. */
  ghost predicate WasRead(start: Store, now: Store, c: Catalog, targets: Scope, w: World, found: Option<SnapshotId>)
  {
    found.Some? ==>
      && Complete(now, c, targets, found.value) && CacheKey(c, targets) in now.cache
      && OwedBetween(start, now, c, targets, w, Ok(found.value))
  }

  ghost predicate PointersRead(start: Store, now: Store, targets: Scope, w: World, tic: Option<SnapshotId>,
                               toi: Option<SnapshotId>)
  {
    WasRead(start, now, Tic, targets, w, tic) && WasRead(start, now, Toi, targets, w, toi)
  }

  /** What was read from a pointer a moment ago. */
  lemma ReadNow(start: Store, now: Store, c: Catalog, targets: Scope, w: World)
    requires Sound(now) && Evolves(start, now)
    ensures WasRead(start, now, c, targets, w, PointerTo(now, c, targets))
  {
    if CacheKey(c, targets) in now.cache {
      assert Answers(now, c, targets, w, Ok(now.cache[CacheKey(c, targets)]));
    }
  }

  lemma StillNamed(start: Store, now: Store, later: Store, c: Catalog, targets: Scope, w: World,
                   found: Option<SnapshotId>)
    requires WasRead(start, now, c, targets, w, found) && Evolves(now, later)
    ensures WasRead(start, later, c, targets, w, found)
  {
    if found.Some? { OwedWithin(start, start, now, later, c, targets, w, Ok(found.value)); }
  }

  ghost predicate ResolvedBetween(start: Store, now: Store, c: Catalog, targets: Scope, w: World,
                                  r: Outcome<SnapshotId>)
  {
    r.Returned? ==>
      && OwedBetween(start, now, c, targets, w, r.result)
      && (r.result.Ok? ==> Complete(now, c, targets, r.result.value) && CacheKey(c, targets) in now.cache)
      && (r.result.Err? ==> r.result.error == FetchFailed || r.result.error == NotNormal)
  }

  ghost predicate BothOwedBetween(start: Store, now: Store, targets: Scope, w: World,
                                  r: Outcome<(SnapshotId, SnapshotId)>)
  {
    r.Returned? ==>
      match r.result
      case Ok(ids) =>
        && BothComplete(now, targets, ids.0, ids.1)
        && OwedBetween(start, now, Tic, targets, w, Ok(ids.0)) && OwedBetween(start, now, Toi, targets, w, Ok(ids.1))
      case Err(e) =>
        && (e == FetchFailed || e == NotNormal)
        && (OwedBetween(start, now, Tic, targets, w, Err(e)) || OwedBetween(start, now, Toi, targets, w, Err(e)))
  }

  lemma DerivedBetween(start: Store, before: Store, read: Store, now: Store, c: Catalog, targets: Scope, w: World,
                       r: Outcome<SnapshotId>)
    requires Evolves(start, before) && Evolves(before, read) && Evolves(read, now) && Sound(read)
    requires r.Returned? ==> r.result == Derived(read, c, targets, w)
    requires r.Returned? && r.result.Ok? ==>
      Complete(now, c, targets, r.result.value) && CacheKey(c, targets) in now.cache
    ensures ResolvedBetween(start, now, c, targets, w, r)
  {
    EvolvesTransitive(start, before, read);
    if r.Returned? { assert Answers(read, c, targets, w, r.result); }
  }

  lemma FirstStays(start: Store, middle: Store, now: Store, targets: Scope, w: World, first: Outcome<SnapshotId>)
    requires first.Returned? && first.result.Ok? && Evolves(middle, now)
    requires ResolvedBetween(start, middle, Tic, targets, w, first)
    ensures ResolvedBetween(start, now, Tic, targets, w, first)
  {
    OwedWithin(start, start, middle, now, Tic, targets, w, first.result);
  }

  lemma BothResolve(start: Store, middle: Store, now: Store, targets: Scope, w: World, first: Outcome<SnapshotId>,
                    second: Outcome<SnapshotId>)
    requires ResolvedBetween(start, middle, Tic, targets, w, first) && Evolves(middle, now)
    requires first.Returned? && first.result.Ok? ==> ResolvedBetween(start, now, Toi, targets, w, second)
    requires first.Returned? && first.result.Err? ==> now == middle
    ensures BothOwedBetween(start, now, targets, w, Both(first, second))
  {
    if first.Returned? && first.result.Ok? { FirstStays(start, middle, now, targets, w, first); }
  }

  /** The last part of a request: a failure is passed on, two snapshots are checked for coverage. */
  ghost predicate Concluded(middle: Store, now: Store, targets: Scope, ids: Outcome<(SnapshotId, SnapshotId)>,
                            r: Outcome<Bundle>)
  {
    && (ids.Died? ==> r.Died?)
    && (ids.Returned? && ids.result.Err? ==> now == middle && r == Returned(Err(ids.result.error)))
    && (ids.Returned? && ids.result.Ok? ==>
          && BothComplete(now, targets, ids.result.value.0, ids.result.value.1)
          && (r.Returned? ==> r.result == Verdict(targets, ids.result.value.0, ids.result.value.1)))
  }

  lemma Proceeded(start: Store, middle: Store, now: Store, targets: Scope, w: World,
                  ids: Outcome<(SnapshotId, SnapshotId)>, r: Outcome<Bundle>)
    requires targets != [] && BothOwedBetween(start, middle, targets, w, ids) && Evolves(middle, now)
    requires Concluded(middle, now, targets, ids, r)
    ensures Synced(start, now, targets, w, r)
  {
    if ids.Returned? && ids.result.Ok? { BothOwedLater(start, middle, now, targets, w, ids); }
  }

  lemma BothOwedLater(start: Store, middle: Store, now: Store, targets: Scope, w: World,
                      ids: Outcome<(SnapshotId, SnapshotId)>)
    requires ids.Returned? && ids.result.Ok? && Evolves(middle, now) && BothOwedBetween(start, middle, targets, w, ids)
    ensures BothOwedBetween(start, now, targets, w, ids)
  {
    OwedWithin(start, start, middle, now, Tic, targets, w, Ok(ids.result.value.0));
    OwedWithin(start, start, middle, now, Toi, targets, w, Ok(ids.result.value.1));
  }

  /** The cache once a pointer was set to what was derived, if anything was. */
  function CacheWith(s: Store, c: Catalog, targets: Scope, r: Result<SnapshotId, SyncError>): map<CacheKey, SnapshotId>
  {
    if r.Ok? then s.cache[CacheKey(c, targets) := r.value] else s.cache
  }

  /** A derivation nobody disturbs: it comes to what it should, sets the one pointer, or fails and changes nothing. */
  ghost predicate DerivedAlone(before: Store, after: Store, c: Catalog, targets: Scope, w: World,
                               r: Outcome<SnapshotId>)
  {
    && r == Returned(Derived(before, c, targets, w)) && after.current == before.current
    && after.cache == CacheWith(before, c, targets, r.result) && (r.result.Err? ==> after == before)
  }

  ghost predicate ResolvedAlone(before: Store, after: Store, c: Catalog, targets: Scope, w: World,
                                r: Outcome<SnapshotId>)
  {
    && r == Returned(Owed(before, c, targets, w)) && after.current == before.current
    && after.cache == CacheWith(before, c, targets, r.result)
    && (r.result.Err? || CacheKey(c, targets) in before.cache ==> after == before)
  }

  /** The cache once a request nobody disturbs has resolved both catalogs, or failed at one. */
  function CacheAfter(s: Store, targets: Scope, w: World): map<CacheKey, SnapshotId>
  {
    var tic, toi := Owed(s, Tic, targets, w), Owed(s, Toi, targets, w);
    if tic.Err? then s.cache
    else if toi.Err? then s.cache[CacheKey(Tic, targets) := tic.value]
    else s.cache[CacheKey(Tic, targets) := tic.value][CacheKey(Toi, targets) := toi.value]
  }

  /** Both catalogs resolved with nobody else at work. */
  ghost predicate BothAlone(before: Store, after: Store, targets: Scope, w: World,
                            r: Outcome<(SnapshotId, SnapshotId)>)
  {
    && r == Returned(BothOwed(before, targets, w)) && after.current == before.current
    && after.cache == CacheAfter(before, targets, w) && (Cached(before, targets) ==> after == before)
  }

  /** The provider is asked for a catalog without a pointer when the active snapshot does not serve. */
  predicate Asks(s: Store, c: Catalog, targets: Scope) { PointerTo(s, c, targets).None? && MustFetch(s, c, targets) }

  predicate BothAsk(s: Store, targets: Scope, w: World)
  {
    Asks(s, Tic, targets) || (Owed(s, Tic, targets, w).Ok? && Asks(s, Toi, targets))
  }

  lemma AsksStill(s: Store, m: Store, targets: Scope, w: World, first: Outcome<SnapshotId>)
    requires Sound(s) && Evolves(s, m) && ResolvedAlone(s, m, Tic, targets, w, first)
    ensures Asks(m, Toi, targets) == Asks(s, Toi, targets)
  {
    ToiUntouched(s, m, targets, w, first);
    assert LoadCurrent(m, Toi) == LoadCurrent(s, Toi);
  }

  lemma ToiUntouched(before: Store, after: Store, targets: Scope, w: World, first: Outcome<SnapshotId>)
    requires ResolvedAlone(before, after, Tic, targets, w, first)
    ensures PointerTo(after, Toi, targets) == PointerTo(before, Toi, targets)
  {}

  lemma BothResolvedAlone(s: Store, m: Store, t: Store, targets: Scope, w: World, first: Outcome<SnapshotId>,
                          second: Outcome<SnapshotId>)
    requires Sound(s) && Evolves(s, m) && ResolvedAlone(s, m, Tic, targets, w, first)
    requires if first.result.Ok? then ResolvedAlone(m, t, Toi, targets, w, second) else t == m
    ensures BothAlone(s, t, targets, w, Both(first, second))
  {
    DerivedIsStable(s, m, Toi, targets, w);
    assert Owed(m, Toi, targets, w) == Owed(s, Toi, targets, w);
  }

  /**
   A request nobody disturbs returns what it should: the snapshots its pointers name, or derived ones where they are
   unset. It sets the pointers of what it resolved, whether the coverage check passes or not, and changes no other;
   one whose pointers exist changes nothing.
   */
  ghost predicate SyncedAlone(before: Store, after: Store, targets: Scope, w: World, r: Outcome<Bundle>)
  {
    && r == Returned(SyncSpec(before, targets, w)) && after.current == before.current
    && after.cache == (if targets == [] then before.cache else CacheAfter(before, targets, w))
    && (Cached(before, targets) ==> after == before)
  }

  lemma AloneSyncs(s: Store, t: Store, targets: Scope, w: World, ids: Outcome<(SnapshotId, SnapshotId)>,
                   r: Outcome<Bundle>)
    requires targets != [] && BothAlone(s, t, targets, w, ids)
    requires r.Returned? && Concluded(t, t, targets, ids, r)
    ensures SyncedAlone(s, t, targets, w, r)
  {}

  class CatalogStore {
    var store: Store
    var accesses: nat
    // The puts made by calls on this object, as opposed to others.
    ghost var puts: nat

    constructor ()
      ensures store == Store(map[], map[], map[], map[]) && Sound(store) && accesses == 0 && puts == 0
    {
      store, accesses, puts := Store(map[], map[], map[], map[]), 0, 0;
    }

    /** The store is sound, and nothing it held before is gone. */
    ghost predicate Step(before: Store)
      reads this
    {
      Sound(store) && Evolves(before, store)
    }

    /** Others run before an access to the store; the process may not live to make it. */
    method Await(a: Around) returns (alive: bool)
      requires Sound(store) && Benign(a)
      modifies this`store, this`accesses
      ensures Step(old(store)) && accesses == old(accesses) + 1
      ensures a.Alone? ==> alive && store == old(store)
      ensures !a.Alone? ==> store == a.others(accesses, old(store)) && (alive <==> accesses <= a.life)
    {
      accesses := accesses + 1;
      if a.Alone? {
        return true;
      }
      store := a.others(accesses, store);
      alive := accesses <= a.life;
    }

    /** Write the records, then the manifest that makes them a snapshot, unless it is already there. */
    method ImportRows(c: Catalog, rows: seq<Raw>, scope: Scope, setCurrent: bool, w: World, a: Around)
      returns (r: Outcome<SnapshotId>)
      requires Sound(store) && Benign(a)
      modifies this
      ensures Step(old(store))
      ensures r.Died? || (r.result.Ok? <==> w.normalize(c, rows).Some?)
      ensures r.Returned? && r.result.Ok? ==>
        r.result.value == SnapshotId(c, w.normalize(c, rows).value, scope) && Complete(store, c, scope, r.result.value)
      ensures r.Returned? && r.result.Err? ==> r.result.error == NotNormal && puts == old(puts) && store == old(store)
      ensures a.Alone? ==> r.Returned? && store.cache == old(store.cache)
      ensures a.Alone? && !setCurrent ==> store.current == old(store.current)
      ensures r.Returned? && r.result.Ok? && setCurrent ==> c in store.current && store.current[c] == r.result.value
      ensures r.Returned? && r.result.Ok? ==>
        puts >= old(puts) + (if setCurrent then 1 else 0) && accesses - old(accesses) == 1 + puts - old(puts)
    {
      var records := w.normalize(c, rows);
      if records.None? {
        return Returned(Err(NotNormal));
      }
      var id := SnapshotId(c, records.value, scope);
      var alive := Await(a);
      if !alive {
        return Died;
      }
      if id !in store.manifests {
        alive := PutRecords(id, a);
        if !alive {
          return Died;
        }
      }
      if setCurrent {
        alive := Await(a);
        if !alive {
          return Died;
        }
        CurrentKeepsSound(store, id);
        store, puts := PutCurrent(store, id), puts + 1;
      }
      r := Returned(Ok(id));
    }

    method PutRecords(id: SnapshotId, a: Around) returns (alive: bool)
      requires Sound(store) && Benign(a)
      modifies this
      ensures Step(old(store)) && (alive ==> id in store.manifests)
      ensures alive ==> puts == old(puts) + 2 && accesses == old(accesses) + 2
      ensures a.Alone? ==> alive && store.cache == old(store.cache) && store.current == old(store.current)
    {
      alive := Await(a);
      if !alive {
        return;
      }
      FileKeepsSound(store, id);
      store, puts := PutFile(store, id), puts + 1;
      alive := Await(a);
      if alive {
        ManifestKeepsSound(store, id);
        store, puts := PutManifest(store, id), puts + 1;
      }
    }

    /** The TIC rows: from the active snapshot when it holds every target, else from the provider. */
    method TicRows(targets: Scope, w: World) returns (rows: Option<seq<Raw>>, fetched: bool)
      ensures fetched <==> MustFetch(store, Tic, targets)
      ensures rows == Rows(store, Tic, targets, w)
    {
      var active := LoadCurrent(store, Tic);
      if active.Some? {
        var all := true;
        for n := 0 to |targets|
          invariant all <==> forall i :: 0 <= i < n ==> targets[i] in Map(TicOf, active.value)
        {
          LastOfMeans(active.value, targets[n]);
          all := all && LastOf(active.value, targets[n]).Some?;
        }
        if all {
          return Some(Map(RowsFor(w, active.value), targets)), false;
        }
      }
      rows, fetched := w.ticRows, true;
    }

    method ToiRows(targets: Scope, w: World) returns (rows: Option<seq<Raw>>, fetched: bool)
      ensures fetched <==> MustFetch(store, Toi, targets)
      ensures rows == Rows(store, Toi, targets, w)
    {
      var active := LoadCurrent(store, Toi);
      if active.Some? {
        return Some(Map(w.toRaw, Filter(InScope(targets), active.value))), false;
      }
      rows, fetched := w.toiRows, true;
    }

    /** Import the rows under the scope and point the cache at the snapshot, whatever the pointer is by now. */
    method Publish(c: Catalog, rows: seq<Raw>, targets: Scope, w: World, a: Around) returns (r: Outcome<SnapshotId>)
      requires Sound(store) && Benign(a)
      modifies this
      ensures Step(old(store))
      ensures r.Returned? && r.result.Ok? ==>
        Complete(store, c, targets, r.result.value) && CacheKey(c, targets) in store.cache
      ensures r.Returned? ==>
        r.result == var records := w.normalize(c, rows);
          if records.None? then Err(NotNormal) else Ok(SnapshotId(c, records.value, targets))
      ensures r.Returned? && r.result.Err? ==> store == old(store)
      ensures a.Alone? ==>
        r.Returned? && store.current == old(store.current) && store.cache == CacheWith(old(store), c, targets, r.result)
      ensures r.Returned? && r.result.Ok? ==> puts > old(puts) && accesses - old(accesses) == 1 + puts - old(puts)
    {
      r := ImportRows(c, rows, targets, false, w, a);
      if r.Returned? && r.result.Ok? {
        ghost var imported := store;
        var alive := Await(a);
        EvolvesTransitive(old(store), imported, store);
        if !alive {
          return Died;
        }
        ghost var awaited := store;
        PointerKeepsSound(store, r.result.value);
        store, puts := PutPointer(store, r.result.value), puts + 1;
        EvolvesTransitive(old(store), awaited, store);
      }
    }

    /** Derive a snapshot of one catalog for the scope: from the active one or the provider, as they are when read. */
    method Derive(c: Catalog, targets: Scope, w: World, a: Around)
      returns (r: Outcome<SnapshotId>, fetched: bool, ghost read: Store)
      requires Sound(store) && Benign(a)
      modifies this
      ensures Step(old(store))
      ensures r.Returned? && r.result.Ok? ==>
        Complete(store, c, targets, r.result.value) && CacheKey(c, targets) in store.cache
      ensures Sound(read) && Evolves(old(store), read) && Evolves(read, store)
      ensures r.Returned? ==> r.result == Derived(read, c, targets, w) && fetched == MustFetch(read, c, targets)
      ensures a.Alone? ==> read == old(store) && DerivedAlone(old(store), store, c, targets, w, r)
    {
      var alive := Await(a);
      read := store;
      if !alive {
        return Died, false, read;
      }
      var rows: Option<seq<Raw>>;
      if c == Tic {
        rows, fetched := TicRows(targets, w);
      } else {
        rows, fetched := ToiRows(targets, w);
      }
      if rows.None? {
        return Returned(Err(FetchFailed)), fetched, read;
      }
      r := Publish(c, rows.value, targets, w, a);
      EvolvesTransitive(old(store), read, store);
    }

    /**
     Resolve the TIC and TOI snapshots of exactly these targets. The pointers are read once, at the start.
     */
    method SyncForTics(ticIds: seq<int>, w: World, a: Around) returns (r: Outcome<Bundle>, fetched: bool)
      requires Sound(store) && Benign(a)
      modifies this
      ensures Step(old(store))
      ensures Synced(old(store), store, Targets(ticIds), w, r)
      ensures Cached(old(store), Targets(ticIds)) ==> !fetched && puts == old(puts)
      ensures a.Alone? ==> SyncedAlone(old(store), store, Targets(ticIds), w, r)
      ensures a.Alone? && Targets(ticIds) != [] ==> (fetched <==> BothAsk(old(store), Targets(ticIds), w))
    {
      r, fetched := SyncTargets(Targets(ticIds), w, a);
    }

    method SyncTargets(targets: Scope, w: World, a: Around) returns (r: Outcome<Bundle>, fetched: bool)
      requires Sound(store) && Benign(a)
      modifies this
      ensures Step(old(store))
      ensures Synced(old(store), store, targets, w, r)
      ensures Cached(old(store), targets) ==> !fetched && puts == old(puts)
      ensures a.Alone? ==> SyncedAlone(old(store), store, targets, w, r)
      ensures a.Alone? && targets != [] ==> (fetched <==> BothAsk(old(store), targets, w))
    {
      if targets == [] {
        return Returned(Err(NoTargets)), false;
      }
      var alive, tic, toi := ReadPointers(targets, a);
      if !alive {
        return Died, false;
      }
      ghost var read := store;
      r, fetched := Proceed(old(store), targets, tic, toi, w, a);
      assert Cached(old(store), targets) ==> !fetched && puts == old(puts);
      EvolvesTransitive(old(store), read, store);
    }

    /** The request once its pointers are read, the first of them no earlier than `start`. */
    method Proceed(ghost start: Store, targets: Scope, tic: Option<SnapshotId>, toi: Option<SnapshotId>, w: World,
                   a: Around)
      returns (r: Outcome<Bundle>, fetched: bool)
      requires Sound(store) && Benign(a) && targets != [] && Evolves(start, store)
      requires PointersRead(start, store, targets, w, tic, toi)
      requires a.Alone? ==> tic == PointerTo(store, Tic, targets) && toi == PointerTo(store, Toi, targets)
      modifies this
      ensures Step(old(store))
      ensures Synced(start, store, targets, w, r)
      ensures (tic.None? || toi.None? || (!fetched && puts == old(puts)))
      ensures a.Alone? ==> SyncedAlone(old(store), store, targets, w, r)
      ensures a.Alone? && targets != [] ==> (fetched <==> BothAsk(old(store), targets, w))
    {
      var ids;
      ids, fetched := ResolveBoth(start, targets, tic, toi, w, a);
      ghost var middle := store;
      r := Conclude(targets, ids, a);
      EvolvesTransitive(old(store), middle, store);
      Proceeded(start, middle, store, targets, w, ids, r);
      if a.Alone? { AloneSyncs(old(store), store, targets, w, ids, r); }
    }

    /** Verify what was resolved, or report why it was not. */
    method Conclude(targets: Scope, ids: Outcome<(SnapshotId, SnapshotId)>, a: Around) returns (r: Outcome<Bundle>)
      requires Sound(store) && Benign(a)
      requires ids.Returned? && ids.result.Ok? ==> BothComplete(store, targets, ids.result.value.0, ids.result.value.1)
      modifies this`store, this`accesses
      ensures Step(old(store)) && Concluded(old(store), store, targets, ids, r)
      ensures a.Alone? ==> store == old(store) && (ids.Returned? ==> r.Returned?)
    {
      if ids.Died? || ids.result.Err? {
        return if ids.Died? then Died else Returned(Err(ids.result.error));
      }
      r := Confirm(targets, ids.result.value.0, ids.result.value.1, a);
    }

    /** Load both snapshots and check the coverage. */
    method Confirm(targets: Scope, tic: SnapshotId, toi: SnapshotId, a: Around) returns (r: Outcome<Bundle>)
      requires Sound(store) && Benign(a) && BothComplete(store, targets, tic, toi)
      modifies this`store, this`accesses
      ensures Step(old(store)) && BothComplete(store, targets, tic, toi)
      ensures r.Returned? ==> r.result == Verdict(targets, tic, toi)
      ensures a.Alone? ==> store == old(store) && r.Returned?
    {
      var alive := Await(a);
      if !alive {
        return Died;
      }
      VerifySound(store, targets, tic, toi);
      r := Returned(Verify(store, targets, tic, toi));
    }

    method ReadPointers(targets: Scope, a: Around)
      returns (alive: bool, tic: Option<SnapshotId>, toi: Option<SnapshotId>)
      requires Sound(store) && Benign(a)
      modifies this`store, this`accesses
      ensures Step(old(store))
      ensures alive ==> forall w :: PointersRead(old(store), store, targets, w, tic, toi)
      ensures alive && Cached(old(store), targets) ==> tic.Some? && toi.Some?
      ensures a.Alone? ==>
        alive && store == old(store) && tic == PointerTo(store, Tic, targets) && toi == PointerTo(store, Toi, targets)
    {
      alive, tic := ReadPointer(Tic, targets, a);
      if !alive {
        return false, None, None;
      }
      ghost var middle := store;
      alive, toi := ReadPointer(Toi, targets, a);
      EvolvesTransitive(old(store), middle, store);
      if alive {
        forall w ensures PointersRead(old(store), store, targets, w, tic, toi) {
          ReadNow(old(store), middle, Tic, targets, w);
          StillNamed(old(store), middle, store, Tic, targets, w, tic);
          ReadNow(old(store), store, Toi, targets, w);
        }
      }
    }

    /** The TIC snapshot, then the TOI snapshot. */
    method ResolveBoth(ghost start: Store, targets: Scope, tic: Option<SnapshotId>, toi: Option<SnapshotId>, w: World,
                       a: Around)
      returns (r: Outcome<(SnapshotId, SnapshotId)>, fetched: bool)
      requires Sound(store) && Benign(a) && Evolves(start, store)
      requires PointersRead(start, store, targets, w, tic, toi)
      requires a.Alone? ==> tic == PointerTo(store, Tic, targets) && toi == PointerTo(store, Toi, targets)
      modifies this
      ensures Step(old(store))
      ensures BothOwedBetween(start, store, targets, w, r)
      ensures tic.Some? && toi.Some? ==>
        r == Returned(Ok((tic.value, toi.value))) && !fetched && store == old(store) && puts == old(puts)
      ensures a.Alone? ==> BothAlone(old(store), store, targets, w, r)
      ensures a.Alone? ==> (fetched <==> BothAsk(old(store), targets, w))
    {
      var first, second: Outcome<SnapshotId>, asked: bool;
      first, fetched := Resolve(start, Tic, targets, tic, w, a);
      ghost var middle := store;
      EvolvesTransitive(start, old(store), middle);
      if first.Returned? && first.result.Ok? {
        StillNamed(start, old(store), middle, Toi, targets, w, toi);
        if a.Alone? {
          ToiUntouched(old(store), middle, targets, w, first);
          AsksStill(old(store), middle, targets, w, first);
        }
        second, asked := Resolve(start, Toi, targets, toi, w, a);
        fetched := fetched || asked;
        EvolvesTransitive(old(store), middle, store);
      } else {
        second := first;
      }
      r := Both(first, second);
      BothResolve(start, middle, store, targets, w, first, second);
      if a.Alone? { BothResolvedAlone(old(store), middle, store, targets, w, first, second); }
    }

    /** Keep the snapshot the pointer named, or derive one. */
    method Resolve(ghost start: Store, c: Catalog, targets: Scope, found: Option<SnapshotId>, w: World, a: Around)
      returns (r: Outcome<SnapshotId>, fetched: bool)
      requires Sound(store) && Benign(a) && Evolves(start, store)
      requires WasRead(start, store, c, targets, w, found)
      requires a.Alone? ==> found == PointerTo(store, c, targets)
      modifies this
      ensures Step(old(store))
      ensures ResolvedBetween(start, store, c, targets, w, r)
      ensures found.Some? ==> r == Returned(Ok(found.value)) && !fetched && store == old(store) && puts == old(puts)
      ensures a.Alone? ==> ResolvedAlone(old(store), store, c, targets, w, r)
      ensures a.Alone? ==> (fetched <==> Asks(old(store), c, targets))
    {
      if found.Some? {
        return Returned(Ok(found.value)), false;
      }
      ghost var read;
      r, fetched, read := Derive(c, targets, w, a);
      DerivedBetween(start, old(store), read, store, c, targets, w, r);
    }

    method ReadPointer(c: Catalog, targets: Scope, a: Around) returns (alive: bool, id: Option<SnapshotId>)
      requires Sound(store) && Benign(a)
      modifies this`store, this`accesses
      ensures Step(old(store))
      ensures alive ==> id == PointerTo(store, c, targets)
      ensures alive && CacheKey(c, targets) in old(store.cache) ==> id.Some?
      ensures a.Alone? ==> alive && store == old(store)
    {
      alive := Await(a);
      id := PointerTo(store, c, targets);
    }
  }
}
