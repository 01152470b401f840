/**
 Assembling and publishing one Gold candidate snapshot
 (apps/python-enrichment/pipeline/materializer.py). Feature extraction is a
 parameter: an arbitrary function that may fail. Bytes are modelled by what they
 encode, so two objects have the same digest exactly when they are equal.
 */
module GoldBuild {
  import opened Wrappers
  import opened Orders
  import opened Sequences
  import opened Events
  import opened SnapshotIdentity
  import opened Materializer

  datatype Features = Features(payload: string)

  datatype Evidence = Evidence(payload: string)

  datatype Row = Row(source: Id, sector: int, sha256: Id, features: Features, evidence: Evidence)

  /** The catalog snapshots selected for a batch, by catalog kind. */
  type Catalogs = map<Id, Id>

  datatype Extractors = Extractors(
    features: SilverEvent -> Option<Features>,
    evidence: (SilverEvent, Features) -> Option<Evidence>)

  // ---- Planning ---------------------------------------------------------

  const LIGHT_CURVE := Id("LIGHT_CURVE")
  const TARGET_PIXEL := Id("TARGET_PIXEL")
  const TIC := Id("TIC")
  const TOI := Id("TOI")
  const TCE := Id("TCE")

  function KindName(k: Kind): Id { if k == LightCurve then LIGHT_CURVE else TARGET_PIXEL }

  function ToInputRef(e: SilverEvent): InputRef
  {
    InputRef(Lineage(e.sourceProductId, e.processorVersion), e.sourceProductId, KindName(e.kind), e.bucket, e.objectKey,
             e.sha256, e.schemaVersion, e.processorVersion, EffectiveSampleId(e), e.processingFingerprint,
             RevisionOf(e))
  }

  /** The versions that enter the identity: one per product kind present, and the catalog enrichment's. */
  function SettingsOf(selected: seq<SilverEvent>, catalogs: Catalogs): Settings
  {
    var lc: map<Id, Id> := if LightCurves(selected) != [] then map[Id("lc") := Id("lc-features-v1")] else map[];
    var tpf: map<Id, Id> := if TargetPixels(selected) != [] then map[Id("tpf") := Id("tpf-vetting-v2")] else map[];
    Settings(Candidate, Id("gold-candidate-v4"), lc + tpf + map[Id("catalog") := Id("catalog-enrichment-v4")],
             catalogs, map k | k in catalogs && k in {TOI, TCE} :: catalogs[k])
  }

  /** With both kinds present, as in every batch that pairs off, the settings differ in the catalogs alone. */
  lemma SettingsMean(selected: seq<SilverEvent>, catalogs: Catalogs)
    requires LightCurves(selected) != [] && TargetPixels(selected) != []
    ensures var settings := SettingsOf(selected, catalogs);
      && settings.snapshotType == Candidate && settings.schemaVersion == Id("gold-candidate-v4")
      && settings.featureVersions == map[Id("lc") := Id("lc-features-v1"), Id("tpf") := Id("tpf-vetting-v2"),
                                         Id("catalog") := Id("catalog-enrichment-v4")]
      && settings.catalogSnapshots == catalogs
      && settings.labelSnapshots.Keys == catalogs.Keys * {Id("TOI"), Id("TCE")}
      && forall k :: k in settings.labelSnapshots ==> settings.labelSnapshots[k] == catalogs[k]
  {}

  /** The canonical inputs of two events are equal exactly when the events agree on all but id, bucket and time. */
  lemma RefIdentifies(a: SilverEvent, b: SilverEvent)
    ensures ToInputRef(a).productKind == Id(if a.kind == LightCurve then "LIGHT_CURVE" else "TARGET_PIXEL")
    ensures ToInputRef(a).objectKey == a.objectKey && ToInputRef(a).bucket == a.bucket
    ensures CanonicalOf(ToInputRef(a)) == CanonicalOf(ToInputRef(b)) <==>
      && a.sourceProductId == b.sourceProductId && a.kind == b.kind && a.sha256 == b.sha256
      && a.objectKey == b.objectKey && EffectiveSampleId(a) == EffectiveSampleId(b)
      && a.schemaVersion == b.schemaVersion && a.processorVersion == b.processorVersion
      && a.processingFingerprint == b.processingFingerprint
  {}

  lemma {:induction false} PutKnown(d: seq<SilverEvent>, e: SilverEvent)
    requires SlotsDistinct(d) && e in d
    ensures PutUnique(d, e) == d
  {
    assert d == [d[0]] + d[1..];
    if SameSlot(d[0], e) {
      var i :| 0 <= i < |d| && d[i] == e;
    } else {
      PutKnown(d[1..], e);
    }
  }

  lemma {:induction false} PutNew(d: seq<SilverEvent>, e: SilverEvent)
    requires forall x :: x in d ==> !SameSlot(x, e)
    ensures PutUnique(d, e) == d + [e]
  {
    if d != [] {
      assert d == [d[0]] + d[1..];
      PutNew(d[1..], e);
    }
  }

  lemma {:induction false} UniqueOfDistinct(d: seq<SilverEvent>)
    requires SlotsDistinct(d)
    ensures UniqueOf(d) == d
  {
    if d != [] {
      var n := |d| - 1;
      UniqueOfDistinct(d[..n]);
      forall x | x in d[..n] ensures !SameSlot(x, d[n]) {
        var i :| 0 <= i < n && d[i] == x;
      }
      PutNew(d[..n], d[n]);
      assert d == d[..n] + [d[n]];
    }
  }

  /** Listing the paired light curves again adds no reference. */
  lemma {:induction false} PairedAddNothing(selected: seq<SilverEvent>, pairs: seq<SilverEvent>)
    requires SlotsDistinct(selected) && forall p :: p in pairs ==> p in selected
    ensures UniqueOf(selected + pairs) == selected
  {
    if pairs == [] {
      assert selected + pairs == selected;
      UniqueOfDistinct(selected);
    } else {
      var n := |pairs| - 1;
      assert selected + pairs == (selected + pairs[..n]) + [pairs[n]];
      assert (selected + pairs)[..|selected + pairs| - 1] == selected + pairs[..n];
      PairedAddNothing(selected, pairs[..n]);
      PutKnown(selected, pairs[n]);
    }
  }

  // ---- What was selected ------------------------------------------------

  lemma SelectedSlots(events: seq<SilverEvent>)
    ensures SlotsDistinct(Selected(events))
  {
    UniqueSlots(events);
    var u, s := UniqueOf(events), Selected(events);
    SlotsDistinctPermute(u, s);
  }

  lemma SlotsDistinctPermute(a: seq<SilverEvent>, b: seq<SilverEvent>)
    requires SlotsDistinct(a) && multiset(a) == multiset(b)
    ensures SlotsDistinct(b)
  {
    assert Distinct(a) by {
      forall i, j | 0 <= i < j < |a| ensures a[i] != a[j] { assert !SameSlot(a[i], a[j]); }
    }
    DistinctPermutation(a, b);
    forall i, j | 0 <= i < j < |b| ensures !SameSlot(b[i], b[j]) {
      SameElements(a, b, b[i]);
      SameElements(a, b, b[j]);
      var k :| 0 <= k < |a| && a[k] == b[i];
      var l :| 0 <= l < |a| && a[l] == b[j];
      assert b[i] != b[j];
    }
  }

  lemma {:induction false} KindSources(k: Kind, s: seq<SilverEvent>)
    requires SlotsDistinct(s)
    ensures SourcesDistinct(Filter(KindIs(k), s))
  {
    if s != [] {
      var n := |s| - 1;
      KindSources(k, s[..n]);
      if s[n].kind == k {
        var f := Filter(KindIs(k), s[..n]);
        forall i | 0 <= i < |f| ensures f[i].sourceProductId != s[n].sourceProductId {
          FilterMember(KindIs(k), s[..n], f[i]);
          var j :| 0 <= j < n && s[j] == f[i];
          assert !SameSlot(s[j], s[n]);
        }
      }
    }
  }

  lemma {:induction false} KindsPartition(s: seq<SilverEvent>)
    ensures |s| == |LightCurves(s)| + |TargetPixels(s)|
  {
    if s != [] {
      KindsPartition(s[..|s| - 1]);
    }
  }

  // ---- Rows -------------------------------------------------------------

  /** The evidence taken from the target pixel `t` for the light curve `l`. */
  ghost predicate EvidenceFrom(x: Extractors, l: SilverEvent, t: SilverEvent, e: Evidence)
  {
    x.features(l).Some? && x.evidence(t, x.features(l).value) == Some(e)
  }

  /** The row of a light curve: its own features, and the evidence of a target pixel it shares a key with. */
  ghost predicate RowFor(x: Extractors, tpfs: seq<SilverEvent>, l: SilverEvent, row: Row)
  {
    && row.source == l.sourceProductId && row.sector == l.sector && row.sha256 == l.sha256
    && x.features(l) == Some(row.features)
    && exists t :: t in tpfs && Shares(t, l) && EvidenceFrom(x, l, t, row.evidence)
  }

  ghost function RowsFor(x: Extractors, tpfs: seq<SilverEvent>): (SilverEvent, Row) -> bool
  {
    (l, row) => RowFor(x, tpfs, l, row)
  }

  type Found = map<Id, Evidence>

  /** The i-th target pixel contributed the evidence filed under its light curve. */
  ghost predicate Filed(x: Extractors, tpfs: seq<SilverEvent>, pairs: seq<SilverEvent>, found: Found, i: nat)
    requires i < |tpfs| == |pairs|
  {
    pairs[i].sourceProductId in found && EvidenceFrom(x, pairs[i], tpfs[i], found[pairs[i].sourceProductId])
  }

  ghost predicate FeaturesKnown(x: Extractors, lcs: seq<SilverEvent>)
  {
    forall l :: l in lcs ==> x.features(l).Some?
  }

  method ExtractFeatures(x: Extractors, lcs: seq<SilverEvent>) returns (ok: bool)
    ensures ok <==> FeaturesKnown(x, lcs)
  {
    for n := 0 to |lcs|
      invariant forall i :: 0 <= i < n ==> x.features(lcs[i]).Some?
    {
      if x.features(lcs[n]).None? {
        assert lcs[n] in lcs;
        return false;
      }
    }
    ok := true;
  }

  /** The i-th target pixel yields no evidence for the light curve it is paired with. */
  ghost predicate PairFails(x: Extractors, tpfs: seq<SilverEvent>, pairs: seq<SilverEvent>, i: int)
  {
    && 0 <= i < |tpfs| && i < |pairs| && x.features(pairs[i]).Some?
    && x.evidence(tpfs[i], x.features(pairs[i]).value).None?
  }

  /** Take the evidence of each target pixel; a light curve served twice is ambiguous. */
  method CollectEvidence(x: Extractors, tpfs: seq<SilverEvent>, pairs: seq<SilverEvent>)
    returns (r: Result<Found, BuildError>)
    requires |tpfs| == |pairs| && FeaturesKnown(x, pairs)
    ensures r.Ok? ==> SourcesDistinct(pairs) && forall i :: 0 <= i < |tpfs| ==> Filed(x, tpfs, pairs, r.value, i)
    ensures r.Err? ==> (r.error == FeatureFailure && exists i :: PairFails(x, tpfs, pairs, i))
                       || (r.error == AmbiguousTargetPixel && !SourcesDistinct(pairs))
  {
    var found: Found := map[];
    for n := 0 to |tpfs|
      invariant forall i :: 0 <= i < n ==> Filed(x, tpfs, pairs, found, i)
      invariant forall s :: s in found ==> exists i :: 0 <= i < n && pairs[i].sourceProductId == s
      invariant SourcesDistinct(pairs[..n])
    {
      assert pairs[n] in pairs;
      var evidence := x.evidence(tpfs[n], x.features(pairs[n]).value);
      if evidence.None? {
        assert PairFails(x, tpfs, pairs, n);
        return Err(FeatureFailure);
      }
      if pairs[n].sourceProductId in found {
        return Err(AmbiguousTargetPixel);
      }
      ghost var before := found;
      found := found[pairs[n].sourceProductId := evidence.value];
      forall i | 0 <= i < n + 1
        ensures Filed(x, tpfs, pairs, found, i) && (i < n ==> pairs[i].sourceProductId != pairs[n].sourceProductId)
      {
        if i < n { assert Filed(x, tpfs, pairs, before, i); }
      }
    }
    assert pairs[..|pairs|] == pairs;
    r := Ok(found);
  }

  lemma EvidenceOfPartner(x: Extractors, lcs: seq<SilverEvent>, tpfs: seq<SilverEvent>, pairs: seq<SilverEvent>,
                          found: Found, l: SilverEvent)
    requires SourcesDistinct(lcs) && PairedWith(lcs, tpfs, pairs) && AllPaired(lcs, pairs) && l in lcs
    requires |tpfs| == |pairs| && forall i :: 0 <= i < |tpfs| ==> Filed(x, tpfs, pairs, found, i)
    ensures l.sourceProductId in found
    ensures exists t :: t in tpfs && Shares(t, l) && EvidenceFrom(x, l, t, found[l.sourceProductId])
  {
    var i := PartnerOf(lcs, tpfs, pairs, l);
    PairFacts(lcs, tpfs, pairs, i);
    assert Filed(x, tpfs, pairs, found, i) && tpfs[i] in tpfs;
  }

  /** One row per light curve, in order. */
  method AssembleRows(x: Extractors, lcs: seq<SilverEvent>, ghost tpfs: seq<SilverEvent>,
                      ghost pairs: seq<SilverEvent>, found: Found)
    returns (rows: seq<Row>)
    requires SourcesDistinct(lcs) && PairedWith(lcs, tpfs, pairs) && AllPaired(lcs, pairs) && FeaturesKnown(x, lcs)
    requires |tpfs| == |pairs| && forall i :: 0 <= i < |tpfs| ==> Filed(x, tpfs, pairs, found, i)
    ensures Pairwise(RowsFor(x, tpfs), lcs, rows)
  {
    rows := [];
    for n := 0 to |lcs|
      invariant Pairwise(RowsFor(x, tpfs), lcs[..n], rows)
    {
      var l := lcs[n];
      EvidenceOfPartner(x, lcs, tpfs, pairs, found, l);
      var row := Row(l.sourceProductId, l.sector, l.sha256, x.features(l).value, found[l.sourceProductId]);
      assert RowFor(x, tpfs, l, row);
      PairwiseSnoc(RowsFor(x, tpfs), lcs[..n], rows, l, row);
      rows := rows + [row];
      assert lcs[..n + 1] == lcs[..n] + [l];
    }
    assert lcs[..|lcs|] == lcs;
  }

  predicate RowLeq(a: Row, b: Row) { TextLeq(a.source, b.source) }

  // ---- Partitions -------------------------------------------------------

  datatype Partition = Partition(sector: int, rows: seq<Row>)

  /** `int(row.get("sector") or 1)` */
  function SectorOf(row: Row): int { if row.sector == 0 then 1 else row.sector }

  function InSector(sector: int): Row -> bool { (row: Row) => SectorOf(row) == sector }

  /** Append to the list of the row's sector, opening it if it is new. */
  function PutRow(groups: seq<Partition>, row: Row): seq<Partition>
  {
    if groups == [] then [Partition(SectorOf(row), [row])]
    else if groups[0].sector == SectorOf(row) then [Partition(groups[0].sector, groups[0].rows + [row])] + groups[1..]
    else [groups[0]] + PutRow(groups[1..], row)
  }

  function Grouped(rows: seq<Row>): seq<Partition>
  {
    if rows == [] then [] else PutRow(Grouped(rows[..|rows| - 1]), rows[|rows| - 1])
  }

  predicate SectorLeq(a: Partition, b: Partition) { a.sector <= b.sector }

  /** The partitions of a dataset, in sector order. */
  function Partitions(rows: seq<Row>): seq<Partition> { Sort(SectorLeq, Grouped(rows)) }

  function RowCount(p: Partition): nat { |p.rows| }

  lemma TotalCons(w: Partition -> nat, p: Partition, s: seq<Partition>)
    ensures Total(w, [p] + s) == w(p) + Total(w, s)
  {
    TotalConcat(w, [p], s);
    assert Total(w, [p]) == Total(w, []) + w(p) by { assert [p][..0] == []; }
  }

  lemma {:induction false} PutRowCounts(groups: seq<Partition>, row: Row)
    ensures Total(RowCount, PutRow(groups, row)) == Total(RowCount, groups) + 1
  {
    if groups == [] {
      TotalCons(RowCount, Partition(SectorOf(row), [row]), []);
      assert [Partition(SectorOf(row), [row])] + [] == PutRow(groups, row);
    } else {
      assert groups == [groups[0]] + groups[1..];
      TotalCons(RowCount, groups[0], groups[1..]);
      if groups[0].sector == SectorOf(row) {
        TotalCons(RowCount, Partition(groups[0].sector, groups[0].rows + [row]), groups[1..]);
      } else {
        PutRowCounts(groups[1..], row);
        TotalCons(RowCount, groups[0], PutRow(groups[1..], row));
      }
    }
  }

  lemma {:induction false} GroupedCounts(rows: seq<Row>)
    ensures Total(RowCount, Grouped(rows)) == |rows|
  {
    if rows != [] {
      GroupedCounts(rows[..|rows| - 1]);
      PutRowCounts(Grouped(rows[..|rows| - 1]), rows[|rows| - 1]);
    }
  }

  /** The partitions hold every row once. */
  lemma PartitionsConserve(rows: seq<Row>)
    ensures Total(RowCount, Partitions(rows)) == |rows|
  {
    GroupedCounts(rows);
    TotalPermute(RowCount, Partitions(rows), Grouped(rows));
  }

  /** The rows listed under a sector. */
  function RowsUnder(groups: seq<Partition>, sector: int): seq<Row>
  {
    if groups == [] then []
    else if groups[0].sector == sector then groups[0].rows
    else RowsUnder(groups[1..], sector)
  }

  predicate HasSector(groups: seq<Partition>, sector: int)
  {
    groups != [] && (groups[0].sector == sector || HasSector(groups[1..], sector))
  }

  predicate SectorsOnce(groups: seq<Partition>)
  {
    groups == [] || (!HasSector(groups[1..], groups[0].sector) && SectorsOnce(groups[1..]))
  }

  lemma {:induction false} PutRowUnder(groups: seq<Partition>, row: Row, sector: int)
    ensures RowsUnder(PutRow(groups, row), sector)
      == RowsUnder(groups, sector) + if sector == SectorOf(row) then [row] else []
    ensures HasSector(PutRow(groups, row), sector) <==> HasSector(groups, sector) || sector == SectorOf(row)
  {
    if groups != [] && groups[0].sector != SectorOf(row) {
      PutRowUnder(groups[1..], row, sector);
    }
  }

  lemma {:induction false} PutRowOnce(groups: seq<Partition>, row: Row)
    requires SectorsOnce(groups)
    ensures SectorsOnce(PutRow(groups, row))
  {
    if groups != [] && groups[0].sector != SectorOf(row) {
      PutRowOnce(groups[1..], row);
      PutRowUnder(groups[1..], row, groups[0].sector);
    }
  }

  lemma {:induction false} GroupedMeans(rows: seq<Row>, sector: int)
    ensures RowsUnder(Grouped(rows), sector) == Filter(InSector(sector), rows)
    ensures HasSector(Grouped(rows), sector) <==> Filter(InSector(sector), rows) != []
    ensures SectorsOnce(Grouped(rows))
  {
    if rows != [] {
      var n := |rows| - 1;
      GroupedMeans(rows[..n], sector);
      PutRowUnder(Grouped(rows[..n]), rows[n], sector);
      PutRowOnce(Grouped(rows[..n]), rows[n]);
    }
  }

  lemma {:induction false} OnceUnder(groups: seq<Partition>, p: Partition)
    requires SectorsOnce(groups) && p in groups
    ensures HasSector(groups, p.sector) && RowsUnder(groups, p.sector) == p.rows
  {
    assert groups == [groups[0]] + groups[1..];
    if p != groups[0] {
      OnceUnder(groups[1..], p);
    }
  }

  lemma {:induction false} SectorListed(groups: seq<Partition>, sector: int) returns (p: Partition)
    requires HasSector(groups, sector)
    ensures p in groups && p.sector == sector
  {
    if groups[0].sector == sector {
      p := groups[0];
    } else {
      p := SectorListed(groups[1..], sector);
      assert p in groups[1..];
    }
  }

  /** A partition holds exactly the rows of its sector, in order, and is not empty. */
  lemma PartitionHoldsSector(rows: seq<Row>, p: Partition)
    requires p in Partitions(rows)
    ensures p.rows == Filter(InSector(p.sector), rows) && p.rows != []
    ensures forall row :: row in p.rows ==>
        row in rows && (row.sector == p.sector != 0 || (row.sector == 0 && p.sector == 1))
  {
    SameElements(Partitions(rows), Grouped(rows), p);
    forall row | row in Filter(InSector(p.sector), rows) ensures row in rows && SectorOf(row) == p.sector {
      FilterMember(InSector(p.sector), rows, row);
    }
    GroupedMeans(rows, p.sector);
    OnceUnder(Grouped(rows), p);
  }

  /** Every row is in the partition of its sector, one without a sector in that of sector 1. */
  lemma EveryRowHasPartition(rows: seq<Row>, row: Row) returns (p: Partition)
    requires row in rows
    ensures p in Partitions(rows) && row in p.rows
    ensures if row.sector == 0 then p.sector == 1 else p.sector == row.sector
  {
    FilterMember(InSector(SectorOf(row)), rows, row);
    GroupedMeans(rows, SectorOf(row));
    p := SectorListed(Grouped(rows), SectorOf(row));
    SameElements(Partitions(rows), Grouped(rows), p);
    PartitionHoldsSector(rows, p);
  }

  method GroupRows(rows: seq<Row>) returns (groups: seq<Partition>)
    ensures groups == Grouped(rows)
  {
    groups := [];
    for n := 0 to |rows|
      invariant groups == Grouped(rows[..n])
    {
      assert rows[..n + 1][..n] == rows[..n];
      groups := PutRow(groups, rows[n]);
    }
    assert rows[..|rows|] == rows;
  }

  // ---- The object store -------------------------------------------------

  /** The keys under gold/snapshots/ are the first two; the current pointer is the only mutable Gold key. */
  datatype GoldKey =
    | PartKey(identity: Identity, sector: int)
    | ManifestKey(identity: Identity)
    | CurrentKey

  datatype Location = Location(bucket: Id, key: GoldKey)

  datatype PartRecord = PartRecord(sector: int, location: Location, rowCount: nat)

  /** `committed` and `researchReady`: its status is COMMITTED and its completeness policy the research-ready one. */
  datatype Manifest = Manifest(
    identity: Identity, inputs: seq<InputRef>, inputCount: nat, rowCount: nat, artifacts: seq<PartRecord>,
    createdAt: int,
    committed: bool, researchReady: bool)

  datatype Blob =
    | PartBytes(rows: seq<Row>)
    | ManifestBytes(manifest: Manifest)
    | PointerBytes(identity: Identity)
    | ForeignBytes(text: string)

  type Objects = map<Location, Blob>

  /** Everything stored stays stored, byte for byte. */
  predicate Extends(before: Objects, after: Objects)
  {
    forall l :: l in before ==> l in after && after[l] == before[l]
  }

  /** No key has gone. */
  predicate NoneGone(before: Objects, after: Objects) { forall l :: l in before ==> l in after }

  function RecordOf(bucket: Id, identity: Identity): Partition -> PartRecord
  {
    (p: Partition) => PartRecord(p.sector, Location(bucket, PartKey(identity, p.sector)), |p.rows|)
  }

  function PartLocation(bucket: Id, identity: Identity, p: Partition): Location
  {
    Location(bucket, PartKey(identity, p.sector))
  }

  predicate Stored(objects: Objects, l: Location, data: Blob) { l in objects && objects[l] == data }

  predicate Clashes(objects: Objects, l: Location, data: Blob) { l in objects && objects[l] != data }

  /** The store after the data files of `parts` were written. */
  function AfterParts(objects: Objects, bucket: Id, identity: Identity, parts: seq<Partition>): Objects
  {
    if parts == [] then objects
    else
      var n := |parts| - 1;
      AfterParts(objects, bucket, identity, parts[..n])
        [PartLocation(bucket, identity, parts[n]) := PartBytes(parts[n].rows)]
  }

  /** Only data files of `identity` were added. */
  predicate OnlyPartsAdded(before: Objects, after: Objects, bucket: Id, identity: Identity)
  {
    Extends(before, after) &&
    forall l :: l in after && l !in before ==> l.bucket == bucket && l.key.PartKey? && l.key.identity == identity
  }

  predicate SectorsDiffer(parts: seq<Partition>)
  {
    forall i, j :: 0 <= i < j < |parts| ==> parts[i].sector != parts[j].sector
  }

  lemma PartAdded(before: Objects, now: Objects, bucket: Id, identity: Identity, p: Partition)
    requires OnlyPartsAdded(before, now, bucket, identity)
    requires !Clashes(now, PartLocation(bucket, identity, p), PartBytes(p.rows))
    ensures OnlyPartsAdded(before, now[PartLocation(bucket, identity, p) := PartBytes(p.rows)], bucket, identity)
  {}

  lemma AfterPartsSnoc(objects: Objects, bucket: Id, identity: Identity, parts: seq<Partition>, n: nat)
    requires n < |parts|
    ensures AfterParts(objects, bucket, identity, parts[..n + 1])
      == AfterParts(objects, bucket, identity, parts[..n])
           [PartLocation(bucket, identity, parts[n]) := PartBytes(parts[n].rows)]
  {
    assert parts[..n + 1][..n] == parts[..n];
  }

  lemma {:induction false} UnwrittenUnchanged(objects: Objects, bucket: Id, identity: Identity, parts: seq<Partition>,
                                              l: Location)
    requires forall i :: 0 <= i < |parts| ==> l != PartLocation(bucket, identity, parts[i])
    ensures var after := AfterParts(objects, bucket, identity, parts);
      (l in after <==> l in objects) && (l in objects ==> after[l] == objects[l])
  {
    if parts != [] {
      UnwrittenUnchanged(objects, bucket, identity, parts[..|parts| - 1], l);
    }
  }

  lemma NotWrittenYet(objects: Objects, bucket: Id, identity: Identity, parts: seq<Partition>, n: nat)
    requires n < |parts| && SectorsDiffer(parts)
    ensures var l := PartLocation(bucket, identity, parts[n]);
      var after := AfterParts(objects, bucket, identity, parts[..n]);
      (l in after <==> l in objects) && (l in objects ==> after[l] == objects[l])
  {
    UnwrittenUnchanged(objects, bucket, identity, parts[..n], PartLocation(bucket, identity, parts[n]));
  }

  /** Once the dataset is written, each data file holds its partition. */
  lemma {:induction false} PartsStored(objects: Objects, bucket: Id, identity: Identity, parts: seq<Partition>,
                                       n: nat, i: nat)
    requires i < n <= |parts| && SectorsDiffer(parts)
    ensures Stored(AfterParts(objects, bucket, identity, parts[..n]), PartLocation(bucket, identity, parts[i]),
                   PartBytes(parts[i].rows))
    decreases n
  {
    AfterPartsSnoc(objects, bucket, identity, parts, n - 1);
    if i < n - 1 {
      PartsStored(objects, bucket, identity, parts, n - 1, i);
    }
  }

  lemma {:induction false} OnceDistinct(groups: seq<Partition>, i: nat, j: nat)
    requires SectorsOnce(groups) && i < j < |groups|
    ensures groups[i].sector != groups[j].sector
  {
    if i == 0 {
      if groups[0].sector == groups[j].sector { ListedHas(groups[1..], j - 1); }
    } else {
      OnceDistinct(groups[1..], i - 1, j - 1);
    }
  }

  lemma {:induction false} ListedHas(groups: seq<Partition>, j: nat)
    requires j < |groups|
    ensures HasSector(groups, groups[j].sector)
  {
    if j > 0 { ListedHas(groups[1..], j - 1); }
  }

  lemma PartitionSectorsDiffer(rows: seq<Row>)
    ensures SectorsDiffer(Partitions(rows))
  {
    var g, s := Grouped(rows), Partitions(rows);
    GroupedMeans(rows, 0);
    forall i, j | 0 <= i < j < |g| ensures g[i].sector != g[j].sector { OnceDistinct(g, i, j); }
    assert Distinct(g);
    DistinctPermutation(g, s);
    forall i, j | 0 <= i < j < |s| ensures s[i].sector != s[j].sector {
      SameElements(g, s, s[i]);
      SameElements(g, s, s[j]);
      if s[i].sector == s[j].sector {
        OnceUnder(g, s[i]);
        OnceUnder(g, s[j]);
      }
    }
  }

  /** The data files come by increasing sector. */
  lemma PartitionsInOrder(rows: seq<Row>, i: nat, j: nat)
    requires i < j < |Partitions(rows)|
    ensures Partitions(rows)[i].sector < Partitions(rows)[j].sector
  {
    SortSorts(SectorLeq, Grouped(rows));
    PartitionSectorsDiffer(rows);
    assert SectorLeq(Partitions(rows)[i], Partitions(rows)[j]);
  }

  // ---- The build --------------------------------------------------------

  datatype Draft = Draft(bucket: Id, plan: Plan, rows: seq<Row>)

  function Refs(events: seq<SilverEvent>): seq<InputRef> { Map(ToInputRef, Selected(events)) }

  /** What a batch must meet before anything is written. */
  ghost predicate Buildable(x: Extractors, events: seq<SilverEvent>, catalogs: Catalogs)
  {
    var lcs, tpfs := LightCurves(Selected(events)), TargetPixels(Selected(events));
    && NoConflict(events) && lcs != [] && TIC in catalogs && TOI in catalogs && FeaturesKnown(x, lcs)
    && PerfectMatching(lcs, tpfs) && Consistent(Refs(events))
  }

  /** The bucket a snapshot goes to: that of its first event by product. */
  function SnapshotBucket(home: Id, selected: seq<SilverEvent>): Id
  {
    if selected == [] then home else BucketOf(home, selected[0])
  }

  /** The draft of a batch: two inputs per row, one row per light curve, in order of product. */
  ghost predicate Drafted(x: Extractors, events: seq<SilverEvent>, catalogs: Catalogs, home: Id, d: Draft)
  {
    var selected := Selected(events);
    && d.bucket == SnapshotBucket(home, selected)
    && d.plan == Plan(IdentityOf(SettingsOf(selected, catalogs), Refs(events)), SortInputs(Refs(events)),
                      2 * |LightCurves(selected)|)
    && |LightCurves(selected)| == |TargetPixels(selected)|
    && Pairwise(RowsFor(x, TargetPixels(selected)), LightCurves(selected), d.rows)
  }

  /** Why a batch was refused before anything was written. */
  ghost predicate Refused(x: Extractors, events: seq<SilverEvent>, catalogs: Option<Catalogs>, e: BuildError)
  {
    var lcs, tpfs := LightCurves(Selected(events)), TargetPixels(Selected(events));
    match e
    case ConflictingArtifacts => !NoConflict(events)
    case NothingSelected => events == []
    case NoCatalogs => catalogs.None?
    case NoLightCurve => lcs == []
    case MissingCatalog => catalogs.Some? && !(TIC in catalogs.value && TOI in catalogs.value)
    case FeatureFailure => !FeaturesKnown(x, lcs) || EvidenceFails(x, lcs, tpfs)
    case PlanRejected(_) => !Consistent(Refs(events))
    case ImmutableConflict => false
    case _ => !PerfectMatching(lcs, tpfs)
  }

  /** A light curve and a target pixel that share a key yield no evidence. */
  ghost predicate EvidenceFails(x: Extractors, lcs: seq<SilverEvent>, tpfs: seq<SilverEvent>)
  {
    exists l, t ::
      l in lcs && t in tpfs && Shares(t, l) && x.features(l).Some? && x.evidence(t, x.features(l).value).None?
  }

  /** All a batch needs for its snapshot to be drafted. */
  ghost predicate Complete(x: Extractors, events: seq<SilverEvent>, catalogs: Option<Catalogs>)
  {
    && catalogs.Some? && Buildable(x, events, catalogs.value)
    && !EvidenceFails(x, LightCurves(Selected(events)), TargetPixels(Selected(events)))
  }

  /** A refusal names something the batch lacks. */
  lemma RefusedIsIncomplete(x: Extractors, events: seq<SilverEvent>, catalogs: Option<Catalogs>, e: BuildError)
    requires Refused(x, events, catalogs, e)
    ensures !Complete(x, events, catalogs)
  {
    if e == NothingSelected { UniqueNonempty(events); }
  }

  /** In a perfect matching the evidence of a row can only come from the target pixel of its light curve. */
  lemma OnlyPartner(lcs: seq<SilverEvent>, tpfs: seq<SilverEvent>, l: SilverEvent, t: SilverEvent, u: SilverEvent)
    requires PerfectMatching(lcs, tpfs) && l in lcs && t in tpfs && u in tpfs && Shares(t, l) && Shares(u, l)
    ensures t == u
  {
    SharesBothWays(t, l);
    SharesBothWays(u, l);
    assert ExactlyOne(l, tpfs);
  }

  lemma SharesBothWays(a: SilverEvent, b: SilverEvent)
    ensures Shares(a, b) <==> Shares(b, a)
  {}

  lemma DraftedIsComplete(x: Extractors, events: seq<SilverEvent>, catalogs: Catalogs, home: Id, d: Draft)
    requires Buildable(x, events, catalogs) && Drafted(x, events, catalogs, home, d)
    ensures Complete(x, events, Some(catalogs))
  {
    var lcs, tpfs := LightCurves(Selected(events)), TargetPixels(Selected(events));
    forall l, t | l in lcs && t in tpfs && Shares(t, l) && x.features(l).Some?
      ensures x.evidence(t, x.features(l).value).Some?
    {
      var i :| 0 <= i < |lcs| && lcs[i] == l;
      assert RowsFor(x, tpfs)(l, d.rows[i]);
      var u :| u in tpfs && Shares(u, l) && EvidenceFrom(x, l, u, d.rows[i].evidence);
      OnlyPartner(lcs, tpfs, l, t, u);
    }
  }

  lemma SameRow(x: Extractors, lcs: seq<SilverEvent>, tpfs: seq<SilverEvent>, l: SilverEvent, a: Row, b: Row)
    requires PerfectMatching(lcs, tpfs) && l in lcs && RowFor(x, tpfs, l, a) && RowFor(x, tpfs, l, b)
    ensures a == b
  {
    var t :| t in tpfs && Shares(t, l) && EvidenceFrom(x, l, t, a.evidence);
    var u :| u in tpfs && Shares(u, l) && EvidenceFrom(x, l, u, b.evidence);
    OnlyPartner(lcs, tpfs, l, t, u);
  }

  /** A batch has one draft. */
  lemma DraftIsUnique(x: Extractors, events: seq<SilverEvent>, catalogs: Catalogs, home: Id, a: Draft, b: Draft)
    requires Buildable(x, events, catalogs)
    requires Drafted(x, events, catalogs, home, a) && Drafted(x, events, catalogs, home, b)
    ensures a == b
  {
    var lcs, tpfs := LightCurves(Selected(events)), TargetPixels(Selected(events));
    forall i | 0 <= i < |lcs| ensures a.rows[i] == b.rows[i] {
      assert RowsFor(x, tpfs)(lcs[i], a.rows[i]) && RowsFor(x, tpfs)(lcs[i], b.rows[i]);
      SameRow(x, lcs, tpfs, lcs[i], a.rows[i], b.rows[i]);
    }
  }

  lemma {:induction false} SortOfSorted<T(!new)>(leq: (T, T) -> bool, s: seq<T>)
    requires Sorted(leq, s)
    ensures Sort(leq, s) == s
  {
    if s != [] {
      SortOfSorted(leq, s[1..]);
      assert s == [s[0]] + s[1..];
    }
  }

  lemma {:induction false} FilterSorted<T(!new)>(leq: (T, T) -> bool, p: T -> bool, s: seq<T>)
    requires Sorted(leq, s)
    ensures Sorted(leq, Filter(p, s))
  {
    if s != [] {
      var n := |s| - 1;
      FilterSorted(leq, p, s[..n]);
      var f := Filter(p, s[..n]);
      forall i | 0 <= i < |f| ensures leq(f[i], s[n]) {
        FilterMember(p, s[..n], f[i]);
        var j :| 0 <= j < n && s[j] == f[i];
      }
    }
  }

  lemma SourceLeqIsOrder()
    ensures TotalPreorder(SourceLeq)
  {
    forall a: SilverEvent, b: SilverEvent ensures SourceLeq(a, b) || SourceLeq(b, a) {
      TextOrder(a.sourceProductId, b.sourceProductId, a.sourceProductId);
    }
    forall a: SilverEvent, b: SilverEvent, c: SilverEvent | SourceLeq(a, b) && SourceLeq(b, c) ensures SourceLeq(a, c) {
      TextOrder(a.sourceProductId, b.sourceProductId, c.sourceProductId);
    }
  }

  /** The rows come out in order of product, so the final sort leaves them as they are. */
  lemma RowsAlreadySorted(x: Extractors, events: seq<SilverEvent>, rows: seq<Row>)
    requires Pairwise(RowsFor(x, TargetPixels(Selected(events))), LightCurves(Selected(events)), rows)
    ensures Sort(RowLeq, rows) == rows
  {
    SourceLeqIsOrder();
    SortSorts(SourceLeq, UniqueOf(events));
    var lcs := LightCurves(Selected(events));
    FilterSorted(SourceLeq, KindIs(LightCurve), Selected(events));
    forall i, j | 0 <= i < j < |rows| ensures RowLeq(rows[i], rows[j]) {
      assert RowsFor(x, TargetPixels(Selected(events)))(lcs[i], rows[i]);
      assert RowsFor(x, TargetPixels(Selected(events)))(lcs[j], rows[j]);
      assert SourceLeq(lcs[i], lcs[j]);
    }
    SortOfSorted(RowLeq, rows);
  }

  lemma {:induction false} UniqueNonempty(events: seq<SilverEvent>)
    ensures Selected(events) == [] <==> events == []
  {
    if events != [] {
      var u := UniqueRepresents(events, events[0]);
      SelectedMembers(events, u);
    }
  }

  lemma PairsSelected(selected: seq<SilverEvent>, pairs: seq<SilverEvent>, tpfs: seq<SilverEvent>)
    requires SlotsDistinct(selected) && PairedWith(LightCurves(selected), tpfs, pairs)
    ensures UniqueOf(selected + pairs) == selected
    ensures forall p :: p in pairs ==> p in LightCurves(selected)
  {
    forall p | p in pairs ensures p in LightCurves(selected) && p in selected {
      var i :| 0 <= i < |pairs| && pairs[i] == p;
      PairFacts(LightCurves(selected), tpfs, pairs, i);
      FilterMember(KindIs(LightCurve), selected, p);
    }
    PairedAddNothing(selected, pairs);
  }

  lemma SelectionFacts(events: seq<SilverEvent>)
    ensures var s := Selected(events);
      SlotsDistinct(s) && SourcesDistinct(LightCurves(s)) && |s| == |LightCurves(s)| + |TargetPixels(s)|
  {
    SelectedSlots(events);
    KindSources(LightCurve, Selected(events));
    KindsPartition(Selected(events));
  }

  /** The light curve each target pixel was paired with, and the snapshot planned for them. */
  datatype Planned = Planned(pairs: seq<SilverEvent>, plan: Plan)

  /** The pairing gate and the plan: target pixels paired, no light curve missing, inputs consistent. */
  method PlanPairs(selected: seq<SilverEvent>, catalogs: Catalogs) returns (r: Result<Planned, BuildError>)
    requires selected != [] && SlotsDistinct(selected) && SourcesDistinct(LightCurves(selected))
    ensures var lcs, tpfs, refs := LightCurves(selected), TargetPixels(selected), Map(ToInputRef, selected);
      && (r.Ok? ==>
            && PairedWith(lcs, tpfs, r.value.pairs) && AllPaired(lcs, r.value.pairs)
            && (forall p :: p in r.value.pairs ==> p in lcs) && Consistent(refs)
            && r.value.plan == Plan(IdentityOf(SettingsOf(selected, catalogs), refs), SortInputs(refs), |selected|))
      && (r.Err? ==> ((r.error == UnpairedTargetPixel || r.error == MissingTargetPixel) && !PerfectMatching(lcs, tpfs))
                     || (r.error.PlanRejected? && !Consistent(refs)))
  {
    var lcs, tpfs := LightCurves(selected), TargetPixels(selected);
    var paired := PairTargets(lcs, tpfs);
    if paired.None? {
      return Err(UnpairedTargetPixel);
    }
    var pairs := paired.value;
    var complete := NoneMissing(lcs, pairs);
    if !complete {
      if PerfectMatching(lcs, tpfs) { GateIsPerfectMatching(lcs, tpfs, pairs); }
      return Err(MissingTargetPixel);
    }
    PairsSelected(selected, pairs, tpfs);
    var refs := Map(ToInputRef, UniqueOf(selected + pairs));
    var plan := PlanSnapshot(SettingsOf(selected, catalogs), refs, false);
    if plan.Err? {
      return Err(PlanRejected(plan.error));
    }
    r := Ok(Planned(pairs, plan.value));
  }

  /** Everything up to the first write. */
  method DraftBatch(x: Extractors, events: seq<SilverEvent>, catalogs: Option<Catalogs>, defaultBucket: Id)
    returns (r: Result<Draft, BuildError>)
    ensures r.Ok? ==>
      catalogs.Some? && Buildable(x, events, catalogs.value)
        && Drafted(x, events, catalogs.value, defaultBucket, r.value)
    ensures r.Err? ==> Refused(x, events, catalogs, r.error)
  {
    var selection := SelectEvents(events);
    if selection.Err? {
      return Err(selection.error);
    }
    var selected := selection.value;
    UniqueNonempty(events);
    if selected == [] {
      return Err(NothingSelected);
    }
    SelectionFacts(events);
    var bucket := if selected[0].bucket == EMPTY then defaultBucket else selected[0].bucket;
    if catalogs.None? {
      return Err(NoCatalogs);
    }
    var lcs, tpfs := LightCurves(selected), TargetPixels(selected);
    if lcs == [] {
      return Err(NoLightCurve);
    }
    if TIC !in catalogs.value || TOI !in catalogs.value {
      return Err(MissingCatalog);
    }
    var known := ExtractFeatures(x, lcs);
    if !known {
      return Err(FeatureFailure);
    }
    var planned := PlanPairs(selected, catalogs.value);
    if planned.Err? {
      return Err(planned.error);
    }
    var rows := RowsOfPairs(x, selected, planned.value.pairs);
    if rows.Err? {
      return Err(rows.error);
    }
    RowsAlreadySorted(x, events, rows.value);
    r := Ok(Draft(bucket, planned.value.plan, Sort(RowLeq, rows.value)));
  }

  lemma PairFailure(x: Extractors, lcs: seq<SilverEvent>, tpfs: seq<SilverEvent>, pairs: seq<SilverEvent>)
    requires PairedWith(lcs, tpfs, pairs) && (forall p :: p in pairs ==> p in lcs)
    requires exists i :: PairFails(x, tpfs, pairs, i)
    ensures EvidenceFails(x, lcs, tpfs)
  {
    var i :| PairFails(x, tpfs, pairs, i);
    PairFacts(lcs, tpfs, pairs, i);
    assert pairs[i] in pairs && tpfs[i] in tpfs && Shares(tpfs[i], pairs[i]);
  }

  /** Evidence first, then the rows: this is where a light curve served twice is found. */
  method RowsOfPairs(x: Extractors, selected: seq<SilverEvent>, pairs: seq<SilverEvent>)
    returns (r: Result<seq<Row>, BuildError>)
    requires SourcesDistinct(LightCurves(selected)) && FeaturesKnown(x, LightCurves(selected))
    requires PairedWith(LightCurves(selected), TargetPixels(selected), pairs) && AllPaired(LightCurves(selected), pairs)
    requires forall p :: p in pairs ==> p in LightCurves(selected)
    ensures var lcs, tpfs := LightCurves(selected), TargetPixels(selected);
      && (r.Ok? ==> PerfectMatching(lcs, tpfs) && |lcs| == |tpfs| && Pairwise(RowsFor(x, tpfs), lcs, r.value))
      && (r.Err? ==>
            (r.error == FeatureFailure && EvidenceFails(x, lcs, tpfs))
              || (r.error == AmbiguousTargetPixel && !PerfectMatching(lcs, tpfs)))
  {
    var lcs, tpfs := LightCurves(selected), TargetPixels(selected);
    GateIsPerfectMatching(lcs, tpfs, pairs);
    var found := CollectEvidence(x, tpfs, pairs);
    if found.Err? {
      if found.error == FeatureFailure { PairFailure(x, lcs, tpfs, pairs); }
      return Err(found.error);
    }
    MatchingCounts(lcs, tpfs, pairs);
    var rows := AssembleRows(x, lcs, tpfs, pairs, found.value);
    r := Ok(rows);
  }

  // ---- Publication ------------------------------------------------------

  /** No byte under gold/snapshots/ has changed or gone. */
  predicate SnapshotsKept(before: Objects, after: Objects)
  {
    forall l :: l in before && l.key != CurrentKey ==> l in after && after[l] == before[l]
  }

  function ManifestLocation(d: Draft): Location { Location(d.bucket, ManifestKey(d.plan.identity)) }

  function RecordRows(r: PartRecord): nat { r.rowCount }

  /** The manifest of a draft: committed, research ready, counting the rows and listing every data file. */
  function ManifestFor(d: Draft, createdAt: int): Manifest
  {
    Manifest(d.plan.identity, d.plan.inputs, d.plan.inputCount, |d.rows|,
             Map(RecordOf(d.bucket, d.plan.identity), Partitions(d.rows)), createdAt, true, true)
  }

  /** The manifest is stored, counts the rows of the draft, and every data file it lists is stored. */
  ghost predicate Committed(objects: Objects, d: Draft, createdAt: int, m: Manifest)
  {
    && m == ManifestFor(d, createdAt) && Stored(objects, ManifestLocation(d), ManifestBytes(m))
    && (forall i :: 0 <= i < |Partitions(d.rows)| ==>
          Stored(objects, PartLocation(d.bucket, d.plan.identity, Partitions(d.rows)[i]),
                 PartBytes(Partitions(d.rows)[i].rows)))
  }

  /** The manifest of a batch: paired one to one, one row per light curve, both inputs of every row listed. */
  ghost predicate Describes(x: Extractors, events: seq<SilverEvent>, catalogs: Catalogs, home: Id, createdAt: int,
                            d: Draft, m: Manifest)
  {
    var lcs, tpfs := LightCurves(Selected(events)), TargetPixels(Selected(events));
    && Buildable(x, events, catalogs) && Drafted(x, events, catalogs, home, d) && m == ManifestFor(d, createdAt)
    && m.rowCount == |lcs| == |tpfs| && m.inputCount == |m.inputs| == 2 * m.rowCount
    && multiset(m.inputs) == multiset(Refs(events))
  }

  /** A built batch: its manifest and every data file are stored. */
  ghost predicate Built(x: Extractors, events: seq<SilverEvent>, catalogs: Catalogs, home: Id, objects: Objects,
                        createdAt: int, m: Manifest)
  {
    exists d :: Describes(x, events, catalogs, home, createdAt, d, m) && Committed(objects, d, createdAt, m)
  }

  /** The keys of a snapshot are taken, if perhaps by another build of it. */
  predicate Present(objects: Objects, d: Draft)
  {
    && ManifestLocation(d) in objects
    && forall i :: 0 <= i < |Partitions(d.rows)| ==>
      PartLocation(d.bucket, d.plan.identity, Partitions(d.rows)[i]) in objects
  }

  /** The same with others at work: the keys are taken, and what was put last is still there. */
  ghost predicate BuiltAmong(x: Extractors, events: seq<SilverEvent>, catalogs: Catalogs, home: Id, setCurrent: bool,
                             objects: Objects, createdAt: int, m: Manifest)
  {
    exists d :: Describes(x, events, catalogs, home, createdAt, d, m) && HeldAmong(objects, d, setCurrent, m)
  }

  predicate HeldAmong(objects: Objects, d: Draft, setCurrent: bool, m: Manifest)
  {
    Present(objects, d) && (!setCurrent ==> Stored(objects, ManifestLocation(d), ManifestBytes(m)))
  }

  lemma DraftDescribes(x: Extractors, events: seq<SilverEvent>, catalogs: Catalogs, home: Id, createdAt: int, d: Draft)
    requires Buildable(x, events, catalogs) && Drafted(x, events, catalogs, home, d)
    ensures Describes(x, events, catalogs, home, createdAt, d, ManifestFor(d, createdAt))
  {
    SelectionFacts(events);
    assert |Refs(events)| == |Selected(events)|;
  }

  lemma {:induction false} RecordTotals(bucket: Id, identity: Identity, parts: seq<Partition>)
    ensures Total(RecordRows, Map(RecordOf(bucket, identity), parts)) == Total(RowCount, parts)
  {
    if parts != [] {
      var n := |parts| - 1;
      RecordTotals(bucket, identity, parts[..n]);
      MapSnoc(RecordOf(bucket, identity), parts, n);
      assert parts[..n + 1] == parts;
      TotalSnoc(RecordRows, Map(RecordOf(bucket, identity), parts[..n]), RecordOf(bucket, identity)(parts[n]));
    }
  }

  /** The recorded row counts add up to the rows. */
  lemma RecordsConserve(bucket: Id, identity: Identity, rows: seq<Row>)
    ensures Total(RecordRows, Map(RecordOf(bucket, identity), Partitions(rows))) == |rows|
  {
    RecordTotals(bucket, identity, Partitions(rows));
    PartitionsConserve(rows);
  }

  lemma CommitKeeps(before: Objects, written: Objects, after: Objects, d: Draft, m: Manifest)
    requires OnlyPartsAdded(before, written, d.bucket, d.plan.identity)
    requires written == AfterParts(before, d.bucket, d.plan.identity, Partitions(d.rows))
    requires !Clashes(written, ManifestLocation(d), ManifestBytes(m))
    requires after == written[ManifestLocation(d) := ManifestBytes(m)] ||
      after == written[ManifestLocation(d) := ManifestBytes(m)]
                      [Location(d.bucket, CurrentKey) := PointerBytes(d.plan.identity)]
    ensures SnapshotsKept(before, after) && Stored(after, ManifestLocation(d), ManifestBytes(m))
    ensures forall i :: 0 <= i < |Partitions(d.rows)| ==>
      Stored(after, PartLocation(d.bucket, d.plan.identity, Partitions(d.rows)[i]),
             PartBytes(Partitions(d.rows)[i].rows))
  {
    var parts := Partitions(d.rows);
    PartitionSectorsDiffer(d.rows);
    assert parts[..|parts|] == parts;
    forall i | 0 <= i < |parts|
      ensures Stored(after, PartLocation(d.bucket, d.plan.identity, parts[i]), PartBytes(parts[i].rows))
    {
      PartsStored(before, d.bucket, d.plan.identity, parts, |parts|, i);
    }
  }

  // ---- The Gold store object --------------------------------------------

  /**
   What happens around a build: nothing, or what others do to the store before its n-th access and how many
   accesses it lives to make.
   */
  datatype Around = Alone | Among(others: (nat, Objects) -> Objects, life: nat)

  /** Others may put what they like, but delete nothing (`GoldRuns.RunInv`). */
  ghost predicate Benign(a: Around) { a.Among? ==> forall n, s :: NoneGone(s, a.others(n, s)) }

  datatype Written<T> = Died | Conflict | Done(value: T)

  datatype Outcome = Lost | Returned(result: Result<Manifest, BuildError>)

  /** A key of the draft's snapshot holds other bytes. */
  ghost predicate Blocked(objects: Objects, d: Draft, createdAt: int)
  {
    || Clashes(objects, ManifestLocation(d), ManifestBytes(ManifestFor(d, createdAt)))
    || exists p :: p in Partitions(d.rows)
                   && Clashes(objects, PartLocation(d.bucket, d.plan.identity, p), PartBytes(p.rows))
  }

  /** No key has gone, and every snapshot key put since was free before. */
  predicate PutsOnlyFree(before: Objects, after: Objects, was: set<Location>, now: set<Location>)
  {
    NoneGone(before, after) && was <= now && forall l :: l in now && l !in was ==> l !in before
  }

  /** None of the first `n` data files finds other bytes under its key. */
  predicate NoneClash(objects: Objects, bucket: Id, identity: Identity, parts: seq<Partition>, n: nat)
    requires n <= |parts|
  {
    forall i :: 0 <= i < n ==> !Clashes(objects, PartLocation(bucket, identity, parts[i]), PartBytes(parts[i].rows))
  }

  lemma PutsCompose(a: Objects, b: Objects, c: Objects, p: set<Location>, q: set<Location>, r: set<Location>)
    requires PutsOnlyFree(a, b, p, q) && PutsOnlyFree(b, c, q, r)
    ensures PutsOnlyFree(a, c, p, r)
  {}

  /** Data files written by a build nobody disturbs. */
  ghost predicate PartsAlone(before: Objects, after: Objects, bucket: Id, identity: Identity, parts: seq<Partition>,
                             r: Written<seq<PartRecord>>)
  {
    && !r.Died? && OnlyPartsAdded(before, after, bucket, identity)
    && (r.Done? ==> after == AfterParts(before, bucket, identity, parts))
    && (r.Conflict? <==>
          exists p :: p in parts && Clashes(before, PartLocation(bucket, identity, p), PartBytes(p.rows)))
  }

  /** No key of the batch's snapshot holds other bytes. */
  ghost predicate DraftFree(x: Extractors, events: seq<SilverEvent>, catalogs: Catalogs, home: Id, objects: Objects,
                            createdAt: int)
  {
    exists d :: Drafted(x, events, catalogs, home, d) && !Blocked(objects, d, createdAt)
  }

  lemma DraftFreeMeans(x: Extractors, events: seq<SilverEvent>, catalogs: Catalogs, home: Id, objects: Objects,
                       createdAt: int, d: Draft)
    requires Buildable(x, events, catalogs) && Drafted(x, events, catalogs, home, d)
    ensures DraftFree(x, events, catalogs, home, objects, createdAt) <==> !Blocked(objects, d, createdAt)
  {
    if DraftFree(x, events, catalogs, home, objects, createdAt) {
      var e :| Drafted(x, events, catalogs, home, e) && !Blocked(objects, e, createdAt);
      DraftIsUnique(x, events, catalogs, home, d, e);
    }
  }

  /** A publication nobody disturbs: no byte under gold/snapshots/ changes, and a conflict adds no manifest. */
  ghost predicate PublishedAlone(before: Objects, after: Objects, d: Draft, createdAt: int, r: Written<Manifest>)
  {
    && !r.Died? && SnapshotsKept(before, after)
    && (r.Done? ==> Committed(after, d, createdAt, r.value))
    && (r.Conflict? <==> Blocked(before, d, createdAt))
    && (r.Conflict? ==> OnlyPartsAdded(before, after, d.bucket, d.plan.identity))
  }

  /** Of the keys new since `before`, but pointers, all were put by builds of this object. */
  predicate Accounted(before: Objects, after: Objects, puts: set<Location>)
  {
    forall l :: l in after && l !in before && l.key != CurrentKey ==> l in puts
  }

  predicate SameAt(before: Objects, after: Objects, l: Location)
  {
    (l in before <==> l in after) && (l in before ==> after[l] == before[l])
  }

  ghost predicate PointersKept(before: Objects, after: Objects)
  {
    forall l :: (l in before || l in after) && l.key == CurrentKey ==> SameAt(before, after, l)
  }

  /** The pointer of the bucket names the snapshot if it was set, and no other pointer changed. */
  ghost predicate PointerSet(before: Objects, after: Objects, bucket: Id, identity: Identity, isSet: bool)
  {
    if isSet then
      && Stored(after, Location(bucket, CurrentKey), PointerBytes(identity))
      && forall l :: (l in before || l in after) && l.key == CurrentKey && l.bucket != bucket ==>
        SameAt(before, after, l)
    else PointersKept(before, after)
  }

  /** What a build nobody disturbs leaves behind it until it sets the pointer. */
  ghost predicate Traced(before: Objects, after: Objects, puts: set<Location>)
  {
    Accounted(before, after, puts) && PointersKept(before, after)
  }

  lemma TracedStep(a: Objects, b: Objects, c: Objects, q: set<Location>, r: set<Location>, l: Location, data: Blob)
    requires Traced(a, b, q) && q <= r && (c == b || c == b[l := data]) && l.key != CurrentKey
    requires c == b || l in b || l in r
    ensures Traced(a, c, r)
  {
    forall k | (k in a || k in c) && k.key == CurrentKey ensures SameAt(a, c, k) {
      assert k in a || k in b;
      assert SameAt(a, b, k);
    }
  }

  class GoldStore {
    var objects: Objects
    var accesses: nat
    // The snapshot keys put by builds of this object, as opposed to others.
    ghost var puts: set<Location>

    constructor ()
      ensures objects == map[] && accesses == 0 && puts == {}
    {
      objects, accesses, puts := map[], 0, {};
    }

    /** Others run before an access to the store; the process may not live to make it. */
    method Await(a: Around) returns (alive: bool)
      requires Benign(a)
      modifies this`objects, this`accesses
      ensures NoneGone(old(objects), objects) && accesses == old(accesses) + 1
      ensures a.Alone? ==> alive && objects == old(objects)
      ensures !a.Alone? ==> objects == a.others(accesses, old(objects)) && (alive <==> accesses <= a.life)
    {
      accesses := accesses + 1;
      if a.Alone? {
        return true;
      }
      objects := a.others(accesses, objects);
      alive := accesses <= a.life;
    }

    /**
     Store bytes once: an equal object is left alone, a different one is a conflict. The read and the put are two
     accesses, and what others do between them is not seen.
     */
    method PutImmutable(l: Location, data: Blob, a: Around) returns (r: Written<Blob>)
      requires Benign(a)
      modifies this
      ensures PutsOnlyFree(old(objects), objects, old(puts), puts) && puts <= old(puts) + {l}
      ensures r.Done? ==> r.value == data && Stored(objects, l, data)
      ensures r.Conflict? ==> Clashes(objects, l, data)
      ensures a.Alone? ==> !r.Died? && (r.Done? <==> !Clashes(old(objects), l, data))
      ensures a.Alone? ==> objects == if r.Done? then old(objects)[l := data] else old(objects)
      ensures a.Alone? && r.Done? && l !in old(objects) ==> l in puts
      ensures old(accesses) < accesses <= old(accesses) + 2
      ensures l in puts && l !in old(puts) ==> accesses == old(accesses) + 2
    {
      var alive := Await(a);
      if !alive {
        return Died;
      }
      if l in objects {
        return if objects[l] == data then Done(data) else Conflict;
      }
      alive := Await(a);
      if !alive {
        return Died;
      }
      objects, puts := objects[l := data], puts + {l};
      r := Done(data);
    }

    /** Write the data files one after the other; a conflict stops the build. */
    method WriteParts(bucket: Id, identity: Identity, parts: seq<Partition>, a: Around)
      returns (r: Written<seq<PartRecord>>)
      requires SectorsDiffer(parts) && Benign(a)
      modifies this
      ensures PutsOnlyFree(old(objects), objects, old(puts), puts)
      ensures r.Done? ==> r.value == Map(RecordOf(bucket, identity), parts)
      ensures r.Done? ==> forall i :: 0 <= i < |parts| ==> PartLocation(bucket, identity, parts[i]) in objects
      ensures a.Alone? ==> PartsAlone(old(objects), objects, bucket, identity, parts, r)
      ensures a.Alone? ==> Traced(old(objects), objects, puts)
    {
      var records: seq<PartRecord> := [];
      for n := 0 to |parts|
        invariant PutsOnlyFree(old(objects), objects, old(puts), puts)
        invariant forall i :: 0 <= i < n ==> PartLocation(bucket, identity, parts[i]) in objects
        invariant a.Alone? ==> objects == AfterParts(old(objects), bucket, identity, parts[..n])
        invariant a.Alone? ==> OnlyPartsAdded(old(objects), objects, bucket, identity)
        invariant a.Alone? ==> NoneClash(old(objects), bucket, identity, parts, n)
        invariant records == Map(RecordOf(bucket, identity), parts[..n])
        invariant a.Alone? ==> Traced(old(objects), objects, puts)
      {
        ghost var before, was := objects, puts;
        var put := PutImmutable(PartLocation(bucket, identity, parts[n]), PartBytes(parts[n].rows), a);
        PutsCompose(old(objects), before, objects, old(puts), was, puts);
        if a.Alone? {
          TracedStep(old(objects), before, objects, was, puts, PartLocation(bucket, identity, parts[n]),
                     PartBytes(parts[n].rows));
        }
        NotWrittenYet(old(objects), bucket, identity, parts, n);
        if !put.Done? {
          assert parts[n] in parts;
          return if put.Died? then Died else Conflict;
        }
        if a.Alone? { PartAdded(old(objects), before, bucket, identity, parts[n]); }
        AfterPartsSnoc(old(objects), bucket, identity, parts, n);
        MapSnoc(RecordOf(bucket, identity), parts, n);
        records := records + [PartRecord(parts[n].sector, PartLocation(bucket, identity, parts[n]), |parts[n].rows|)];
      }
      assert parts[..|parts|] == parts;
      r := Done(records);
    }

    /** Write one data file per sector, in sector order. */
    method WriteDataset(bucket: Id, identity: Identity, rows: seq<Row>, a: Around) returns (r: Written<seq<PartRecord>>)
      requires Benign(a)
      modifies this
      ensures PutsOnlyFree(old(objects), objects, old(puts), puts)
      ensures r.Done? ==> r.value == Map(RecordOf(bucket, identity), Partitions(rows))
      ensures r.Done? ==>
        forall i :: 0 <= i < |Partitions(rows)| ==> PartLocation(bucket, identity, Partitions(rows)[i]) in objects
      ensures a.Alone? ==> PartsAlone(old(objects), objects, bucket, identity, Partitions(rows), r)
      ensures a.Alone? ==> Traced(old(objects), objects, puts)
    {
      var groups := GroupRows(rows);
      PartitionSectorsDiffer(rows);
      r := WriteParts(bucket, identity, Sort(SectorLeq, groups), a);
    }

    /** Write the data files, then the manifest that commits them. */
    method Commit(d: Draft, createdAt: int, a: Around) returns (r: Written<Manifest>)
      requires Benign(a)
      modifies this
      ensures PutsOnlyFree(old(objects), objects, old(puts), puts)
      ensures r.Done? ==> r.value == ManifestFor(d, createdAt) && Present(objects, d)
      ensures r.Done? ==> Stored(objects, ManifestLocation(d), ManifestBytes(r.value))
      ensures a.Alone? ==> PublishedAlone(old(objects), objects, d, createdAt, r)
      ensures a.Alone? ==> Traced(old(objects), objects, puts)
    {
      var records := WriteDataset(d.bucket, d.plan.identity, d.rows, a);
      if !records.Done? {
        return if records.Died? then Died else Conflict;
      }
      RecordsConserve(d.bucket, d.plan.identity, d.rows);
      var manifest := Manifest(d.plan.identity, d.plan.inputs, d.plan.inputCount, Total(RecordRows, records.value),
                               records.value, createdAt, true, true);
      ghost var written, was := objects, puts;
      var put := PutImmutable(ManifestLocation(d), ManifestBytes(manifest), a);
      PutsCompose(old(objects), written, objects, old(puts), was, puts);
      if a.Alone? {
        TracedStep(old(objects), written, objects, was, puts, ManifestLocation(d), ManifestBytes(manifest));
      }
      if !put.Done? {
        return if put.Died? then Died else Conflict;
      }
      if a.Alone? { CommitKeeps(old(objects), written, objects, d, manifest); }
      r := Done(manifest);
    }

    /** Commit, then point at the snapshot if asked to. */
    method Publish(d: Draft, setCurrent: bool, createdAt: int, a: Around) returns (r: Written<Manifest>)
      requires Benign(a)
      modifies this
      ensures PutsOnlyFree(old(objects), objects, old(puts), puts)
      ensures r.Done? ==> r.value == ManifestFor(d, createdAt) && Present(objects, d)
      ensures r.Done? && !setCurrent ==> Stored(objects, ManifestLocation(d), ManifestBytes(r.value))
      ensures a.Alone? ==> PublishedAlone(old(objects), objects, d, createdAt, r)
      ensures a.Alone? ==> Accounted(old(objects), objects, puts)
      ensures a.Alone? ==>
        PointerSet(old(objects), objects, d.bucket, d.plan.identity, r.Done? && setCurrent && d.rows != [])
    {
      r := Commit(d, createdAt, a);
      if r.Done? && setCurrent && d.rows != [] {
        var alive := Await(a);
        if !alive {
          return Died;
        }
        objects := objects[Location(d.bucket, CurrentKey) := PointerBytes(d.plan.identity)];
      }
    }

    /**
     Build one snapshot. If it returns, light curves and target pixels were paired one to one, the data files
     hold one row per light curve, and the manifest lists both inputs of every row. With others at work it puts no
     key that was taken when it began; undisturbed, no byte under gold/snapshots/ changes, whatever the outcome,
     and a refused batch has added no manifest.
     */
    method BuildCandidate(x: Extractors, events: seq<SilverEvent>, catalogs: Option<Catalogs>, defaultBucket: Id,
                          setCurrent: bool, createdAt: int, a: Around)
      returns (r: Outcome)
      requires Benign(a)
      modifies this
      ensures PutsOnlyFree(old(objects), objects, old(puts), puts)
      ensures r.Returned? && r.result.Ok? ==>
        catalogs.Some? && BuiltAmong(x, events, catalogs.value, defaultBucket, setCurrent, objects, createdAt,
                                     r.result.value)
      ensures r.Returned? && r.result.Err? && r.result.error != ImmutableConflict ==>
        objects == old(objects) && Refused(x, events, catalogs, r.result.error)
      ensures r.Returned? && r.result == Err(ImmutableConflict) ==> Complete(x, events, catalogs)
      ensures a.Alone? ==> r.Returned? && SnapshotsKept(old(objects), objects) && Accounted(old(objects), objects, puts)
      ensures a.Alone? && r.result.Ok? ==>
        PointerSet(old(objects), objects, SnapshotBucket(defaultBucket, Selected(events)), r.result.value.identity,
                   setCurrent)
      ensures a.Alone? && r.result.Err? ==> PointersKept(old(objects), objects)
      ensures a.Alone? && r.result.Ok? ==>
        Built(x, events, catalogs.value, defaultBucket, objects, createdAt, r.result.value)
      ensures a.Alone? && r.result.Err? ==> forall l :: l in objects && l !in old(objects) ==> l.key.PartKey?
      ensures a.Alone? ==>
        (r.result.Ok? <==>
          Complete(x, events, catalogs) && DraftFree(x, events, catalogs.value, defaultBucket, old(objects), createdAt))
    {
      var draft := DraftBatch(x, events, catalogs, defaultBucket);
      if draft.Err? {
        RefusedIsIncomplete(x, events, catalogs, draft.error);
        return Returned(Err(draft.error));
      }
      DraftedIsComplete(x, events, catalogs.value, defaultBucket, draft.value);
      DraftFreeMeans(x, events, catalogs.value, defaultBucket, objects, createdAt, draft.value);
      var written := Publish(draft.value, setCurrent, createdAt, a);
      if !written.Done? {
        return if written.Died? then Lost else Returned(Err(ImmutableConflict));
      }
      DraftDescribes(x, events, catalogs.value, defaultBucket, createdAt, draft.value);
      r := Returned(Ok(written.value));
    }
  }
}
