/**
 Building one Gold candidate snapshot from Silver pairs
 (apps/python-enrichment/pipeline/materializer.py): selection, the pairing gate,
 and immutable publication. Feature extraction is a parameter: an arbitrary
 function that may fail.
 */
module Materializer {
  import opened Wrappers
  import opened Orders
  import opened Sequences
  import opened Events
  import opened SnapshotIdentity

  // ---- Selection --------------------------------------------------------

  predicate SameSlot(a: SilverEvent, b: SilverEvent)
  {
    a.kind == b.kind && a.sourceProductId == b.sourceProductId
  }

  /** Assign into the `unique` dictionary: a known product is replaced where it stands. */
  function PutUnique(d: seq<SilverEvent>, e: SilverEvent): seq<SilverEvent>
  {
    if d == [] then [e]
    else if SameSlot(d[0], e) then [e] + d[1..]
    else [d[0]] + PutUnique(d[1..], e)
  }

  function UniqueOf(events: seq<SilverEvent>): seq<SilverEvent>
  {
    if events == [] then [] else PutUnique(UniqueOf(events[..|events| - 1]), events[|events| - 1])
  }

  function Find(d: seq<SilverEvent>, e: SilverEvent): Option<SilverEvent>
  {
    if d == [] then None else if SameSlot(d[0], e) then Some(d[0]) else Find(d[1..], e)
  }

  predicate SlotsDistinct(d: seq<SilverEvent>)
  {
    forall i, j :: 0 <= i < j < |d| ==> !SameSlot(d[i], d[j])
  }

  lemma {:induction false} PutUniqueFacts(d: seq<SilverEvent>, e: SilverEvent)
    requires SlotsDistinct(d)
    ensures SlotsDistinct(PutUnique(d, e))
    ensures e in PutUnique(d, e)
    ensures forall x :: x in PutUnique(d, e) ==> x == e || (x in d && !SameSlot(x, e))
    ensures forall x :: x in d && !SameSlot(x, e) ==> x in PutUnique(d, e)
  {
    if d != [] {
      assert d == [d[0]] + d[1..];
      if !SameSlot(d[0], e) {
        PutUniqueFacts(d[1..], e);
        var rest := PutUnique(d[1..], e);
        forall j | 0 <= j < |rest| ensures !SameSlot(d[0], rest[j]) {
          assert rest[j] in rest;
        }
      }
    }
  }

  /** The events that survive: one per product. */
  lemma {:induction false} UniqueSlots(events: seq<SilverEvent>)
    ensures SlotsDistinct(UniqueOf(events))
  {
    if events != [] {
      UniqueSlots(events[..|events| - 1]);
      PutUniqueFacts(UniqueOf(events[..|events| - 1]), events[|events| - 1]);
    }
  }

  lemma {:induction false} UniqueAmong(events: seq<SilverEvent>, x: SilverEvent)
    requires x in UniqueOf(events)
    ensures x in events
  {
    var n := |events| - 1;
    UniqueSlots(events[..n]);
    PutUniqueFacts(UniqueOf(events[..n]), events[n]);
    if x != events[n] {
      UniqueAmong(events[..n], x);
    }
  }

  lemma {:induction false} UniqueRepresents(events: seq<SilverEvent>, e: SilverEvent) returns (u: SilverEvent)
    requires e in events
    ensures u in UniqueOf(events) && SameSlot(u, e)
  {
    var n := |events| - 1;
    UniqueSlots(events[..n]);
    PutUniqueFacts(UniqueOf(events[..n]), events[n]);
    if SameSlot(events[n], e) {
      u := events[n];
    } else {
      assert e in events[..n] by { assert events == events[..n] + [events[n]]; }
      u := UniqueRepresents(events[..n], e);
    }
  }

  /** All events naming a product carry the same bytes. */
  predicate NoConflict(events: seq<SilverEvent>)
  {
    forall i, j :: 0 <= i < j < |events| && SameSlot(events[i], events[j]) ==> events[i].sha256 == events[j].sha256
  }

  lemma {:induction false} FindMeans(d: seq<SilverEvent>, e: SilverEvent)
    ensures match Find(d, e)
      case None => forall x :: x in d ==> !SameSlot(x, e)
      case Some(x) => x in d && SameSlot(x, e)
  {
    if d != [] && !SameSlot(d[0], e) {
      FindMeans(d[1..], e);
      assert d == [d[0]] + d[1..];
    }
  }

  predicate SourceLeq(a: SilverEvent, b: SilverEvent) { TextLeq(a.sourceProductId, b.sourceProductId) }

  function Selected(events: seq<SilverEvent>): seq<SilverEvent> { Sort(SourceLeq, UniqueOf(events)) }

  function KindIs(k: Kind): SilverEvent -> bool { (e: SilverEvent) => e.kind == k }

  function LightCurves(selected: seq<SilverEvent>): seq<SilverEvent> { Filter(KindIs(LightCurve), selected) }

  function TargetPixels(selected: seq<SilverEvent>): seq<SilverEvent> { Filter(KindIs(TargetPixel), selected) }

  lemma SelectedMembers(events: seq<SilverEvent>, x: SilverEvent)
    ensures x in Selected(events) <==> x in UniqueOf(events)
  {
    SameElements(Selected(events), UniqueOf(events), x);
  }

  lemma SameBytes(events: seq<SilverEvent>, u: SilverEvent, e: SilverEvent)
    requires NoConflict(events) && u in events && e in events && SameSlot(u, e)
    ensures ArtifactOf(u) == ArtifactOf(e)
  {}

  /** Every event of a batch without conflicts is represented by a selected event of the same artifact. */
  lemma SelectedCovers(events: seq<SilverEvent>, e: SilverEvent) returns (u: SilverEvent)
    requires NoConflict(events) && e in events
    ensures u in Selected(events) && u in events && ArtifactOf(u) == ArtifactOf(e)
  {
    u := UniqueRepresents(events, e);
    UniqueAmong(events, u);
    SelectedMembers(events, u);
    SameBytes(events, u, e);
  }

  datatype BuildError =
    | ConflictingArtifacts | NothingSelected | NoCatalogs | NoLightCurve | MissingCatalog | FeatureFailure
    | UnpairedTargetPixel | MissingTargetPixel | PlanRejected(reason: PlanError) | AmbiguousTargetPixel
    | ImmutableConflict

  /** Deduplicate by product, refusing two artifacts of one product. */
  method SelectEvents(events: seq<SilverEvent>) returns (r: Result<seq<SilverEvent>, BuildError>)
    ensures r.Ok? <==> NoConflict(events)
    ensures r.Ok? ==> r.value == Selected(events)
    ensures r.Err? ==> r.error == ConflictingArtifacts
  {
    var unique: seq<SilverEvent> := [];
    for n := 0 to |events|
      invariant unique == UniqueOf(events[..n])
      invariant NoConflict(events[..n])
    {
      assert events[..n + 1][..n] == events[..n];
      var previous := Find(unique, events[n]);
      FindMeans(unique, events[n]);
      ConflictCheck(events, n);
      if previous.Some? && previous.value.sha256 != events[n].sha256 {
        return Err(ConflictingArtifacts);
      }
      unique := PutUnique(unique, events[n]);
    }
    assert events[..|events|] == events;
    r := Ok(Sort(SourceLeq, unique));
  }

  lemma {:induction false} NoConflictSnoc(events: seq<SilverEvent>, e: SilverEvent)
    ensures NoConflict(events + [e]) <==>
      NoConflict(events) && forall x :: x in events && SameSlot(x, e) ==> x.sha256 == e.sha256
  {
    var all := events + [e];
    if NoConflict(all) {
      forall i, j | 0 <= i < j < |events| && SameSlot(events[i], events[j])
        ensures events[i].sha256 == events[j].sha256
      {
        assert all[i] == events[i] && all[j] == events[j];
      }
      forall x | x in events && SameSlot(x, e) ensures x.sha256 == e.sha256 {
        var i :| 0 <= i < |events| && events[i] == x;
        assert all[i] == x && all[|events|] == e;
      }
    }
  }

  lemma NoConflictPrefix(events: seq<SilverEvent>, n: nat)
    requires n <= |events| && NoConflict(events)
    ensures NoConflict(events[..n])
  {}

  /** Comparing with the one remembered event of the product compares with all of them. */
  lemma ConflictCheck(events: seq<SilverEvent>, n: nat)
    requires n < |events| && NoConflict(events[..n])
    ensures var previous := Find(UniqueOf(events[..n]), events[n]);
      (previous.Some? && previous.value.sha256 != events[n].sha256) <==> !NoConflict(events[..n + 1])
    ensures !NoConflict(events[..n + 1]) ==> !NoConflict(events)
  {
    var before, e := events[..n], events[n];
    assert events[..n + 1] == before + [e];
    NoConflictSnoc(before, e);
    FindMeans(UniqueOf(before), e);
    var previous := Find(UniqueOf(before), e);
    if previous.Some? {
      UniqueAmong(before, previous.value);
    }
    forall x | x in before && SameSlot(x, e) ensures previous.Some? && x.sha256 == previous.value.sha256 {
      var u := UniqueRepresents(before, x);
      assert SameSlot(u, e);
      SameBytes(before, previous.value, x);
    }
    if NoConflict(events) {
      NoConflictPrefix(events, n + 1);
    }
  }

  // ---- Pairing ----------------------------------------------------------

  datatype PairKey = BySample(sample: Sample) | ByTarget(tic: int, sector: int)

  function EventKeys(e: SilverEvent): seq<PairKey>
  {
    (if EffectiveSampleId(e).Some? then [BySample(EffectiveSampleId(e).value)] else []) +
    (if e.ticId.Some? then [ByTarget(e.ticId.value, e.sector)] else [])
  }

  /** Two artifacts belong together when they have a key in common. */
  predicate Shares(a: SilverEvent, b: SilverEvent)
  {
    exists k :: k in EventKeys(a) && k in EventKeys(b)
  }

  ghost predicate ExactlyOne(e: SilverEvent, others: seq<SilverEvent>)
  {
    exists i :: 0 <= i < |others| && Shares(e, others[i]) && forall j :: 0 <= j < |others| && Shares(e, others[j]) ==>
      j == i
  }

  /** The relation "have a key in common" pairs the light curves and the target pixels off. */
  ghost predicate PerfectMatching(lcs: seq<SilverEvent>, tpfs: seq<SilverEvent>)
  {
    && (forall t :: t in tpfs ==> ExactlyOne(t, lcs))
    && (forall l :: l in lcs ==> ExactlyOne(l, tpfs))
  }

  predicate SourcesDistinct(events: seq<SilverEvent>)
  {
    forall i, j :: 0 <= i < j < |events| ==> events[i].sourceProductId != events[j].sourceProductId
  }

  type Index = map<PairKey, seq<SilverEvent>>

  function Lookup(m: Index, k: PairKey): seq<SilverEvent> { if k in m then m[k] else [] }

  function HasKey(k: PairKey): SilverEvent -> bool { (e: SilverEvent) => k in EventKeys(e) }

  function AddUnder(m: Index, keys: seq<PairKey>, e: SilverEvent): Index
  {
    if keys == [] then m
    else
      var n := |keys| - 1;
      var before := AddUnder(m, keys[..n], e);
      before[keys[n] := Lookup(before, keys[n]) + [e]]
  }

  lemma {:induction false} AddUnderMeans(m: Index, keys: seq<PairKey>, e: SilverEvent, k: PairKey)
    requires Distinct(keys)
    ensures Lookup(AddUnder(m, keys, e), k) == Lookup(m, k) + if k in keys then [e] else []
  {
    if keys != [] {
      var n := |keys| - 1;
      AddUnderMeans(m, keys[..n], e, k);
      assert keys == keys[..n] + [keys[n]];
    }
  }

  function IndexOf(lcs: seq<SilverEvent>): Index
  {
    if lcs == [] then map[] else AddUnder(IndexOf(lcs[..|lcs| - 1]), EventKeys(lcs[|lcs| - 1]), lcs[|lcs| - 1])
  }

  lemma {:induction false} IndexMeans(lcs: seq<SilverEvent>, k: PairKey)
    ensures Lookup(IndexOf(lcs), k) == Filter(HasKey(k), lcs)
  {
    if lcs != [] {
      var n := |lcs| - 1;
      IndexMeans(lcs[..n], k);
      AddUnderMeans(IndexOf(lcs[..n]), EventKeys(lcs[n]), lcs[n], k);
    }
  }

  /** File the light curves under each of their keys. */
  method IndexLightCurves(lcs: seq<SilverEvent>) returns (index: Index)
    ensures index == IndexOf(lcs)
  {
    index := map[];
    for n := 0 to |lcs|
      invariant index == IndexOf(lcs[..n])
    {
      ghost var before := index;
      var keys := EventKeys(lcs[n]);
      for m := 0 to |keys|
        invariant index == AddUnder(before, keys[..m], lcs[n])
      {
        assert keys[..m + 1][..m] == keys[..m];
        index := index[keys[m] := Lookup(index, keys[m]) + [lcs[n]]];
      }
      assert keys[..|keys|] == keys;
      assert lcs[..n + 1][..n] == lcs[..n];
    }
    assert lcs[..|lcs|] == lcs;
  }

  type Candidates = map<Id, SilverEvent>

  /** Remember each light curve of a list under its product. */
  function Gather(m: Candidates, found: seq<SilverEvent>): Candidates
  {
    if found == [] then m
    else Gather(m, found[..|found| - 1])[found[|found| - 1].sourceProductId := found[|found| - 1]]
  }

  lemma {:induction false} GatherMeans(m: Candidates, found: seq<SilverEvent>, s: Id)
    ensures s in Gather(m, found) <==> s in m || exists e :: e in found && e.sourceProductId == s
    ensures s in Gather(m, found) ==>
      (s in m && Gather(m, found)[s] == m[s])
        || (Gather(m, found)[s] in found && Gather(m, found)[s].sourceProductId == s)
  {
    if found != [] {
      var n := |found| - 1;
      assert found == found[..n] + [found[n]];
      GatherMeans(m, found[..n], s);
      if s == found[n].sourceProductId {
        assert found[n] in found;
      } else if e :| e in found[..n] && e.sourceProductId == s {
        assert e in found;
      }
    }
  }

  /** `candidates` holds exactly the light curves filed under one of `keys`. */
  ghost predicate Gathered(m: Candidates, lcs: seq<SilverEvent>, keys: seq<PairKey>)
  {
    && (forall s :: s in m ==>
          m[s] in lcs && m[s].sourceProductId == s && exists k :: k in keys && k in EventKeys(m[s]))
    && (forall l, k :: l in lcs && k in keys && k in EventKeys(l) ==> l.sourceProductId in m)
  }

  lemma GatherStep(m: Candidates, lcs: seq<SilverEvent>, keys: seq<PairKey>, k: PairKey)
    requires Gathered(m, lcs, keys)
    ensures Gathered(Gather(m, Filter(HasKey(k), lcs)), lcs, keys + [k])
  {
    var found := Filter(HasKey(k), lcs);
    var after := Gather(m, found);
    forall s | s in after
      ensures after[s] in lcs && after[s].sourceProductId == s
        && exists q :: q in keys + [k] && q in EventKeys(after[s])
    {
      GatherMeans(m, found, s);
      if after[s] in found {
        FilterMember(HasKey(k), lcs, after[s]);
        assert k in keys + [k];
      } else {
        var q :| q in keys && q in EventKeys(m[s]);
        assert q in keys + [k];
      }
    }
    forall l, q | l in lcs && q in keys + [k] && q in EventKeys(l) ensures l.sourceProductId in after {
      GatherMeans(m, found, l.sourceProductId);
      if q == k {
        FilterMember(HasKey(k), lcs, l);
      }
    }
  }

  lemma OnlyKey(m: Candidates, s: Id, x: Id)
    requires |m| == 1 && s in m && x in m
    ensures x == s
  {
    assert |m.Keys - {s}| == 0;
    assert x !in m.Keys - {s};
  }

  lemma CandidateShares(tpf: SilverEvent, lcs: seq<SilverEvent>, m: Candidates, s: Id) returns (i: nat)
    requires Gathered(m, lcs, EventKeys(tpf)) && s in m
    ensures i < |lcs| && lcs[i] == m[s] && lcs[i].sourceProductId == s && Shares(tpf, lcs[i])
  {
    i :| 0 <= i < |lcs| && lcs[i] == m[s];
    var k :| k in EventKeys(tpf) && k in EventKeys(m[s]);
  }

  lemma SharingIsCandidate(tpf: SilverEvent, lcs: seq<SilverEvent>, m: Candidates, j: nat)
    requires Gathered(m, lcs, EventKeys(tpf)) && j < |lcs| && Shares(tpf, lcs[j])
    ensures lcs[j].sourceProductId in m
  {}

  lemma OneSharingOneCandidate(tpf: SilverEvent, lcs: seq<SilverEvent>, m: Candidates)
    requires Gathered(m, lcs, EventKeys(tpf)) && ExactlyOne(tpf, lcs)
    ensures |m| == 1
  {
    var i :| 0 <= i < |lcs| && Shares(tpf, lcs[i]) && forall j :: 0 <= j < |lcs| && Shares(tpf, lcs[j]) ==> j == i;
    var s := lcs[i].sourceProductId;
    SharingIsCandidate(tpf, lcs, m, i);
    forall x | x in m ensures x == s {
      var j := CandidateShares(tpf, lcs, m, x);
    }
    assert m.Keys == {s};
  }

  lemma OneCandidateOneSharing(tpf: SilverEvent, lcs: seq<SilverEvent>, m: Candidates)
    requires SourcesDistinct(lcs) && Gathered(m, lcs, EventKeys(tpf)) && |m| == 1
    ensures ExactlyOne(tpf, lcs)
  {
    var s :| s in m;
    var i := CandidateShares(tpf, lcs, m, s);
    forall j | 0 <= j < |lcs| && Shares(tpf, lcs[j]) ensures j == i {
      SharingIsCandidate(tpf, lcs, m, j);
      OnlyKey(m, s, lcs[j].sourceProductId);
    }
  }

  /** Pair one target pixel with the light curve it shares a key with, if there is exactly one. */
  method PairLightCurve(tpf: SilverEvent, index: Index, ghost lcs: seq<SilverEvent>) returns (lc: Option<SilverEvent>)
    requires SourcesDistinct(lcs) && index == IndexOf(lcs)
    ensures lc.Some? <==> ExactlyOne(tpf, lcs)
    ensures lc.Some? ==> lc.value in lcs && Shares(tpf, lc.value)
  {
    var candidates: Candidates := map[];
    var keys := EventKeys(tpf);
    for n := 0 to |keys|
      invariant Gathered(candidates, lcs, keys[..n])
    {
      var found := Lookup(index, keys[n]);
      ghost var before := candidates;
      for m := 0 to |found|
        invariant candidates == Gather(before, found[..m])
      {
        candidates := candidates[found[m].sourceProductId := found[m]];
        assert found[..m + 1][..m] == found[..m];
      }
      assert found[..|found|] == found;
      IndexMeans(lcs, keys[n]);
      GatherStep(before, lcs, keys[..n], keys[n]);
      assert keys[..n + 1] == keys[..n] + [keys[n]];
    }
    assert keys[..|keys|] == keys;
    if |candidates| == 1 {
      var s :| s in candidates;
      ghost var i := CandidateShares(tpf, lcs, candidates, s);
      OneCandidateOneSharing(tpf, lcs, candidates);
      lc := Some(candidates[s]);
    } else {
      if ExactlyOne(tpf, lcs) { OneSharingOneCandidate(tpf, lcs, candidates); }
      lc := None;
    }
  }

  /** A target pixel and the light curve it is paired with. */
  ghost predicate PairedTo(lcs: seq<SilverEvent>, t: SilverEvent, p: SilverEvent)
  {
    ExactlyOne(t, lcs) && p in lcs && Shares(t, p)
  }

  ghost function Pairing(lcs: seq<SilverEvent>): (SilverEvent, SilverEvent) -> bool { (t, p) => PairedTo(lcs, t, p) }

  /** `pairs[i]` is the light curve the i-th target pixel was paired with. */
  ghost predicate PairedWith(lcs: seq<SilverEvent>, tpfs: seq<SilverEvent>, pairs: seq<SilverEvent>)
  {
    Pairwise(Pairing(lcs), tpfs, pairs)
  }

  function SourceOf(e: SilverEvent): Id { e.sourceProductId }

  predicate AllPaired(lcs: seq<SilverEvent>, pairs: seq<SilverEvent>)
  {
    forall i :: 0 <= i < |lcs| ==> lcs[i].sourceProductId in Members(Map(SourceOf, pairs))
  }

  lemma PairFacts(lcs: seq<SilverEvent>, tpfs: seq<SilverEvent>, pairs: seq<SilverEvent>, i: nat)
    requires PairedWith(lcs, tpfs, pairs) && i < |tpfs|
    ensures i < |pairs| && PairedTo(lcs, tpfs[i], pairs[i])
  {}

  lemma PartnerOf(lcs: seq<SilverEvent>, tpfs: seq<SilverEvent>, pairs: seq<SilverEvent>, l: SilverEvent)
    returns (i: nat)
    requires SourcesDistinct(lcs) && PairedWith(lcs, tpfs, pairs) && AllPaired(lcs, pairs) && l in lcs
    ensures i < |tpfs| && i < |pairs| && pairs[i] == l
  {
    var k :| 0 <= k < |lcs| && lcs[k] == l;
    i :| 0 <= i < |pairs| && Map(SourceOf, pairs)[i] == l.sourceProductId;
    PairFacts(lcs, tpfs, pairs, i);
    SameSource(lcs, pairs[i], l);
  }

  lemma SoleSharer(e: SilverEvent, others: seq<SilverEvent>, x: SilverEvent, y: SilverEvent)
    requires ExactlyOne(e, others) && x in others && y in others && Shares(e, x) && Shares(e, y)
    ensures x == y
  {}

  lemma SameSource(lcs: seq<SilverEvent>, x: SilverEvent, y: SilverEvent)
    requires SourcesDistinct(lcs) && x in lcs && y in lcs && x.sourceProductId == y.sourceProductId
    ensures x == y
  {}

  lemma SharesSymmetric(a: SilverEvent, b: SilverEvent)
    requires Shares(a, b)
    ensures Shares(b, a)
  {}

  /** When every light curve was paired and none twice, each has exactly one target pixel. */
  lemma GateGivesPartner(lcs: seq<SilverEvent>, tpfs: seq<SilverEvent>, pairs: seq<SilverEvent>, l: SilverEvent)
    requires SourcesDistinct(lcs) && PairedWith(lcs, tpfs, pairs)
    requires AllPaired(lcs, pairs) && SourcesDistinct(pairs) && l in lcs
    ensures ExactlyOne(l, tpfs)
  {
    var i := PartnerOf(lcs, tpfs, pairs, l);
    PairFacts(lcs, tpfs, pairs, i);
    SharesSymmetric(tpfs[i], l);
    forall j | 0 <= j < |tpfs| && Shares(l, tpfs[j]) ensures j == i {
      SharesSymmetric(l, tpfs[j]);
      PairFacts(lcs, tpfs, pairs, j);
      SoleSharer(tpfs[j], lcs, l, pairs[j]);
    }
  }

  lemma GateImpliesMatching(lcs: seq<SilverEvent>, tpfs: seq<SilverEvent>, pairs: seq<SilverEvent>)
    requires SourcesDistinct(lcs) && PairedWith(lcs, tpfs, pairs) && AllPaired(lcs, pairs) && SourcesDistinct(pairs)
    ensures PerfectMatching(lcs, tpfs)
  {
    forall t | t in tpfs ensures ExactlyOne(t, lcs) {
      var i :| 0 <= i < |tpfs| && tpfs[i] == t;
      PairFacts(lcs, tpfs, pairs, i);
    }
    forall l | l in lcs ensures ExactlyOne(l, tpfs) { GateGivesPartner(lcs, tpfs, pairs, l); }
  }

  lemma MatchingPairsAll(lcs: seq<SilverEvent>, tpfs: seq<SilverEvent>, pairs: seq<SilverEvent>, k: nat)
    requires PairedWith(lcs, tpfs, pairs) && k < |lcs| && ExactlyOne(lcs[k], tpfs)
    ensures lcs[k].sourceProductId in Members(Map(SourceOf, pairs))
  {}

  lemma MatchingPairsOnce(lcs: seq<SilverEvent>, tpfs: seq<SilverEvent>, pairs: seq<SilverEvent>, i: nat, j: nat)
    requires SourcesDistinct(lcs) && PairedWith(lcs, tpfs, pairs) && PerfectMatching(lcs, tpfs) && i < |tpfs|
      && j < |tpfs|
    requires |pairs| == |tpfs| && pairs[i].sourceProductId == pairs[j].sourceProductId
    ensures i == j
  {}

  lemma MatchingImpliesGate(lcs: seq<SilverEvent>, tpfs: seq<SilverEvent>, pairs: seq<SilverEvent>)
    requires SourcesDistinct(lcs) && PairedWith(lcs, tpfs, pairs) && PerfectMatching(lcs, tpfs)
    ensures AllPaired(lcs, pairs) && SourcesDistinct(pairs)
  {
    forall k | 0 <= k < |lcs| ensures lcs[k].sourceProductId in Members(Map(SourceOf, pairs)) {
      assert lcs[k] in lcs;
      MatchingPairsAll(lcs, tpfs, pairs, k);
    }
    forall i, j | 0 <= i < j < |pairs| ensures pairs[i].sourceProductId != pairs[j].sourceProductId {
      if pairs[i].sourceProductId == pairs[j].sourceProductId {
        MatchingPairsOnce(lcs, tpfs, pairs, i, j);
      }
    }
  }

  /** The checks of the pairing gate pass together exactly on a perfect matching. */
  lemma GateIsPerfectMatching(lcs: seq<SilverEvent>, tpfs: seq<SilverEvent>, pairs: seq<SilverEvent>)
    requires SourcesDistinct(lcs) && PairedWith(lcs, tpfs, pairs)
    ensures AllPaired(lcs, pairs) && SourcesDistinct(pairs) <==> PerfectMatching(lcs, tpfs)
  {
    if AllPaired(lcs, pairs) && SourcesDistinct(pairs) { GateImpliesMatching(lcs, tpfs, pairs); }
    if PerfectMatching(lcs, tpfs) { MatchingImpliesGate(lcs, tpfs, pairs); }
  }

  lemma SourcesDistinctDistinct(events: seq<SilverEvent>)
    requires SourcesDistinct(events)
    ensures Distinct(events)
  {}

  /** A matching pairs as many light curves as target pixels. */
  lemma MatchingCounts(lcs: seq<SilverEvent>, tpfs: seq<SilverEvent>, pairs: seq<SilverEvent>)
    requires SourcesDistinct(lcs) && SourcesDistinct(pairs) && PairedWith(lcs, tpfs, pairs) && AllPaired(lcs, pairs)
    ensures |lcs| == |tpfs| && multiset(pairs) == multiset(lcs)
  {
    SourcesDistinctDistinct(lcs);
    SourcesDistinctDistinct(pairs);
    forall x ensures x in lcs <==> x in pairs {
      if x in pairs {
        var i :| 0 <= i < |pairs| && pairs[i] == x;
        PairFacts(lcs, tpfs, pairs, i);
      }
      if x in lcs {
        var i := PartnerOf(lcs, tpfs, pairs, x);
      }
    }
    DistinctSameMembers(lcs, pairs);
    assert |multiset(lcs)| == |multiset(pairs)|;
  }

  /** Pair every target pixel; the first that has no light curve, or several, stops the build. */
  method PairTargets(lcs: seq<SilverEvent>, tpfs: seq<SilverEvent>) returns (r: Option<seq<SilverEvent>>)
    requires SourcesDistinct(lcs)
    ensures r.Some? ==> PairedWith(lcs, tpfs, r.value)
    ensures r.None? ==> !PerfectMatching(lcs, tpfs)
  {
    var index := IndexLightCurves(lcs);
    var pairs: seq<SilverEvent> := [];
    for n := 0 to |tpfs|
      invariant PairedWith(lcs, tpfs[..n], pairs)
    {
      var lc := PairLightCurve(tpfs[n], index, lcs);
      if lc.None? {
        assert tpfs[n] in tpfs;
        return None;
      }
      PairwiseSnoc(Pairing(lcs), tpfs[..n], pairs, tpfs[n], lc.value);
      pairs := pairs + [lc.value];
      assert tpfs[..n + 1] == tpfs[..n] + [tpfs[n]];
    }
    assert tpfs[..|tpfs|] == tpfs;
    r := Some(pairs);
  }

  /** Whether every light curve was paired. */
  method NoneMissing(lcs: seq<SilverEvent>, pairs: seq<SilverEvent>) returns (ok: bool)
    ensures ok <==> AllPaired(lcs, pairs)
  {
    var paired := Members(Map(SourceOf, pairs));
    for n := 0 to |lcs|
      invariant forall i :: 0 <= i < n ==> lcs[i].sourceProductId in paired
    {
      if lcs[n].sourceProductId !in paired {
        return false;
      }
    }
    ok := true;
  }
}
