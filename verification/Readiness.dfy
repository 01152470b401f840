/**
 Multimodal eligibility (apps/python-enrichment/runtime/readiness.py): which waiting
 light curves have their target pixel, and how they are grouped into batches.
 The revision digest is a parameter: any injective numbering of revisions, ordered
 as the digests are.
 */
module Readiness {
  import opened Wrappers
  import opened Orders
  import opened Sequences
  import opened Events

  // ---- Revision order ---------------------------------------------------

  /** `datetime.min`, which stands for an unreadable timestamp. */
  const MIN_INSTANT := 0

  type Rank = Revision -> int

  ghost predicate Injective(rank: Rank)
  {
    forall a, b :: rank(a) == rank(b) ==> a == b
  }

  function Instant(e: SilverEvent): nat { if e.occurredAt.Some? then e.occurredAt.value else MIN_INSTANT }

  /** `_revision_sort_key(a) > _revision_sort_key(b)`. */
  predicate Newer(rank: Rank, a: SilverEvent, b: SilverEvent)
  {
    Instant(a) > Instant(b) || (Instant(a) == Instant(b) && rank(RevisionOf(a)) > rank(RevisionOf(b)))
  }

  function ByAge(rank: Rank): (Item, Item) -> bool { (a: Item, b: Item) => !Newer(rank, a.event, b.event) }

  // ---- The newest target pixel ------------------------------------------

  /** What a light curve asks for: a sample, or the product its ingestion contract names. */
  datatype Selector = OfSample(sample: Sample) | OfSource(source: Id)

  predicate Eligible(e: SilverEvent) { e.kind == TargetPixel && EffectiveSampleId(e).Some? }

  predicate Matches(want: Selector, e: SilverEvent)
  {
    Eligible(e) && match want
                   case OfSample(s) => EffectiveSampleId(e) == Some(s)
                   case OfSource(s) => e.sourceProductId == s
  }

  /** The dictionary entry after the events of `items` were offered in turn. */
  function Latest(rank: Rank, items: seq<Item>, want: Selector): Option<Item>
  {
    if items == [] then None
    else
      var n := |items| - 1;
      var before := Latest(rank, items[..n], want);
      if Matches(want, items[n].event) && (before.None? || Newer(rank, items[n].event, before.value.event))
      then Some(items[n]) else before
  }

  /**
   `y` is no newer than `x`: it is earlier, or as early with a digest no greater. An unreadable timestamp is as
   early as can be.
   */
  predicate NoNewer(rank: Rank, y: SilverEvent, x: SilverEvent)
  {
    var tied := rank(RevisionOf(y)) <= rank(RevisionOf(x));
    match y.occurredAt
    case None => tied || (x.occurredAt.Some? && x.occurredAt.value > 0)
    case Some(b) =>
      match x.occurredAt
      case None => b == 0 && tied
      case Some(a) => b < a || (b == a && tied)
  }

  ghost predicate IsNewest(rank: Rank, items: seq<Item>, want: Selector, x: Item)
  {
    && x in items && Matches(want, x.event)
    && forall y :: y in items && Matches(want, y.event) ==> NoNewer(rank, y.event, x.event)
  }

  lemma {:induction false} LatestIsNewest(rank: Rank, items: seq<Item>, want: Selector)
    ensures match Latest(rank, items, want)
      case None => forall y :: y in items ==> !Matches(want, y.event)
      case Some(x) => IsNewest(rank, items, want, x)
  {
    if items != [] {
      var n := |items| - 1;
      LatestIsNewest(rank, items[..n], want);
      assert items == items[..n] + [items[n]];
    }
  }

  /** Of equally new ones it is the first: every matching one before it is older. */
  lemma {:induction false} LatestIsFirst(rank: Rank, items: seq<Item>, want: Selector) returns (n: nat)
    requires Latest(rank, items, want).Some?
    ensures n < |items| && items[n] == Latest(rank, items, want).value
    ensures forall m :: 0 <= m < n && Matches(want, items[m].event) ==> !NoNewer(rank, items[n].event, items[m].event)
  {
    var k := |items| - 1;
    var before := Latest(rank, items[..k], want);
    LatestIsNewest(rank, items[..k], want);
    if Latest(rank, items, want) == before {
      n := LatestIsFirst(rank, items[..k], want);
    } else {
      n := k;
      forall m | 0 <= m < k && Matches(want, items[m].event) ensures !NoNewer(rank, items[n].event, items[m].event) {
        assert items[..k][m] in items[..k];
      }
    }
  }

  predicate RevisionsDistinct(items: seq<Item>)
  {
    forall i, j :: 0 <= i < j < |items| ==> RevisionOf(items[i].event) != RevisionOf(items[j].event)
  }

  lemma NewestUnique(rank: Rank, items: seq<Item>, want: Selector, x: Item, y: Item)
    requires Injective(rank) && RevisionsDistinct(items)
    requires IsNewest(rank, items, want, x) && IsNewest(rank, items, want, y)
    ensures x == y
  {}

  lemma NewestPermute(rank: Rank, a: seq<Item>, b: seq<Item>, want: Selector, x: Item)
    requires multiset(a) == multiset(b) && IsNewest(rank, b, want, x)
    ensures IsNewest(rank, a, want, x)
  {
    SameElements(a, b, x);
    forall y | y in a && Matches(want, y.event) ensures NoNewer(rank, y.event, x.event) { SameElements(a, b, y); }
  }

  /** The newest target pixel does not depend on the order in which contexts are listed. */
  lemma LatestIgnoresOrder(rank: Rank, a: seq<Item>, b: seq<Item>, want: Selector)
    requires Injective(rank) && RevisionsDistinct(a) && multiset(a) == multiset(b)
    ensures Latest(rank, a, want) == Latest(rank, b, want)
  {
    LatestIsNewest(rank, a, want);
    LatestIsNewest(rank, b, want);
    var x, y := Latest(rank, a, want), Latest(rank, b, want);
    if y.Some? {
      NewestPermute(rank, a, b, want, y.value);
      NewestUnique(rank, a, want, x.value, y.value);
    } else if x.Some? {
      SameElements(a, b, x.value);
    }
  }

  // ---- Pairing pending light curves -------------------------------------

  /** What the readiness object knows: contexts in dictionary order, and the contracts by light-curve product. */
  datatype Knowledge = Knowledge(rank: Rank, contexts: seq<Item>, contracts: map<Id, Option<Id>>)

  function Wanted(contracts: map<Id, Option<Id>>, e: SilverEvent): Option<Selector>
  {
    if e.sourceProductId in contracts then
      match contracts[e.sourceProductId]
      case Some(source) => Some(OfSource(source))
      case None => None
    else
      match EffectiveSampleId(e)
      case Some(sample) => Some(OfSample(sample))
      case None => None
  }

  /** The target pixel of a light curve: the newest one its contract or its sample asks for. */
  function TpfFor(k: Knowledge, lc: Item): Option<Item>
  {
    var want := Wanted(k.contracts, lc.event);
    if want.None? then None else Latest(k.rank, k.contexts, want.value)
  }

  /** The target pixel is of the product the light curve's contract names or, without a contract, of its sample. */
  predicate Serves(contracts: map<Id, Option<Id>>, lc: SilverEvent, t: SilverEvent)
  {
    && t.kind == TargetPixel && EffectiveSampleId(t) != None
    && if lc.sourceProductId in contracts then contracts[lc.sourceProductId] == Some(t.sourceProductId)
       else EffectiveSampleId(lc) == EffectiveSampleId(t)
  }

  /** A light curve is ready when some stored context serves it, and then its target pixel is the newest of those. */
  lemma ServedByNewest(k: Knowledge, lc: Item)
    ensures match TpfFor(k, lc)
      case None => forall t :: t in k.contexts ==> !Serves(k.contracts, lc.event, t.event)
      case Some(x) =>
        && x in k.contexts && Serves(k.contracts, lc.event, x.event)
        && forall t :: t in k.contexts && Serves(k.contracts, lc.event, t.event) ==> NoNewer(k.rank, t.event, x.event)
  {
    var want := Wanted(k.contracts, lc.event);
    if want.Some? {
      LatestIsNewest(k.rank, k.contexts, want.value);
      assert forall t: SilverEvent :: Matches(want.value, t) <==> Serves(k.contracts, lc.event, t);
    }
  }

  datatype Pair = Pair(lc: Item, tpf: Item)

  function Candidates(k: Knowledge, pending: seq<Item>): seq<Pair>
  {
    if pending == [] then []
    else
      var n := |pending| - 1;
      var tpf := TpfFor(k, pending[n]);
      Candidates(k, pending[..n]) + if tpf.Some? then [Pair(pending[n], tpf.value)] else []
  }

  function IsReady(k: Knowledge): Item -> bool { (lc: Item) => TpfFor(k, lc).Some? }

  function IsWaiting(k: Knowledge): Item -> bool { (lc: Item) => TpfFor(k, lc).None? }

  function LcOf(p: Pair): Item { p.lc }

  /** The candidates are the ready light curves, in order. */
  lemma {:induction false} CandidatesAreReady(k: Knowledge, pending: seq<Item>)
    ensures Map(LcOf, Candidates(k, pending)) == Filter(IsReady(k), pending)
  {
    if pending != [] {
      CandidatesAreReady(k, pending[..|pending| - 1]);
    }
  }

  lemma {:induction false} CandidateFacts(k: Knowledge, pending: seq<Item>, p: Pair)
    requires p in Candidates(k, pending)
    ensures p.lc in pending && TpfFor(k, p.lc) == Some(p.tpf)
    ensures p.tpf in k.contexts && p.tpf.event.kind == TargetPixel
  {
    var n := |pending| - 1;
    if p in Candidates(k, pending[..n]) {
      CandidateFacts(k, pending[..n], p);
      assert p.lc in pending[..n];
    } else {
      LatestIsNewest(k.rank, k.contexts, Wanted(k.contracts, p.lc.event).value);
    }
  }

  /** Ready and waiting light curves are all the pending ones. */
  lemma {:induction false} ReadyPlusWaiting(k: Knowledge, pending: seq<Item>)
    ensures |Candidates(k, pending)| + |Filter(IsWaiting(k), pending)| == |pending|
  {
    if pending != [] {
      ReadyPlusWaiting(k, pending[..|pending| - 1]);
    }
  }

  /** Two listings of the same contexts make the same light curves ready, with the same target pixels. */
  lemma {:induction false} CandidatesIgnoreListing(k: Knowledge, listing: seq<Item>, pending: seq<Item>)
    requires Injective(k.rank) && RevisionsDistinct(k.contexts) && multiset(k.contexts) == multiset(listing)
    ensures Candidates(k, pending) == Candidates(k.(contexts := listing), pending)
  {
    if pending != [] {
      var n := |pending| - 1;
      CandidatesIgnoreListing(k, listing, pending[..n]);
      var want := Wanted(k.contracts, pending[n].event);
      if want.Some? { LatestIgnoresOrder(k.rank, k.contexts, listing, want.value); }
    }
  }

  // ---- Batches ----------------------------------------------------------

  /** Groups of `size` candidates, the last one possibly smaller. */
  function Chunks<T>(s: seq<T>, size: nat): seq<seq<T>>
    requires size >= 1
    decreases |s|
  {
    if s == [] then [] else if |s| <= size then [s] else [s[..size]] + Chunks(s[size..], size)
  }

  function Concat<T>(ss: seq<seq<T>>): seq<T>
  {
    if ss == [] then [] else ss[0] + Concat(ss[1..])
  }

  lemma {:induction false} ChunksPartition<T>(s: seq<T>, size: nat)
    requires size >= 1
    ensures Concat(Chunks(s, size)) == s
    decreases |s|
  {
    if |s| > size {
      ChunksPartition(s[size..], size);
      assert s == s[..size] + s[size..];
    } else if s != [] {
      assert Chunks(s, size)[1..] == [];
    }
  }

  /** Every group but the last is full, and no group is empty. */
  lemma {:induction false} ChunkSizes<T>(s: seq<T>, size: nat, i: nat)
    requires size >= 1 && i < |Chunks(s, size)|
    ensures 1 <= |Chunks(s, size)[i]| <= size
    ensures i < |Chunks(s, size)| - 1 ==> |Chunks(s, size)[i]| == size
    decreases |s|
  {
    if |s| > size && i > 0 {
      ChunkSizes(s[size..], size, i - 1);
    }
  }

  function Flat(chunk: seq<Pair>): seq<Item>
  {
    if chunk == [] then [] else Flat(chunk[..|chunk| - 1]) + [chunk[|chunk| - 1].lc, chunk[|chunk| - 1].tpf]
  }

  function IdOf(i: Item): Id { i.event.eventId }

  /** The event ids met so far. */
  function Ids(items: seq<Item>): set<Id>
  {
    if items == [] then {} else Ids(items[..|items| - 1]) + {IdOf(items[|items| - 1])}
  }

  /** Keep the first item of each event id. */
  function Dedupe(items: seq<Item>): seq<Item>
  {
    if items == [] then []
    else
      var n := |items| - 1;
      Dedupe(items[..n]) + if IdOf(items[n]) in Ids(items[..n]) then [] else [items[n]]
  }

  lemma DedupeSnoc(items: seq<Item>, x: Item)
    ensures Dedupe(items + [x]) == Dedupe(items) + if IdOf(x) in Ids(items) then [] else [x]
    ensures Ids(items + [x]) == Ids(items) + {IdOf(x)}
  {
    assert (items + [x])[..|items|] == items;
  }

  function Inputs(chunk: seq<Pair>): Batch { Dedupe(Flat(chunk)) }

  function Batches(k: Knowledge, pending: seq<Item>, maxTargets: nat): seq<Batch>
    requires maxTargets >= 1
  {
    Map(Inputs, Chunks(Candidates(k, pending), maxTargets))
  }

  function LightCurvesIn(batch: seq<Item>): seq<Item> { Filter(IsLightCurve, batch) }

  /** No light curve of the group carries an event id met earlier in the group. */
  predicate Unambiguous(chunk: seq<Pair>)
  {
    forall i :: 0 <= i < |chunk| ==> IdOf(chunk[i].lc) !in Ids(Flat(chunk[..i]))
  }

  predicate WellKinded(chunk: seq<Pair>)
  {
    forall i :: 0 <= i < |chunk| ==> IsLightCurve(chunk[i].lc) && !IsLightCurve(chunk[i].tpf)
  }

  lemma InputsSnoc(chunk: seq<Pair>, p: Pair)
    ensures Inputs(chunk + [p]) == Inputs(chunk)
      + (if IdOf(p.lc) in Ids(Flat(chunk)) then [] else [p.lc])
      + (if IdOf(p.tpf) in Ids(Flat(chunk)) + {IdOf(p.lc)} then [] else [p.tpf])
    ensures Ids(Flat(chunk + [p])) == Ids(Flat(chunk)) + {IdOf(p.lc)} + {IdOf(p.tpf)}
  {
    assert (chunk + [p])[..|chunk|] == chunk;
    var flat := Flat(chunk);
    assert flat + [p.lc, p.tpf] == flat + [p.lc] + [p.tpf];
    DedupeSnoc(flat, p.lc);
    DedupeSnoc(flat + [p.lc], p.tpf);
  }

  lemma LightCurvesSnoc(chunk: seq<Pair>, p: Pair)
    requires IsLightCurve(p.lc) && !IsLightCurve(p.tpf)
    ensures LightCurvesIn(Inputs(chunk + [p]))
      == LightCurvesIn(Inputs(chunk)) + if IdOf(p.lc) in Ids(Flat(chunk)) then [] else [p.lc]
  {
    InputsSnoc(chunk, p);
    var known := IdOf(p.lc) in Ids(Flat(chunk));
    var lc := if known then [] else [p.lc];
    var tpf := if IdOf(p.tpf) in Ids(Flat(chunk)) + {IdOf(p.lc)} then [] else [p.tpf];
    FilterConcat(IsLightCurve, Inputs(chunk) + lc, tpf);
    FilterConcat(IsLightCurve, Inputs(chunk), lc);
    FilterSnoc(IsLightCurve, [], p.lc);
    FilterSnoc(IsLightCurve, [], p.tpf);
    assert [] + [p.lc] == [p.lc] && [] + [p.tpf] == [p.tpf];
  }

  /**
   Deduplication by event id keeps every light curve of a group, in order, exactly when none of them
   repeats an id met earlier in the group.
   */
  lemma {:induction false} GroupKeepsLightCurves(chunk: seq<Pair>)
    requires WellKinded(chunk)
    ensures |LightCurvesIn(Inputs(chunk))| <= |chunk|
    ensures |LightCurvesIn(Inputs(chunk))| == |chunk| <==> Unambiguous(chunk)
    ensures Unambiguous(chunk) ==> LightCurvesIn(Inputs(chunk)) == Map(LcOf, chunk)
  {
    if chunk != [] {
      var n := |chunk| - 1;
      var before := chunk[..n];
      assert chunk == before + [chunk[n]];
      assert forall i :: 0 <= i < n ==> before[..i] == chunk[..i];
      GroupKeepsLightCurves(before);
      LightCurvesSnoc(before, chunk[n]);
      assert Unambiguous(chunk) <==> Unambiguous(before) && IdOf(chunk[n].lc) !in Ids(Flat(before));
      if Unambiguous(chunk) { MapSnoc(LcOf, chunk, n); assert chunk[..n + 1] == chunk; }
    }
  }

  // ---- What the batches hold --------------------------------------------

  /** The ids of the light curves differ from each other and from those of the target pixels. */
  predicate SeparateIds(cs: seq<Pair>)
  {
    && (forall i, j :: 0 <= i < j < |cs| ==> IdOf(cs[i].lc) != IdOf(cs[j].lc))
    && (forall i, j :: 0 <= i < |cs| && 0 <= j < |cs| ==> IdOf(cs[i].lc) != IdOf(cs[j].tpf))
  }

  lemma {:induction false} IdsOfFlat(chunk: seq<Pair>, id: Id) returns (j: nat)
    requires id in Ids(Flat(chunk))
    ensures j < |chunk| && (id == IdOf(chunk[j].lc) || id == IdOf(chunk[j].tpf))
  {
    var n := |chunk| - 1;
    assert chunk == chunk[..n] + [chunk[n]];
    InputsSnoc(chunk[..n], chunk[n]);
    if id == IdOf(chunk[n].lc) || id == IdOf(chunk[n].tpf) {
      j := n;
    } else {
      j := IdsOfFlat(chunk[..n], id);
    }
  }

  lemma SeparateIsUnambiguous(chunk: seq<Pair>)
    requires SeparateIds(chunk)
    ensures Unambiguous(chunk)
  {
    forall i | 0 <= i < |chunk| ensures IdOf(chunk[i].lc) !in Ids(Flat(chunk[..i])) {
      if IdOf(chunk[i].lc) in Ids(Flat(chunk[..i])) {
        var j := IdsOfFlat(chunk[..i], IdOf(chunk[i].lc));
      }
    }
  }

  lemma SeparateSplit(cs: seq<Pair>, n: nat)
    requires n <= |cs| && SeparateIds(cs) && WellKinded(cs)
    ensures SeparateIds(cs[..n]) && WellKinded(cs[..n])
    ensures SeparateIds(cs[n..]) && WellKinded(cs[n..])
  {}

  function LightCurvesOfGroup(chunk: seq<Pair>): seq<Item> { LightCurvesIn(Inputs(chunk)) }

  lemma GroupHolds(chunk: seq<Pair>)
    requires SeparateIds(chunk) && WellKinded(chunk)
    ensures LightCurvesOfGroup(chunk) == Map(LcOf, chunk)
  {
    SeparateIsUnambiguous(chunk);
    GroupKeepsLightCurves(chunk);
  }

  lemma ConcatMapCons<T, U>(f: T -> seq<U>, x: T, xs: seq<T>)
    ensures Concat(Map(f, [x] + xs)) == f(x) + Concat(Map(f, xs))
  {
    assert Map(f, [x] + xs)[1..] == Map(f, xs);
  }

  lemma {:induction false} GroupsHoldAll(cs: seq<Pair>, size: nat)
    requires size >= 1 && SeparateIds(cs) && WellKinded(cs)
    ensures Concat(Map(LightCurvesOfGroup, Chunks(cs, size))) == Map(LcOf, cs)
    decreases |cs|
  {
    if |cs| > size {
      var first, rest := cs[..size], cs[size..];
      SeparateSplit(cs, size);
      GroupHolds(first);
      GroupsHoldAll(rest, size);
      ConcatMapCons(LightCurvesOfGroup, first, Chunks(rest, size));
      MapSplit(LcOf, cs, size);
    } else if cs != [] {
      GroupHolds(cs);
      ConcatMapCons(LightCurvesOfGroup, cs, []);
      assert [cs] + [] == [cs];
    }
  }

  lemma {:induction false} GroupSeparate(cs: seq<Pair>, size: nat, i: nat)
    requires size >= 1 && SeparateIds(cs) && WellKinded(cs) && i < |Chunks(cs, size)|
    ensures SeparateIds(Chunks(cs, size)[i]) && WellKinded(Chunks(cs, size)[i])
    decreases |cs|
  {
    if |cs| > size {
      SeparateSplit(cs, size);
      if i > 0 { GroupSeparate(cs[size..], size, i - 1); }
    }
  }

  predicate PendingLightCurves(pending: seq<Item>)
  {
    forall i :: 0 <= i < |pending| ==> IsLightCurve(pending[i])
  }

  /** Pending light curves have distinct event ids, none of them a context's. */
  predicate DistinctIds(k: Knowledge, pending: seq<Item>)
  {
    && (forall i, j :: 0 <= i < j < |pending| ==> IdOf(pending[i]) != IdOf(pending[j]))
    && (forall i, j :: 0 <= i < |pending| && 0 <= j < |k.contexts| ==> IdOf(pending[i]) != IdOf(k.contexts[j]))
  }

  lemma {:induction false} FilterDistinctIds(p: Item -> bool, s: seq<Item>)
    requires forall i, j :: 0 <= i < j < |s| ==> IdOf(s[i]) != IdOf(s[j])
    ensures var f := Filter(p, s); forall i, j :: 0 <= i < j < |f| ==> IdOf(f[i]) != IdOf(f[j])
  {
    if s != [] {
      var n := |s| - 1;
      FilterDistinctIds(p, s[..n]);
      var f := Filter(p, s[..n]);
      forall i | 0 <= i < |f| ensures IdOf(f[i]) != IdOf(s[n]) {
        FilterMember(p, s[..n], f[i]);
        var j :| 0 <= j < n && s[j] == f[i];
      }
    }
  }

  lemma CandidatesSeparate(k: Knowledge, pending: seq<Item>)
    requires PendingLightCurves(pending) && DistinctIds(k, pending)
    ensures SeparateIds(Candidates(k, pending)) && WellKinded(Candidates(k, pending))
  {
    var cs := Candidates(k, pending);
    CandidatesAreReady(k, pending);
    FilterDistinctIds(IsReady(k), pending);
    forall i, j | 0 <= i < j < |cs| ensures IdOf(cs[i].lc) != IdOf(cs[j].lc) {
      assert Map(LcOf, cs)[i] == cs[i].lc && Map(LcOf, cs)[j] == cs[j].lc;
    }
    forall i, j | 0 <= i < |cs| && 0 <= j < |cs| ensures IdOf(cs[i].lc) != IdOf(cs[j].tpf) {
      CandidateFacts(k, pending, cs[i]);
      CandidateFacts(k, pending, cs[j]);
    }
    forall i | 0 <= i < |cs| ensures IsLightCurve(cs[i].lc) && !IsLightCurve(cs[i].tpf) {
      CandidateFacts(k, pending, cs[i]);
    }
  }

  /**
   With distinct event ids the batches hold the ready light curves, each once and in order; every batch but
   the last holds exactly `maxTargets` of them, and none is without one.
   */
  lemma BatchesHoldReady(k: Knowledge, pending: seq<Item>, maxTargets: nat)
    requires maxTargets >= 1 && PendingLightCurves(pending) && DistinctIds(k, pending)
    ensures var batches := Batches(k, pending, maxTargets);
      && Concat(Map(LightCurvesIn, batches)) == Filter(IsReady(k), pending)
      && (forall i :: 0 <= i < |batches| ==> 1 <= |LightCurvesIn(batches[i])| <= maxTargets)
      && (forall i :: 0 <= i < |batches| - 1 ==> |LightCurvesIn(batches[i])| == maxTargets)
  {
    var cs := Candidates(k, pending);
    var batches, groups := Batches(k, pending, maxTargets), Chunks(cs, maxTargets);
    CandidatesSeparate(k, pending);
    GroupsHoldAll(cs, maxTargets);
    CandidatesAreReady(k, pending);
    assert Map(LightCurvesIn, batches) == Map(LightCurvesOfGroup, groups);
    forall i | 0 <= i < |batches|
      ensures 1 <= |LightCurvesIn(batches[i])| <= maxTargets
        && (i < |batches| - 1 ==> |LightCurvesIn(batches[i])| == maxTargets)
    {
      ChunkSizes(cs, maxTargets, i);
      GroupSeparate(cs, maxTargets, i);
      GroupHolds(groups[i]);
    }
  }

  lemma {:induction false} DedupeMember(items: seq<Item>, x: Item)
    requires x in Dedupe(items)
    ensures x in items
  {
    var n := |items| - 1;
    if x in Dedupe(items[..n]) {
      DedupeMember(items[..n], x);
    }
  }

  lemma {:induction false} FlatMember(chunk: seq<Pair>, x: Item) returns (p: Pair)
    requires x in Flat(chunk)
    ensures p in chunk && (x == p.lc || x == p.tpf)
  {
    var n := |chunk| - 1;
    if x in Flat(chunk[..n]) {
      p := FlatMember(chunk[..n], x);
    } else {
      p := chunk[n];
    }
  }

  lemma {:induction false} ChunkMember<T>(s: seq<T>, size: nat, i: nat, x: T)
    requires size >= 1 && i < |Chunks(s, size)| && x in Chunks(s, size)[i]
    ensures x in s
    decreases |s|
  {
    if |s| > size && i > 0 {
      ChunkMember(s[size..], size, i - 1, x);
    }
  }

  /** A batch holds pending light curves and stored contexts, nothing else. */
  lemma BatchItemsKnown(k: Knowledge, pending: seq<Item>, maxTargets: nat, b: Batch, x: Item)
    requires maxTargets >= 1 && b in Batches(k, pending, maxTargets) && x in b
    ensures x in pending || (x in k.contexts && x.event.kind == TargetPixel)
  {
    var cs := Candidates(k, pending);
    var i :| 0 <= i < |Chunks(cs, maxTargets)| && b == Inputs(Chunks(cs, maxTargets)[i]);
    DedupeMember(Flat(Chunks(cs, maxTargets)[i]), x);
    var p := FlatMember(Chunks(cs, maxTargets)[i], x);
    ChunkMember(cs, maxTargets, i, p);
    CandidateFacts(k, pending, p);
  }

  lemma OnePairInputs(p: Pair)
    requires IdOf(p.lc) != IdOf(p.tpf)
    ensures Inputs([p]) == [p.lc, p.tpf]
  {
    InputsSnoc([], p);
    assert [] + [p] == [p];
  }

  lemma OneCandidate(k: Knowledge, a: Item, t: Item)
    requires TpfFor(k, a) == Some(t)
    ensures Candidates(k, [a]) == [Pair(a, t)]
  {}

  /** A single pending light curve and its target pixel make one batch. */
  lemma PairBatch(k: Knowledge, a: Item, t: Item)
    requires TpfFor(k, a) == Some(t) && IdOf(a) != IdOf(t)
    ensures Batches(k, [a], 1) == [[a, t]]
  {
    var p := Pair(a, t);
    OneCandidate(k, a, t);
    OnePairInputs(p);
    assert Chunks([p], 1) == [[p]];
    assert Map(Inputs, [[p]]) == [Inputs([p])];
  }

  // ---- The readiness object ---------------------------------------------

  datatype Status = WaitingForTpf | Ready | Idle

  datatype Summary = Summary(state: Status, waiting: nat, ready: nat, contracted: nat, uncontracted: nat)

  function OfferSample(rank: Rank, m: map<Sample, Item>, item: Item): map<Sample, Item>
  {
    if Eligible(item.event) then
      var s := EffectiveSampleId(item.event).value;
      if s !in m || Newer(rank, item.event, m[s].event) then m[s := item] else m
    else m
  }

  function OfferSource(rank: Rank, m: map<Id, Item>, item: Item): map<Id, Item>
  {
    if Eligible(item.event) then
      var s := item.event.sourceProductId;
      if s !in m || Newer(rank, item.event, m[s].event) then m[s := item] else m
    else m
  }

  function BySample(rank: Rank, items: seq<Item>): map<Sample, Item>
  {
    if items == [] then map[] else OfferSample(rank, BySample(rank, items[..|items| - 1]), items[|items| - 1])
  }

  function BySource(rank: Rank, items: seq<Item>): map<Id, Item>
  {
    if items == [] then map[] else OfferSource(rank, BySource(rank, items[..|items| - 1]), items[|items| - 1])
  }

  function Get<K, V>(m: map<K, V>, k: K): Option<V> { if k in m then Some(m[k]) else None }

  lemma {:induction false} IndexIsLatest(rank: Rank, items: seq<Item>, sample: Sample, source: Id)
    ensures Get(BySample(rank, items), sample) == Latest(rank, items, OfSample(sample))
    ensures Get(BySource(rank, items), source) == Latest(rank, items, OfSource(source))
  {
    if items != [] {
      IndexIsLatest(rank, items[..|items| - 1], sample, source);
    }
  }

  /** The two dictionaries, built from the contexts in revision order. */
  predicate Indexed(k: Knowledge, bySample: map<Sample, Item>, bySource: map<Id, Item>)
  {
    var sorted := Sort(ByAge(k.rank), k.contexts);
    bySample == BySample(k.rank, sorted) && bySource == BySource(k.rank, sorted)
  }

  /** Looking a light curve up in the two dictionaries, built from the sorted contexts, finds its target pixel. */
  lemma LookupFindsTpf(k: Knowledge, lc: Item)
    requires Injective(k.rank) && RevisionsDistinct(k.contexts)
    ensures var sorted := Sort(ByAge(k.rank), k.contexts);
      match Wanted(k.contracts, lc.event)
      case None => TpfFor(k, lc) == None
      case Some(OfSample(s)) => TpfFor(k, lc) == Get(BySample(k.rank, sorted), s)
      case Some(OfSource(s)) => TpfFor(k, lc) == Get(BySource(k.rank, sorted), s)
  {
    var sorted := Sort(ByAge(k.rank), k.contexts);
    match Wanted(k.contracts, lc.event)
    case None =>
    case Some(want) =>
      LatestIgnoresOrder(k.rank, k.contexts, sorted, want);
      match want
      case OfSample(s) => IndexIsLatest(k.rank, sorted, s, Id(""));
      case OfSource(s) => IndexIsLatest(k.rank, sorted, Named(""), s);
  }

  /** Assign into the contexts dictionary: a known revision is replaced where it stands. */
  function PutContext(contexts: seq<Item>, item: Item): seq<Item>
  {
    if contexts == [] then [item]
    else if RevisionOf(contexts[0].event) == RevisionOf(item.event) then [item] + contexts[1..]
    else [contexts[0]] + PutContext(contexts[1..], item)
  }

  lemma {:induction false} PutContextFacts(contexts: seq<Item>, item: Item)
    requires RevisionsDistinct(contexts)
    ensures RevisionsDistinct(PutContext(contexts, item))
    ensures forall x :: x in PutContext(contexts, item) <==>
      x == item || (x in contexts && RevisionOf(x.event) != RevisionOf(item.event))
  {
    if contexts != [] {
      assert contexts == [contexts[0]] + contexts[1..];
      if RevisionOf(contexts[0].event) != RevisionOf(item.event) {
        PutContextFacts(contexts[1..], item);
        var rest := PutContext(contexts[1..], item);
        forall j | 0 <= j < |rest| ensures RevisionOf(contexts[0].event) != RevisionOf(rest[j].event) {
          assert rest[j] in rest;
        }
      }
    }
  }

  /** The contexts in the object store, by key, and those in memory. */
  datatype Contexts = Contexts(stored: map<StoreKey, SilverEvent>, memory: seq<Item>)

  /** A context is put into the store first, then remembered. */
  function Persisted(c: Contexts, e: SilverEvent): Contexts
  {
    Contexts(c.stored[ContextItem(e).key := e], PutContext(c.memory, ContextItem(e)))
  }

  /** Memory holds one context per revision, each as it is stored. */
  predicate Backed(c: Contexts)
  {
    && RevisionsDistinct(c.memory)
    && forall x :: x in c.memory ==> x == ContextItem(x.event) && x.key in c.stored && c.stored[x.key] == x.event
  }

  lemma PersistedIsBacked(c: Contexts, e: SilverEvent)
    requires Backed(c)
    ensures Backed(Persisted(c, e))
    ensures forall x :: x in Persisted(c, e).memory <==>
      x == ContextItem(e) || (x in c.memory && RevisionOf(x.event) != RevisionOf(e))
  {
    PutContextFacts(c.memory, ContextItem(e));
  }

  function Contracted(contracts: map<Id, Option<Id>>): Item -> bool
  {
    (lc: Item) => lc.event.sourceProductId in contracts
  }

  lemma ContractedMeans(contracts: map<Id, Option<Id>>, pending: seq<Item>, lc: Item)
    ensures lc in Filter(Contracted(contracts), pending) <==>
      lc in pending && lc.event.sourceProductId in contracts.Keys
  {
    FilterMember(Contracted(contracts), pending, lc);
  }

  class MultimodalReadiness {
    const rank: Rank
    // The object store's contexts.
    var stored: map<StoreKey, SilverEvent>
    var contexts: seq<Item>
    var contracts: map<Id, Option<Id>>

    constructor (rank: Rank, stored: map<StoreKey, SilverEvent>)
      requires Injective(rank)
      ensures Valid() && this.rank == rank && this.stored == stored && contexts == [] && contracts == map[]
    {
      this.rank, this.stored, contexts, contracts := rank, stored, [], map[];
    }

    ghost predicate Valid()
      reads this
    {
      Injective(rank) && Backed(Contexts(stored, contexts))
    }

    function View(): Knowledge
      reads this
    {
      Knowledge(rank, contexts, contracts)
    }

    /**
     Store a target pixel, then remember it: the newest event of its revision is the one kept. When the put
     fails the call raises, and nothing has changed.
     */
    method PersistContext(e: SilverEvent, put: bool) returns (item: Option<Item>)
      requires Valid()
      modifies this`stored, this`contexts
      ensures Valid()
      ensures put ==>
        item == Some(ContextItem(e)) && Contexts(stored, contexts) == Persisted(old(Contexts(stored, contexts)), e)
      ensures put ==> forall x :: x in contexts <==>
        x == ContextItem(e) || (x in old(contexts) && RevisionOf(x.event) != RevisionOf(e))
      ensures !put ==> item == None && stored == old(stored) && contexts == old(contexts)
    {
      if !put {
        return None;
      }
      PersistedIsBacked(Contexts(stored, contexts), e);
      stored := stored[ContextItem(e).key := e];
      item := Some(ContextItem(e));
      contexts := PutContext(contexts, item.value);
    }

    method IndexContexts() returns (bySample: map<Sample, Item>, bySource: map<Id, Item>)
      ensures Indexed(View(), bySample, bySource)
    {
      var sorted := Sort(ByAge(rank), contexts);
      bySample, bySource := map[], map[];
      for n := 0 to |sorted|
        invariant bySample == BySample(rank, sorted[..n]) && bySource == BySource(rank, sorted[..n])
      {
        assert sorted[..n + 1][..n] == sorted[..n];
        bySample, bySource := OfferSample(rank, bySample, sorted[n]), OfferSource(rank, bySource, sorted[n]);
      }
      assert sorted[..|sorted|] == sorted;
    }

    /** Look a light curve up by its contract, or by its sample when it has none. */
    method LookUp(lc: Item, bySample: map<Sample, Item>, bySource: map<Id, Item>) returns (tpf: Option<Item>)
      requires Valid()
      requires Indexed(View(), bySample, bySource)
      ensures tpf == TpfFor(View(), lc)
    {
      LookupFindsTpf(View(), lc);
      if lc.event.sourceProductId !in contracts {
        var sample := EffectiveSampleId(lc.event);
        tpf := if sample.None? then None else Get(bySample, sample.value);
      } else {
        var source := contracts[lc.event.sourceProductId];
        tpf := if source.None? then None else Get(bySource, source.value);
      }
    }

    /** Look each pending light curve up in the dictionaries, counting as it goes. */
    method SelectCandidates(pending: seq<Item>, bySample: map<Sample, Item>, bySource: map<Id, Item>)
      returns (candidates: seq<Pair>, waiting: nat, contracted: nat, uncontracted: nat)
      requires Valid()
      requires Indexed(View(), bySample, bySource)
      ensures candidates == Candidates(View(), pending)
      ensures waiting == |Filter(IsWaiting(View()), pending)|
      ensures contracted == |Filter(Contracted(contracts), pending)| && contracted + uncontracted == |pending|
    {
      ghost var k := View();
      candidates, waiting, contracted, uncontracted := [], 0, 0, 0;
      for n := 0 to |pending|
        invariant candidates == Candidates(k, pending[..n])
        invariant waiting == |Filter(IsWaiting(k), pending[..n])|
        invariant contracted == |Filter(Contracted(contracts), pending[..n])| && contracted + uncontracted == n
      {
        SelectStep(k, pending, n);
        var tpf := LookUp(pending[n], bySample, bySource);
        if pending[n].event.sourceProductId in contracts {
          contracted := contracted + 1;
        } else {
          uncontracted := uncontracted + 1;
        }
        if tpf.None? {
          waiting := waiting + 1;
          continue;
        }
        candidates := candidates + [Pair(pending[n], tpf.value)];
      }
      assert pending[..|pending|] == pending;
    }

    /** Pair the pending light curves with their newest target pixels and group them. */
    method CollectReady(pending: seq<Item>, maxTargets: nat) returns (batches: seq<Batch>, summary: Summary)
      requires Valid() && maxTargets >= 1
      ensures batches == Batches(View(), pending, maxTargets)
      ensures summary.ready == |Filter(IsReady(View()), pending)| && summary.ready + summary.waiting == |pending|
      ensures summary.contracted == |Filter(Contracted(contracts), pending)|
        && summary.contracted + summary.uncontracted == |pending|
      ensures summary.state ==
        if exists lc :: lc in pending && TpfFor(View(), lc).None? then WaitingForTpf
        else if pending != [] then Ready
        else Idle
    {
      var bySample, bySource := IndexContexts();
      var candidates, waiting, contracted, uncontracted := SelectCandidates(pending, bySample, bySource);
      ReadyPlusWaiting(View(), pending);
      CandidatesAreReady(View(), pending);
      assert waiting > 0 <==> exists lc :: lc in pending && TpfFor(View(), lc).None? by {
        var f := Filter(IsWaiting(View()), pending);
        if waiting > 0 { FilterMember(IsWaiting(View()), pending, f[0]); }
        if lc :| lc in pending && TpfFor(View(), lc).None? { FilterMember(IsWaiting(View()), pending, lc); }
      }
      batches := GroupCandidates(candidates, maxTargets);
      var state := if waiting > 0 then WaitingForTpf else if candidates != [] then Ready else Idle;
      summary := Summary(state, waiting, |candidates|, contracted, uncontracted);
    }
  }

  lemma SelectStep(k: Knowledge, pending: seq<Item>, n: nat)
    requires n < |pending|
    ensures Candidates(k, pending[..n + 1])
      == Candidates(k, pending[..n])
         + if TpfFor(k, pending[n]).Some? then [Pair(pending[n], TpfFor(k, pending[n]).value)] else []
    ensures |Filter(IsWaiting(k), pending[..n + 1])|
      == |Filter(IsWaiting(k), pending[..n])| + if TpfFor(k, pending[n]).None? then 1 else 0
    ensures |Filter(Contracted(k.contracts), pending[..n + 1])|
      == |Filter(Contracted(k.contracts), pending[..n])|
         + if pending[n].event.sourceProductId in k.contracts then 1 else 0
  {
    assert pending[..n + 1][..n] == pending[..n];
  }

  lemma AddStep(before: seq<Item>, items: seq<Item>, m: nat)
    requires m < |items|
    ensures var done, x := before + items[..m], items[m];
      && Dedupe(before + items[..m + 1]) == (if IdOf(x) in Ids(done) then Dedupe(done) else Dedupe(done) + [x])
      && Ids(before + items[..m + 1]) == (if IdOf(x) in Ids(done) then Ids(done) else Ids(done) + {IdOf(x)})
  {
    DedupeSnoc(before + items[..m], items[m]);
    assert before + items[..m + 1] == before + items[..m] + [items[m]];
  }

  /** Append the items whose event id has not been seen. */
  method AddItems(inputs: Batch, seen: set<Id>, items: seq<Item>, ghost before: seq<Item>)
    returns (inputs': Batch, seen': set<Id>)
    requires inputs == Dedupe(before) && seen == Ids(before)
    ensures inputs' == Dedupe(before + items) && seen' == Ids(before + items)
  {
    inputs', seen' := inputs, seen;
    assert before + items[..0] == before;
    for m := 0 to |items|
      invariant inputs' == Dedupe(before + items[..m]) && seen' == Ids(before + items[..m])
    {
      AddStep(before, items, m);
      if IdOf(items[m]) in seen' {
        continue;
      }
      inputs', seen' := inputs' + [items[m]], seen' + {IdOf(items[m])};
    }
    assert items[..|items|] == items;
  }

  /** Merge the pairs of one group, dropping event ids already seen. */
  method MergeGroup(group: seq<Pair>) returns (inputs: Batch)
    ensures inputs == Inputs(group)
  {
    inputs := [];
    var seen: set<Id> := {};
    for n := 0 to |group|
      invariant inputs == Dedupe(Flat(group[..n])) && seen == Ids(Flat(group[..n]))
    {
      assert group[..n + 1][..n] == group[..n];
      inputs, seen := AddItems(inputs, seen, [group[n].lc, group[n].tpf], Flat(group[..n]));
    }
    assert group[..|group|] == group;
  }

  lemma ChunksFrom(cs: seq<Pair>, size: nat, index: nat, end: nat)
    requires size >= 1 && index < |cs| && end == if index + size < |cs| then index + size else |cs|
    ensures Map(Inputs, Chunks(cs[index..], size)) == [Inputs(cs[index..end])] + Map(Inputs, Chunks(cs[end..], size))
  {
    var rest := cs[index..];
    if |rest| > size {
      assert rest[..size] == cs[index..end] && rest[size..] == cs[end..];
      assert Chunks(rest, size) == [cs[index..end]] + Chunks(cs[end..], size);
    } else {
      assert rest == cs[index..end] && cs[end..] == [];
      assert Chunks(rest, size) == [rest] + [];
    }
  }

  method GroupCandidates(candidates: seq<Pair>, maxTargets: nat) returns (batches: seq<Batch>)
    requires maxTargets >= 1
    ensures batches == Map(Inputs, Chunks(candidates, maxTargets))
  {
    batches := [];
    var index := 0;
    assert candidates[0..] == candidates;
    while index < |candidates|
      invariant index <= |candidates|
      invariant batches + Map(Inputs, Chunks(candidates[index..], maxTargets))
        == Map(Inputs, Chunks(candidates, maxTargets))
    {
      var end := if index + maxTargets < |candidates| then index + maxTargets else |candidates|;
      ChunksFrom(candidates, maxTargets, index, end);
      var inputs := MergeGroup(candidates[index..end]);
      batches := batches + [inputs];
      index := end;
    }
    assert candidates[index..] == [];
  }
}
