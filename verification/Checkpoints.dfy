/**
 Durable checkpoints and lineage recovery
 (apps/python-enrichment/storage/checkpoints.py) over the object store, a map from
 bucket and key to the event stored there.
 */
module Checkpoints {
  import opened Wrappers
  import opened Sequences
  import opened Events
  import opened SnapshotIdentity

  /** Where a pending checkpoint is stored. */
  datatype Place = Place(bucket: Id, eventId: Id)

  /** Where a snapshot manifest is stored. */
  datatype DocKey = DocKey(bucket: Id, identity: Identity)

  /** A snapshot manifest as the scan reads it, and the time it was planned at. */
  datatype Doc = Doc(committed: bool, researchReady: bool, inputs: seq<InputRef>, createdAt: int)

  datatype Store = Store(
    home: Id,                                // the configured default bucket
    pending: map<Place, SilverEvent>,
    contexts: map<StoreKey, SilverEvent>,
    docs: map<DocKey, Doc>,
    lineage: map<Id, Option<SilverEvent>>)   // by key; the event a committed, well-formed record describes

  function PlaceOf(home: Id, e: SilverEvent): Place { Place(BucketOf(home, e), e.eventId) }

  function SavePending(s: Store, e: SilverEvent): Store { s.(pending := s.pending[PlaceOf(s.home, e) := e]) }

  function DeletePending(s: Store, p: Place): Store { s.(pending := s.pending - {p}) }

  function SaveContext(s: Store, e: SilverEvent): Store { s.(contexts := s.contexts[ContextItem(e).key := e]) }

  // ---- Extracted keys ---------------------------------------------------

  predicate CountsAsExtracted(home: Id, k: DocKey, d: Doc) { k.bucket == home && d.committed && d.researchReady }

  /** The inputs of the committed research-ready manifests in the home bucket. */
  function ReadyInputs(home: Id, docs: map<DocKey, Doc>): set<InputRef>
  {
    set k, i | k in docs && CountsAsExtracted(home, k, docs[k]) && i in docs[k].inputs :: i
  }

  function KeysOf(inputs: set<InputRef>): set<Id> { set i | i in inputs && i.objectKey != EMPTY :: i.objectKey }

  function ExtractedKeys(s: Store): set<Id> { KeysOf(ReadyInputs(s.home, s.docs)) }

  /** A manifest added where there was none adds its inputs, if it counts. */
  lemma ReadyInputsAdded(home: Id, docs: map<DocKey, Doc>, k: DocKey, d: Doc)
    requires k !in docs
    ensures ReadyInputs(home, docs[k := d])
      == ReadyInputs(home, docs) + if CountsAsExtracted(home, k, d) then Members(d.inputs) else {}
  {
    var after := docs[k := d];
    forall i | i in ReadyInputs(home, docs) ensures i in ReadyInputs(home, after) {
      var j :| j in docs && CountsAsExtracted(home, j, docs[j]) && i in docs[j].inputs;
      assert j in after && after[j] == docs[j];
    }
    if CountsAsExtracted(home, k, d) {
      forall i | i in d.inputs ensures i in ReadyInputs(home, after) { assert after[k] == d; }
    }
  }

  lemma ScanStep(home: Id, docs: map<DocKey, Doc>, todo: set<DocKey>, k: DocKey)
    requires todo <= docs.Keys && k in todo
    ensures var more := if CountsAsExtracted(home, k, docs[k]) then KeysOf(Members(docs[k].inputs)) else {};
      KeysOf(ReadyInputs(home, docs - (todo - {k}))) == KeysOf(ReadyInputs(home, docs - todo)) + more
  {
    assert (docs - todo)[k := docs[k]] == docs - (todo - {k});
    ReadyInputsAdded(home, docs - todo, k, docs[k]);
  }

  /** Collect the object keys of the inputs of every committed research-ready manifest. */
  method ExtractedSilverKeys(s: Store) returns (keys: set<Id>)
    ensures keys == ExtractedKeys(s)
  {
    keys := {};
    var todo := s.docs.Keys;
    assert s.docs - todo == map[];
    while todo != {}
      invariant todo <= s.docs.Keys && keys == KeysOf(ReadyInputs(s.home, s.docs - todo))
      decreases |todo|
    {
      var k :| k in todo;
      ScanStep(s.home, s.docs, todo, k);
      todo := todo - {k};
      if CountsAsExtracted(s.home, k, s.docs[k]) {
        var more := KeysOfInputs(s.docs[k].inputs);
        keys := keys + more;
      }
    }
    assert s.docs - {} == s.docs;
  }

  method KeysOfInputs(inputs: seq<InputRef>) returns (keys: set<Id>)
    ensures keys == KeysOf(Members(inputs))
  {
    keys := {};
    for n := 0 to |inputs|
      invariant keys == KeysOf(Members(inputs[..n]))
    {
      assert inputs[..n + 1] == inputs[..n] + [inputs[n]];
      assert Members(inputs[..n + 1]) == Members(inputs[..n]) + {inputs[n]};
      if inputs[n].objectKey != EMPTY {
        keys := keys + {inputs[n].objectKey};
      }
    }
    assert inputs[..|inputs|] == inputs;
  }

  // ---- Clearing ---------------------------------------------------------

  /** One item of a committed batch: queue entries are deleted, contexts stay. */
  function ClearOne(s: Store, i: Item): Store
  {
    if i.key.PendingKey? then DeletePending(s, Place(BucketOf(s.home, i.event), i.key.eventId)) else s
  }

  /** The queue entries among the items, by place. */
  function QueuePlaces(home: Id, items: seq<Item>): set<Place>
  {
    set i | i in items && i.key.PendingKey? :: Place(BucketOf(home, i.event), i.key.eventId)
  }

  lemma QueuePlacesSnoc(home: Id, items: seq<Item>, i: Item)
    ensures QueuePlaces(home, items + [i])
      == QueuePlaces(home, items) + if i.key.PendingKey? then {Place(BucketOf(home, i.event), i.key.eventId)} else {}
  {
    if i.key.PendingKey? { assert i in items + [i]; }
    forall j | j in items && j.key.PendingKey?
      ensures Place(BucketOf(home, j.event), j.key.eventId) in QueuePlaces(home, items + [i])
    {
      assert j in items + [i];
    }
  }

  /** The store without the checkpoints at some places; nothing else differs. */
  function Without(s: Store, places: set<Place>): Store { s.(pending := s.pending - places) }

  // ---- Listing and pruning ----------------------------------------------

  /** The checkpoints listed under the home bucket. */
  function HomeItems(s: Store): set<Item>
  {
    set p | p in s.pending && p.bucket == s.home :: Item(PendingKey(p.eventId), s.pending[p])
  }

  /** A listing of the pending checkpoints: each once, in some order. */
  predicate Lists(s: Store, listing: seq<Item>) { Distinct(listing) && Members(listing) == HomeItems(s) }

  /** One checkpoint of the startup pass: deleted when its object is already in a snapshot, else kept. */
  function PruneOne(s: Store, extracted: set<Id>, i: Item): Store
    requires i.key.PendingKey?
  {
    if i.event.objectKey in extracted then DeletePending(s, Place(BucketOf(s.home, i.event), i.key.eventId)) else s
  }

  predicate AllPendingKeys(items: seq<Item>) { forall i :: 0 <= i < |items| ==> items[i].key.PendingKey? }

  /** The places the startup pass deletes: those of the home checkpoints whose object is in a snapshot. */
  function Extractable(s: Store): set<Place>
  {
    set p | p in s.pending && p.bucket == s.home && s.pending[p].objectKey in ExtractedKeys(s) ::
      Place(BucketOf(s.home, s.pending[p]), p.eventId)
  }

  function Pruned(extracted: set<Id>): Item -> bool { (i: Item) => i.key.PendingKey? && i.event.objectKey in extracted }

  /** The places named by those items of a listing that are extracted are exactly the extractable ones. */
  lemma ListedPlaces(s: Store, listing: seq<Item>)
    requires Lists(s, listing) && AllPendingKeys(listing)
    ensures QueuePlaces(s.home, Filter(Pruned(ExtractedKeys(s)), listing)) == Extractable(s)
  {
    var dropped := Filter(Pruned(ExtractedKeys(s)), listing);
    forall i ensures i in dropped <==> i in HomeItems(s) && i.event.objectKey in ExtractedKeys(s) {
      FilterMember(Pruned(ExtractedKeys(s)), listing, i);
      assert i in listing <==> i in Members(listing);
    }
    forall p | p in Extractable(s) ensures p in QueuePlaces(s.home, dropped) {
      var q :| q in s.pending && q.bucket == s.home && s.pending[q].objectKey in ExtractedKeys(s)
        && p == Place(BucketOf(s.home, s.pending[q]), q.eventId);
      assert Item(PendingKey(q.eventId), s.pending[q]) in dropped;
    }
  }

  lemma PrunedStep(s: Store, extracted: set<Id>, items: seq<Item>, n: nat)
    requires n < |items| && items[n].key.PendingKey?
    ensures var before := Without(s, QueuePlaces(s.home, Filter(Pruned(extracted), items[..n])));
      Without(s, QueuePlaces(s.home, Filter(Pruned(extracted), items[..n + 1])))
        == PruneOne(before, extracted, items[n])
  {
    FilterStep(Pruned(extracted), items, n);
    QueuePlacesSnoc(s.home, Filter(Pruned(extracted), items[..n]), items[n]);
  }

  function NotIn(extracted: set<Id>): Item -> bool { (i: Item) => i.event.objectKey !in extracted }

  // ---- Recovery from lineage --------------------------------------------

  /** The keys of lineage records not inspected before. */
  predicate Unobserved(s: Store, observed: set<Id>, keys: seq<Id>)
  {
    Distinct(keys) && Members(keys) == s.lineage.Keys - observed
  }

  function ObjectKeys(items: set<Item>): set<Id> { set i | i in items :: i.event.objectKey }

  method ListOf(all: set<Id>) returns (keys: seq<Id>)
    ensures Distinct(keys) && Members(keys) == all
  {
    keys := [];
    var todo := all;
    while todo != {}
      invariant todo <= all && Distinct(keys) && Members(keys) == all - todo
      decreases |todo|
    {
      var k :| k in todo;
      assert k !in Members(keys);
      assert Members(keys + [k]) == Members(keys) + {k};
      keys, todo := keys + [k], todo - {k};
    }
  }

  /** Recovery in progress: the object keys known to be pending, and what was queued so far. */
  datatype Progress = Progress(store: Store, known: set<Id>, recovered: seq<Item>)

  /** One lineage record: queued unless its object is already pending or extracted. */
  function RecoverOne(r: Progress, extracted: set<Id>, record: Option<SilverEvent>): Progress
  {
    match record
    case None => r
    case Some(e) =>
      if e.objectKey in r.known || e.objectKey in extracted then r
      else Progress(SavePending(r.store, e), r.known + {e.objectKey}, r.recovered + [PendingItem(e)])
  }

  /** The n-th record is queued: the first of its object key, which is neither known nor extracted before. */
  predicate Queues(known: set<Id>, extracted: set<Id>, records: seq<Option<SilverEvent>>, n: nat)
    requires n < |records|
  {
    && records[n].Some? && records[n].value.objectKey !in known && records[n].value.objectKey !in extracted
    && forall m :: 0 <= m < n && records[m].Some? ==> records[m].value.objectKey != records[n].value.objectKey
  }

  /** The events of those records, in listing order. */
  function Queued(known: set<Id>, extracted: set<Id>, records: seq<Option<SilverEvent>>): seq<SilverEvent>
  {
    if records == [] then []
    else
      var n := |records| - 1;
      Queued(known, extracted, records[..n]) + if Queues(known, extracted, records, n) then [records[n].value] else []
  }

  /** The object keys the records name. */
  function RecordKeys(records: seq<Option<SilverEvent>>): set<Id>
  {
    set n | 0 <= n < |records| && records[n].Some? :: records[n].value.objectKey
  }

  function ObjectKeyOf(e: SilverEvent): Id { e.objectKey }

  lemma QueuedStep(known: set<Id>, extracted: set<Id>, records: seq<Option<SilverEvent>>, n: nat)
    requires n < |records|
    ensures Queued(known, extracted, records[..n + 1])
      == Queued(known, extracted, records[..n])
         + if Queues(known, extracted, records, n) then [records[n].value] else []
    ensures Queues(known, extracted, records, n)
      <==> records[n].Some? && records[n].value.objectKey !in known + extracted + RecordKeys(records[..n])
    ensures RecordKeys(records[..n + 1])
      == RecordKeys(records[..n]) + if records[n].Some? then {records[n].value.objectKey} else {}
  {
    assert records[..n + 1][..n] == records[..n];
    assert Queues(known, extracted, records[..n + 1], n) <==> Queues(known, extracted, records, n);
    if records[n].Some? && records[n].value.objectKey !in known + extracted + RecordKeys(records[..n]) {
      forall m | 0 <= m < n && records[m].Some? ensures records[m].value.objectKey != records[n].value.objectKey {
        assert records[..n][m] == records[m];
      }
    }
    forall k | k in RecordKeys(records[..n]) ensures k in RecordKeys(records[..n + 1]) {
      var m :| 0 <= m < n && records[..n][m].Some? && records[..n][m].value.objectKey == k;
      assert records[..n + 1][m] == records[..n][m];
    }
    assert records[..n + 1][n] == records[n];
  }

  /**
   What recovery queues: object keys that were neither pending nor extracted, each once, and exactly those
   the records name. Every record's key is then pending or extracted.
   */
  lemma {:induction false} QueuedMeans(known: set<Id>, extracted: set<Id>, records: seq<Option<SilverEvent>>)
    ensures Distinct(Map(ObjectKeyOf, Queued(known, extracted, records)))
    ensures Members(Map(ObjectKeyOf, Queued(known, extracted, records))) == RecordKeys(records) - known - extracted
  {
    if records != [] {
      var n := |records| - 1;
      var before, after := Queued(known, extracted, records[..n]), Queued(known, extracted, records);
      QueuedMeans(known, extracted, records[..n]);
      QueuedStep(known, extracted, records, n);
      assert records[..n + 1] == records;
      if after != before {
        var k := records[n].value.objectKey;
        assert k !in Members(Map(ObjectKeyOf, before));
        assert Map(ObjectKeyOf, after) == Map(ObjectKeyOf, before) + [k];
      }
    }
  }

  /** The checkpoints of `events` written one after another. */
  function SaveEach(s: Store, events: seq<SilverEvent>): Store
  {
    if events == [] then s else SavePending(SaveEach(s, events[..|events| - 1]), events[|events| - 1])
  }

  lemma SaveEachSnoc(s: Store, events: seq<SilverEvent>, e: SilverEvent)
    ensures SaveEach(s, events + [e]) == SavePending(SaveEach(s, events), e)
  {}

  /** Where none of the events is written, everything stays. */
  lemma {:induction false} SaveEachElsewhere(s: Store, events: seq<SilverEvent>, p: Place)
    requires forall n :: 0 <= n < |events| ==> PlaceOf(s.home, events[n]) != p
    ensures var t := SaveEach(s, events);
      t == s.(pending := t.pending) && (p in t.pending <==> p in s.pending)
        && (p in s.pending ==> t.pending[p] == s.pending[p])
  {
    if events != [] {
      SaveEachElsewhere(s, events[..|events| - 1], p);
    }
  }

  lemma {:induction false} SaveEachConcat(s: Store, a: seq<SilverEvent>, b: seq<SilverEvent>)
    ensures SaveEach(s, a + b) == SaveEach(SaveEach(s, a), b)
  {
    if b == [] {
      assert a + b == a;
    } else {
      var n := |b| - 1;
      SaveEachConcat(s, a, b[..n]);
      SaveEachSnoc(s, a + b[..n], b[n]);
      assert a + b == (a + b[..n]) + [b[n]];
    }
  }

  lemma {:induction false} SaveEachRest(s: Store, events: seq<SilverEvent>)
    ensures var t := SaveEach(s, events); t == s.(pending := t.pending)
  {
    if events != [] {
      SaveEachRest(s, events[..|events| - 1]);
    }
  }

  lemma SavedBefore(s: Store, first: seq<SilverEvent>, e: SilverEvent, later: seq<SilverEvent>)
    requires forall m :: 0 <= m < |later| ==> PlaceOf(s.home, later[m]) != PlaceOf(s.home, e)
    ensures var t, p := SaveEach(s, first + [e] + later), PlaceOf(s.home, e); p in t.pending && t.pending[p] == e
  {
    SaveEachRest(s, first);
    SaveEachSnoc(s, first, e);
    SaveEachConcat(s, first + [e], later);
    SaveEachElsewhere(SaveEach(s, first + [e]), later, PlaceOf(s.home, e));
  }

  /** An event is stored afterwards unless a later one went to the same place. */
  lemma SavedUnlessReplaced(s: Store, events: seq<SilverEvent>, n: nat)
    requires n < |events| && forall m :: n < m < |events| ==> PlaceOf(s.home, events[m]) != PlaceOf(s.home, events[n])
    ensures var t, p := SaveEach(s, events), PlaceOf(s.home, events[n]); p in t.pending && t.pending[p] == events[n]
  {
    SplitAround(events, n);
    SavedBefore(s, events[..n], events[n], events[n + 1..]);
  }

  /** What the recovery loop has done after some records. */
  ghost predicate Recovered(s: Store, known: set<Id>, extracted: set<Id>, records: seq<Option<SilverEvent>>,
                            r: Progress)
  {
    var queued := Queued(known, extracted, records);
    && r.store == SaveEach(s, queued) && r.recovered == Map(PendingItem, queued)
    && r.known <= known + RecordKeys(records) <= r.known + extracted
  }

  lemma RecoveredStep(s: Store, known: set<Id>, extracted: set<Id>, records: seq<Option<SilverEvent>>, n: nat,
                      r: Progress)
    requires n < |records| && Recovered(s, known, extracted, records[..n], r)
    ensures Recovered(s, known, extracted, records[..n + 1], RecoverOne(r, extracted, records[n]))
  {
    var queued := Queued(known, extracted, records[..n]);
    QueuedStep(known, extracted, records, n);
    assert r.known + extracted == known + extracted + RecordKeys(records[..n]);
    if !Queues(known, extracted, records, n) {
      assert RecoverOne(r, extracted, records[n]) == r && Queued(known, extracted, records[..n + 1]) == queued;
    } else {
      SaveEachSnoc(s, queued, records[n].value);
      assert Map(PendingItem, queued + [records[n].value])
        == Map(PendingItem, queued) + [PendingItem(records[n].value)];
    }
  }

  function RecordAt(s: Store): Id -> Option<SilverEvent>
  {
    (key: Id) => if key in s.lineage then s.lineage[key] else None
  }

  // ---- The checkpoint store object --------------------------------------

  class CheckpointStore {
    var store: Store
    var observed: set<Id>

    constructor (home: Id)
      ensures store == Store(home, map[], map[], map[], map[]) && observed == {}
    {
      store, observed := Store(home, map[], map[], map[], map[]), {};
    }

    method Save(e: SilverEvent)
      modifies this`store
      ensures store == SavePending(old(store), e)
    {
      store := store.(pending := store.pending[PlaceOf(store.home, e) := e]);
    }

    /** `pending_events`: read every key listed in the home bucket. */
    method PendingEvents() returns (listing: seq<Item>)
      ensures Lists(store, listing) && AllPendingKeys(listing)
    {
      listing := [];
      var todo := set p | p in store.pending && p.bucket == store.home;
      while todo != {}
        invariant Distinct(listing) && AllPendingKeys(listing)
        invariant forall p :: p in todo ==> p in store.pending && p.bucket == store.home
        invariant Members(listing) == set p | p in store.pending && p.bucket == store.home && p !in todo ::
          Item(PendingKey(p.eventId), store.pending[p])
        decreases |todo|
      {
        var p :| p in todo;
        var item := Item(PendingKey(p.eventId), store.pending[p]);
        assert item !in Members(listing);
        assert Members(listing + [item]) == Members(listing) + {item};
        listing := listing + [item];
        todo := todo - {p};
      }
    }

    /** `pending_unextracted_events`: delete the checkpoints of work already in a snapshot, return the rest. */
    method PendingUnextracted() returns (kept: seq<Item>, ghost listing: seq<Item>)
      modifies this`store
      ensures Lists(old(store), listing) && AllPendingKeys(listing)
      ensures store == Without(old(store), Extractable(old(store)))
      ensures kept == Filter(NotIn(ExtractedKeys(old(store))), listing)
    {
      var extracted := ExtractedSilverKeys(store);
      var items := PendingEvents();
      listing := items;
      kept := [];
      for n := 0 to |items|
        invariant store.home == old(store).home
          && store == Without(old(store), QueuePlaces(old(store).home, Filter(Pruned(extracted), items[..n])))
        invariant kept == Filter(NotIn(extracted), items[..n])
      {
        FilterStep(NotIn(extracted), items, n);
        PrunedStep(old(store), extracted, items, n);
        if items[n].event.objectKey in extracted {
          store := DeletePending(store, Place(BucketOf(store.home, items[n].event), items[n].key.eventId));
          continue;
        }
        kept := kept + [items[n]];
      }
      assert items[..|items|] == items;
      ListedPlaces(old(store), items);
    }

    /** `recover_pending_from_lineage`: queue the artifacts of records not inspected before. */
    method RecoverPendingFromLineage() returns (recovered: seq<Item>, ghost keys: seq<Id>)
      modifies this
      ensures Unobserved(old(store), old(observed), keys) && observed == old(observed) + Members(keys)
      ensures var queued := Queued(ObjectKeys(HomeItems(old(store))), ExtractedKeys(old(store)),
                                   Map(RecordAt(old(store)), keys));
        store == SaveEach(old(store), queued) && recovered == Map(PendingItem, queued)
    {
      var listed := UnobservedKeys();
      keys := listed;
      if listed == [] {
        assert Map(RecordAt(store), listed) == [];
        return [], keys;
      }
      var pending := PendingEvents();
      var known := ObjectKeys(Members(pending));
      var extracted := ExtractedSilverKeys(store);
      ghost var first := known;
      ghost var records := Map(RecordAt(store), listed);
      recovered := [];
      for n := 0 to |listed|
        invariant Recovered(old(store), first, extracted, records[..n], Progress(store, known, recovered))
        invariant store.lineage == old(store).lineage
        invariant observed == old(observed) + Members(listed[..n])
      {
        RecoveredStep(old(store), first, extracted, records, n, Progress(store, known, recovered));
        MembersSnoc(listed, n);
        assert listed[n] in listed;
        observed := observed + {listed[n]};
        var event := store.lineage[listed[n]];
        assert records[n] == event;
        if event.None? || event.value.objectKey in known || event.value.objectKey in extracted {
          continue;
        }
        Save(event.value);
        recovered := recovered + [PendingItem(event.value)];
        known := known + {event.value.objectKey};
      }
      assert records[..|listed|] == records && listed[..|listed|] == listed;
    }

    method UnobservedKeys() returns (keys: seq<Id>)
      ensures Unobserved(store, observed, keys)
    {
      keys := ListOf(store.lineage.Keys - observed);
    }

    /** `clear_pending` */
    method ClearPending(items: seq<Item>)
      modifies this`store
      ensures store == Without(old(store), QueuePlaces(old(store).home, items))
    {
      for n := 0 to |items|
        invariant store == Without(old(store), QueuePlaces(store.home, items[..n]))
      {
        QueuePlacesSnoc(store.home, items[..n], items[n]);
        assert items[..n + 1] == items[..n] + [items[n]];
        if items[n].key.PendingKey? {
          store := DeletePending(store, Place(BucketOf(store.home, items[n].event), items[n].key.eventId));
        }
      }
      assert items[..|items|] == items;
    }
  }
}
