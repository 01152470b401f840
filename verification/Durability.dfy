/**
 What the enrichment worker never loses. An artifact is kept while a checkpoint of it
 is pending in the home bucket, or while it is an input of a committed research-ready
 manifest (a light curve) or a stored context (a target pixel).
 */
module Durability {
  import opened Wrappers
  import opened Orders
  import opened Sequences
  import opened Events
  import opened SnapshotIdentity
  import opened Materializer
  import opened GoldBuild
  import opened Readiness
  import opened Scheduler
  import opened Checkpoints
  import opened Protocol

  // ---- Being kept -------------------------------------------------------

  predicate Covers(i: InputRef, a: Artifact)
  {
    i.productKind == KindName(a.kind) && i.sourceProductId == a.source && i.sha256 == a.sha256
  }

  ghost predicate HasPending(s: Store, a: Artifact)
  {
    exists p :: p in s.pending && p.bucket == s.home && ArtifactOf(s.pending[p]) == a
  }

  ghost predicate HasContext(s: Store, a: Artifact)
  {
    exists k :: k in s.contexts && ArtifactOf(s.contexts[k]) == a
  }

  ghost predicate Extracted(s: Store, a: Artifact)
  {
    exists i :: i in ReadyInputs(s.home, s.docs) && Covers(i, a)
  }

  ghost predicate Final(s: Store, a: Artifact) { if a.kind == LightCurve then Extracted(s, a) else HasContext(s, a) }

  ghost predicate Kept(s: Store, a: Artifact) { HasPending(s, a) || Final(s, a) }

  /**
   What the code takes for granted of the events it meets: an event id names one artifact, an object key
   names one artifact, and every event lives in the configured bucket.
   */
  ghost predicate Universe(ok: SilverEvent -> bool, home: Id)
  {
    && (forall a, b :: ok(a) && ok(b) && a.eventId == b.eventId ==> ArtifactOf(a) == ArtifactOf(b))
    && (forall a, b :: ok(a) && ok(b) && a.objectKey == b.objectKey && a.objectKey != EMPTY ==>
          ArtifactOf(a) == ArtifactOf(b))
    && (forall a :: ok(a) ==> BucketOf(home, a) == home)
  }

  ghost predicate OfEvent(ok: SilverEvent -> bool, i: InputRef) { exists e :: ok(e) && ToInputRef(e) == i }

  ghost predicate PendingInv(ok: SilverEvent -> bool, s: Store)
  {
    forall p :: p in s.pending ==> ok(s.pending[p]) && p == Place(s.home, s.pending[p].eventId)
  }

  ghost predicate ContextsInv(ok: SilverEvent -> bool, s: Store)
  {
    forall k :: k in s.contexts ==>
      ok(s.contexts[k]) && s.contexts[k].kind == TargetPixel && k == ContextItem(s.contexts[k]).key
  }

  /** The identity of a research-ready manifest is that of the inputs it lists. */
  ghost predicate DocsInv(s: Store)
  {
    forall k :: k in s.docs && CountsAsExtracted(s.home, k, s.docs[k]) ==>
      k.identity.inputs == Canonicals(s.docs[k].inputs)
  }

  ghost predicate InputsInv(ok: SilverEvent -> bool, s: Store)
  {
    && (forall i :: i in ReadyInputs(s.home, s.docs) ==> OfEvent(ok, i))
    && (forall a: Artifact :: a.kind == TargetPixel && Extracted(s, a) ==> HasContext(s, a))
  }

  ghost predicate LineageInv(ok: SilverEvent -> bool, s: Store)
  {
    forall k :: k in s.lineage && s.lineage[k].Some? ==> ok(s.lineage[k].value)
  }

  ghost predicate StoreInv(ok: SilverEvent -> bool, s: Store)
  {
    PendingInv(ok, s) && ContextsInv(ok, s) && InputsInv(ok, s) && DocsInv(s) && LineageInv(ok, s)
  }

  /** Whatever was kept, stored as a context or extracted still is. */
  ghost predicate Grows(a: Store, b: Store)
  {
    && a.home == b.home
    && (forall x :: Kept(a, x) ==> Kept(b, x))
    && (forall x :: HasContext(a, x) ==> HasContext(b, x))
    && (forall x :: Extracted(a, x) ==> Extracted(b, x))
    && ExtractedKeys(a) <= ExtractedKeys(b)
  }

  // ---- Effects on the store ---------------------------------------------

  lemma SaveGrows(ok: SilverEvent -> bool, s: Store, e: SilverEvent)
    requires Universe(ok, s.home) && StoreInv(ok, s) && ok(e)
    ensures StoreInv(ok, SavePending(s, e)) && Grows(s, SavePending(s, e))
      && HasPending(SavePending(s, e), ArtifactOf(e))
  {
    var t := SavePending(s, e);
    var place := PlaceOf(s.home, e);
    assert place in t.pending && t.pending[place] == e;
    forall x | HasPending(s, x) ensures HasPending(t, x) {
      var p :| p in s.pending && p.bucket == s.home && ArtifactOf(s.pending[p]) == x;
      assert p in t.pending;
      if p == place { assert ArtifactOf(e) == x; }
    }
    SameRest(s, t);
    assert forall x :: HasContext(t, x) <==> HasContext(s, x);
  }

  /** Contexts and manifests untouched: what they say is unchanged. */
  lemma SameRest(s: Store, t: Store)
    requires s.home == t.home && s.contexts == t.contexts && s.docs == t.docs
    ensures forall x :: HasContext(s, x) <==> HasContext(t, x)
    ensures forall x :: Extracted(s, x) <==> Extracted(t, x)
    ensures ExtractedKeys(s) == ExtractedKeys(t)
  {}

  lemma DeleteGrows(ok: SilverEvent -> bool, s: Store, e: SilverEvent)
    requires Universe(ok, s.home) && StoreInv(ok, s) && ok(e) && Final(s, ArtifactOf(e))
    ensures var t := DeletePending(s, Place(s.home, e.eventId)); StoreInv(ok, t) && Grows(s, t)
  {
    var t := DeletePending(s, Place(s.home, e.eventId));
    SameRest(s, t);
    forall x | Kept(s, x) ensures Kept(t, x) {
      if HasPending(s, x) {
        var p :| p in s.pending && p.bucket == s.home && ArtifactOf(s.pending[p]) == x;
        if p != Place(s.home, e.eventId) {
          assert p in t.pending;
        }
      }
    }
  }

  lemma ContextGrows(ok: SilverEvent -> bool, s: Store, e: SilverEvent)
    requires StoreInv(ok, s) && ok(e) && e.kind == TargetPixel
    ensures StoreInv(ok, SaveContext(s, e)) && Grows(s, SaveContext(s, e))
      && HasContext(SaveContext(s, e), ArtifactOf(e))
  {
    var t, key := SaveContext(s, e), ContextItem(e).key;
    assert key in t.contexts && t.contexts[key] == e;
    forall x | HasContext(s, x) ensures HasContext(t, x) {
      var k :| k in s.contexts && ArtifactOf(s.contexts[k]) == x;
      assert k in t.contexts;
    }
    forall x | HasPending(s, x) ensures HasPending(t, x) {
      var p :| p in s.pending && p.bucket == s.home && ArtifactOf(s.pending[p]) == x;
      assert p in t.pending;
    }
    assert forall x :: Extracted(t, x) <==> Extracted(s, x);
  }

  // ---- Manifests --------------------------------------------------------

  /** The inputs of a snapshot are the references of events of its batch. */
  lemma InputFromBatch(events: seq<SilverEvent>, i: InputRef) returns (e: SilverEvent)
    requires i in SortInputs(Refs(events))
    ensures e in events && ToInputRef(e) == i
  {
    SameElements(SortInputs(Refs(events)), Refs(events), i);
    var n :| 0 <= n < |Refs(events)| && Refs(events)[n] == i;
    e := Selected(events)[n];
    SelectedMembers(events, e);
    UniqueAmong(events, e);
  }

  /** Every event of a batch without conflicts is covered by an input. */
  lemma BatchCovered(events: seq<SilverEvent>, e: SilverEvent) returns (i: InputRef)
    requires NoConflict(events) && e in events
    ensures i in SortInputs(Refs(events)) && Covers(i, ArtifactOf(e))
  {
    var u := SelectedCovers(events, e);
    var n :| 0 <= n < |Selected(events)| && Selected(events)[n] == u;
    i := ToInputRef(u);
    assert Refs(events)[n] == i;
    SameElements(SortInputs(Refs(events)), Refs(events), i);
  }

  lemma CoversOwn(e: SilverEvent, a: Artifact)
    ensures Covers(ToInputRef(e), a) <==> ArtifactOf(e) == a
  {}

  /** An input keeps a counterpart when its manifest is replaced by one of the same identity. */
  lemma Counterpart(s: Store, key: DocKey, doc: Doc, i: InputRef) returns (j: InputRef)
    requires DocsInv(s) && i in ReadyInputs(s.home, s.docs)
    requires CountsAsExtracted(s.home, key, doc) && key.identity.inputs == Canonicals(doc.inputs)
    ensures j in ReadyInputs(s.home, s.docs[key := doc]) && CanonicalOf(j) == CanonicalOf(i)
  {
    var after := s.docs[key := doc];
    var k :| k in s.docs && CountsAsExtracted(s.home, k, s.docs[k]) && i in s.docs[k].inputs;
    if k != key {
      assert k in after && after[k] == s.docs[k];
      j := i;
    } else {
      var n :| 0 <= n < |s.docs[k].inputs| && s.docs[k].inputs[n] == i;
      assert Canonicals(s.docs[k].inputs)[n] == CanonicalOf(i)
        && Canonicals(doc.inputs)[n] == CanonicalOf(doc.inputs[n]);
      j := doc.inputs[n];
      assert after[key] == doc && j in doc.inputs;
    }
  }

  lemma DocGrows(s: Store, key: DocKey, doc: Doc)
    requires DocsInv(s) && CountsAsExtracted(s.home, key, doc) && key.identity.inputs == Canonicals(doc.inputs)
    ensures DocsInv(StoreDoc(s, key, doc)) && Grows(s, StoreDoc(s, key, doc))
    ensures forall x :: HasContext(s, x) <==> HasContext(StoreDoc(s, key, doc), x)
    ensures forall i :: i in doc.inputs ==> i in ReadyInputs(s.home, StoreDoc(s, key, doc).docs)
    ensures forall i :: i in ReadyInputs(s.home, StoreDoc(s, key, doc).docs) ==>
      i in ReadyInputs(s.home, s.docs) || i in doc.inputs
  {
    var t := StoreDoc(s, key, doc);
    assert forall x :: HasPending(s, x) <==> HasPending(t, x);
    assert t.docs[key] == doc;
    forall x | Extracted(s, x) ensures Extracted(t, x) {
      var i :| i in ReadyInputs(s.home, s.docs) && Covers(i, x);
      var j := Counterpart(s, key, doc, i);
      assert Covers(j, x);
    }
    forall k | k in ExtractedKeys(s) ensures k in ExtractedKeys(t) {
      var i :| i in ReadyInputs(s.home, s.docs) && i.objectKey != EMPTY && i.objectKey == k;
      var j := Counterpart(s, key, doc, i);
      assert j.objectKey == k;
    }
    forall i | i in ReadyInputs(s.home, t.docs) ensures i in ReadyInputs(s.home, s.docs) || i in doc.inputs {
      var k :| k in t.docs && CountsAsExtracted(s.home, k, t.docs[k]) && i in t.docs[k].inputs;
      assert k == key || s.docs[k] == t.docs[k];
    }
  }

  /** Putting the manifest of a batch whose target pixels are stored contexts, whatever was there. */
  lemma CommitGrows(ok: SilverEvent -> bool, s: Store, events: seq<SilverEvent>, catalogs: Catalogs, createdAt: int)
    requires Universe(ok, s.home) && StoreInv(ok, s) && NoConflict(events)
    requires forall e :: e in events ==> ok(e) && (e.kind == TargetPixel ==> HasContext(s, ArtifactOf(e)))
    ensures var t := StoreDoc(s, KeyFor(s.home, events, catalogs), DocFor(events, createdAt));
      StoreInv(ok, t) && Grows(s, t) && forall e :: e in events ==> Extracted(t, ArtifactOf(e))
  {
    var key, d := KeyFor(s.home, events, catalogs), DocFor(events, createdAt);
    var t := StoreDoc(s, key, d);
    DocIsHome(ok, s.home, events, catalogs, createdAt);
    DocGrows(s, key, d);
    forall e | e in events ensures Extracted(t, ArtifactOf(e)) {
      var i := BatchCovered(events, e);
      assert i in ReadyInputs(s.home, t.docs);
    }
    forall i | i in ReadyInputs(s.home, t.docs) ensures OfEvent(ok, i) {
      if i !in ReadyInputs(s.home, s.docs) {
        var e := InputFromBatch(events, i);
        assert ok(e);
      }
    }
    forall a: Artifact | a.kind == TargetPixel && Extracted(t, a) ensures HasContext(t, a) {
      var i :| i in ReadyInputs(s.home, t.docs) && Covers(i, a);
      if i in ReadyInputs(s.home, s.docs) {
        assert Extracted(s, a);
      } else {
        var e := InputFromBatch(events, i);
        CoversOwn(e, a);
      }
    }
  }

  lemma DocIsHome(ok: SilverEvent -> bool, home: Id, events: seq<SilverEvent>, catalogs: Catalogs, createdAt: int)
    requires Universe(ok, home) && forall e :: e in events ==> ok(e)
    ensures CountsAsExtracted(home, KeyFor(home, events, catalogs), DocFor(events, createdAt))
    ensures KeyFor(home, events, catalogs).identity.inputs == Canonicals(DocFor(events, createdAt).inputs)
  {
    if Selected(events) != [] {
      SelectedMembers(events, Selected(events)[0]);
      UniqueAmong(events, Selected(events)[0]);
    }
  }

  /** A checkpoint whose object key was extracted is of an artifact that is safe without it. */
  lemma ExtractedIsFinal(ok: SilverEvent -> bool, s: Store, e: SilverEvent)
    requires Universe(ok, s.home) && StoreInv(ok, s) && ok(e) && e.objectKey in ExtractedKeys(s)
    ensures Final(s, ArtifactOf(e))
  {}

  // ---- The invariant ----------------------------------------------------

  /** An item of a batch: a light curve that is kept, or a stored context. */
  ghost predicate ItemGood(ok: SilverEvent -> bool, s: Store, i: Item)
  {
    && ok(i.event)
    && if i.event.kind == LightCurve then i.key == PendingKey(i.event.eventId) && Kept(s, ArtifactOf(i.event))
       else i.key.ContextKey? && HasContext(s, ArtifactOf(i.event))
  }

  /** An item of the pending list: a light curve that is kept. */
  ghost predicate EntryGood(ok: SilverEvent -> bool, s: Store, i: Item)
  {
    i.event.kind == LightCurve && ItemGood(ok, s, i)
  }

  /** An item read from a checkpoint: kept, whichever its kind. */
  ghost predicate FileGood(ok: SilverEvent -> bool, s: Store, i: Item)
  {
    ok(i.event) && i.key == PendingKey(i.event.eventId) && Kept(s, ArtifactOf(i.event))
  }

  ghost predicate ContextGood(ok: SilverEvent -> bool, s: Store, i: Item)
  {
    ok(i.event) && i.event.kind == TargetPixel && i == ContextItem(i.event) && HasContext(s, ArtifactOf(i.event))
  }

  ghost function ItemOk(ok: SilverEvent -> bool, s: Store): Item -> bool { (i: Item) => ItemGood(ok, s, i) }
  ghost function EntryOk(ok: SilverEvent -> bool, s: Store): Item -> bool { (i: Item) => EntryGood(ok, s, i) }
  ghost function FileOk(ok: SilverEvent -> bool, s: Store): Item -> bool { (i: Item) => FileGood(ok, s, i) }
  ghost function ContextOk(ok: SilverEvent -> bool, s: Store): Item -> bool { (i: Item) => ContextGood(ok, s, i) }
  ghost function BatchOk(ok: SilverEvent -> bool, s: Store): Batch -> bool { (b: Batch) => Every(ItemOk(ok, s), b) }

  /** A light curve of a committed batch has been extracted. */
  ghost predicate DoneGood(s: Store, i: Item) { i.event.kind == LightCurve ==> Extracted(s, ArtifactOf(i.event)) }

  ghost function DoneOk(s: Store): Item -> bool { (i: Item) => DoneGood(s, i) }

  /** A build's key is that of its batch, which the builder accepts. */
  ghost predicate PlannedFor(home: Id, b: Batch, key: DocKey, doc: Doc)
  {
    && Publishable(EventsOf(b)) && doc == DocFor(EventsOf(b), doc.createdAt)
    && exists catalogs :: key == KeyFor(home, EventsOf(b), catalogs)
  }

  ghost predicate SlotGood(ok: SilverEvent -> bool, s: Store, x: Slot)
  {
    x.Vacant? ||
    (&& Every(ItemOk(ok, s), x.batch)
     && (x.Building? || x.Putting? || x.Published? ==> PlannedFor(s.home, x.batch, x.key, x.doc))
     && (x.Published? || x.Projected? || x.Clearing? ==> Every(DoneOk(s), x.batch)))
  }

  ghost function SlotOk(ok: SilverEvent -> bool, s: Store): Slot -> bool { (x: Slot) => SlotGood(ok, s, x) }

  ghost predicate MainGood(ok: SilverEvent -> bool, s: Store, m: Main)
  {
    match m
    case Pruning(extracted, todo, kept) =>
      extracted <= ExtractedKeys(s) && Every(FileOk(ok, s), todo) && Every(FileOk(ok, s), kept)
    case Scanning(_, carried, _, _) => Every(FileOk(ok, s), carried)
    case Recovering(_, carried, _, _, _, recovered) => Every(FileOk(ok, s), carried) && Every(FileOk(ok, s), recovered)
    case Filing(_, items, lcs, persisted) =>
      && Every(FileOk(ok, s), items) && Every(EntryOk(ok, s), lcs)
      && (persisted ==> items != [] && items[0].event.kind == TargetPixel && HasContext(s, ArtifactOf(items[0].event)))
    case Received(e) => ok(e)
    case Acking(e, isNew) => ok(e) && Kept(s, ArtifactOf(e)) && (isNew ==> e.kind == LightCurve)
    case Appending(e, isNew) => ok(e) && Kept(s, ArtifactOf(e)) && (isNew ==> e.kind == LightCurve)
    case Dispatching(batches) => Every(BatchOk(ok, s), batches)
    case Enqueueing(batch, batches) => Every(ItemOk(ok, s), batch) && Every(BatchOk(ok, s), batches)
    case _ => true
  }

  ghost predicate MemoryInv(ok: SilverEvent -> bool, s: State)
  {
    && MainGood(ok, s.store, s.main)
    && Every(EntryOk(ok, s.store), s.pending)
    && Every(ContextOk(ok, s.store), s.contexts) && RevisionsDistinct(s.contexts)
    && Every(BatchOk(ok, s.store), s.queue)
    && Every(SlotOk(ok, s.store), s.slots)
  }

  ghost predicate Inv(ok: SilverEvent -> bool, s: State)
  {
    && StoreInv(ok, s.store) && MemoryInv(ok, s)
    && forall x :: x in s.entrusted ==> Kept(s.store, x)
  }

  // ---- The invariant follows the store ----------------------------------

  lemma ItemsFollow(ok: SilverEvent -> bool, a: Store, b: Store)
    requires Grows(a, b)
    ensures forall i :: ItemOk(ok, a)(i) ==> ItemOk(ok, b)(i)
    ensures forall i :: EntryOk(ok, a)(i) ==> EntryOk(ok, b)(i)
    ensures forall i :: FileOk(ok, a)(i) ==> FileOk(ok, b)(i)
    ensures forall i :: ContextOk(ok, a)(i) ==> ContextOk(ok, b)(i)
    ensures forall i :: DoneOk(a)(i) ==> DoneOk(b)(i)
  {}

  lemma BatchesFollow(ok: SilverEvent -> bool, a: Store, b: Store)
    requires Grows(a, b)
    ensures forall x :: BatchOk(ok, a)(x) ==> BatchOk(ok, b)(x)
  {}

  lemma SlotFollows(ok: SilverEvent -> bool, a: Store, b: Store, x: Slot)
    requires Grows(a, b) && SlotGood(ok, a, x)
    ensures SlotGood(ok, b, x)
  {
    ItemsFollow(ok, a, b);
    if !x.Vacant? {
      EveryWeaken(ItemOk(ok, a), ItemOk(ok, b), x.batch);
      if x.Published? || x.Projected? || x.Clearing? { EveryWeaken(DoneOk(a), DoneOk(b), x.batch); }
    }
  }

  lemma MainFollows(ok: SilverEvent -> bool, a: Store, b: Store, m: Main)
    requires Grows(a, b) && MainGood(ok, a, m)
    ensures MainGood(ok, b, m)
  {}

  lemma InvFollows(ok: SilverEvent -> bool, s: State, store: Store)
    requires Inv(ok, s) && StoreInv(ok, store) && Grows(s.store, store)
    ensures Inv(ok, s.(store := store))
  {
    MainFollows(ok, s.store, store, s.main);
    ItemsFollow(ok, s.store, store);
    BatchesFollow(ok, s.store, store);
    EveryWeaken(EntryOk(ok, s.store), EntryOk(ok, store), s.pending);
    EveryWeaken(ContextOk(ok, s.store), ContextOk(ok, store), s.contexts);
    EveryWeaken(BatchOk(ok, s.store), BatchOk(ok, store), s.queue);
    forall x | SlotOk(ok, s.store)(x) ensures SlotOk(ok, store)(x) { SlotFollows(ok, s.store, store, x); }
    EveryWeaken(SlotOk(ok, s.store), SlotOk(ok, store), s.slots);
  }

  // ---- Every step keeps the invariant -----------------------------------

  lemma CrashInv(ok: SilverEvent -> bool, s: State)
    requires Inv(ok, s)
    ensures Inv(ok, Crashed(s))
  {}

  lemma WorldInv(ok: SilverEvent -> bool, s: State, step: WorldStep)
    requires Inv(ok, s) && WorldEnabled(ok, s, step)
    ensures Inv(ok, ApplyWorld(s, step)) && Grows(s.store, ApplyWorld(s, step).store)
  {
    match step
    case LineageAppears(key, record) =>
      var t := s.store.(lineage := s.store.lineage[key := record]);
      SameRest(s.store, t);
      assert forall x :: HasPending(s.store, x) <==> HasPending(t, x);
      InvFollows(ok, s, t);
    case ForeignManifest(key, doc) =>
      var t := StoreDoc(s.store, key, doc);
      ReadyInputsAdded(s.store.home, s.store.docs, key, doc);
      assert ReadyInputs(t.home, t.docs) == ReadyInputs(s.store.home, s.store.docs);
      assert forall x :: HasContext(t, x) <==> HasContext(s.store, x);
      assert forall x :: HasPending(t, x) <==> HasPending(s.store, x);
      assert forall x :: Extracted(t, x) <==> Extracted(s.store, x);
      InvFollows(ok, s, t);
    case Tick =>
  }

  /** Storing a context leaves the process with the invariant and the context in memory. */
  lemma PersistContextInv(ok: SilverEvent -> bool, s: State, e: SilverEvent)
    requires Inv(ok, s) && ok(e) && e.kind == TargetPixel
    ensures Inv(ok, PersistContext(s, e)) && Grows(s.store, PersistContext(s, e).store)
    ensures HasContext(PersistContext(s, e).store, ArtifactOf(e))
  {
    ContextGrows(ok, s.store, e);
    var store := SaveContext(s.store, e);
    InvFollows(ok, s, store);
    var t := PersistContext(s, e);
    PutContextFacts(s.contexts, ContextItem(e));
    forall i | i in t.contexts ensures ContextOk(ok, store)(i) {
      if i != ContextItem(e) { EveryMember(ContextOk(ok, store), s.contexts, i); }
    }
    EveryOf(ContextOk(ok, store), t.contexts);
  }

  lemma PersistPendingInv(ok: SilverEvent -> bool, s: State, e: SilverEvent)
    requires Universe(ok, s.store.home) && Inv(ok, s) && ok(e)
    ensures Inv(ok, PersistPending(s, e)) && Grows(s.store, PersistPending(s, e).store)
    ensures Kept(PersistPending(s, e).store, ArtifactOf(e))
  {
    SaveGrows(ok, s.store, e);
    InvFollows(ok, s, SavePending(s.store, e));
  }

  lemma DeleteInv(ok: SilverEvent -> bool, s: State, i: Item)
    requires Universe(ok, s.store.home) && Inv(ok, s) && ok(i.event) && i.key == PendingKey(i.event.eventId)
    requires Final(s.store, ArtifactOf(i.event))
    ensures var store := DeletePending(s.store, Place(s.store.home, i.key.eventId));
      Inv(ok, s.(store := store)) && Grows(s.store, store)
  {
    DeleteGrows(ok, s.store, i.event);
    InvFollows(ok, s, DeletePending(s.store, Place(s.store.home, i.key.eventId)));
  }

  /** The listed checkpoints and contexts are what the store invariant says they are. */
  lemma ListingGood(ok: SilverEvent -> bool, s: Store, listing: seq<Item>)
    requires StoreInv(ok, s) && Members(listing) == HomeItems(s)
    ensures Every(FileOk(ok, s), listing)
  {
    forall i | i in listing ensures FileOk(ok, s)(i) {
      assert i in HomeItems(s);
      var p :| p in s.pending && p.bucket == s.home && i == Item(PendingKey(p.eventId), s.pending[p]);
      assert HasPending(s, ArtifactOf(i.event));
    }
    EveryOf(FileOk(ok, s), listing);
  }

  lemma ReloadGood(ok: SilverEvent -> bool, s: Store, listing: seq<Item>)
    requires StoreInv(ok, s) && Distinct(listing) && Members(listing) == StoredContexts(s)
    ensures Every(ContextOk(ok, s), listing) && RevisionsDistinct(listing)
  {
    forall i | i in listing ensures ContextOk(ok, s)(i) && i.key in s.contexts && i.event == s.contexts[i.key] {
      assert i in StoredContexts(s);
      var k :| k in s.contexts && i == Item(k, s.contexts[k]);
      assert HasContext(s, ArtifactOf(i.event));
    }
    EveryOf(ContextOk(ok, s), listing);
    forall i, j | 0 <= i < j < |listing| ensures RevisionOf(listing[i].event) != RevisionOf(listing[j].event) {
      assert ContextOk(ok, s)(listing[i]) && ContextOk(ok, s)(listing[j]);
      assert listing[i] != listing[j];
    }
  }

  lemma PruneInv(ok: SilverEvent -> bool, s: State)
    requires Universe(ok, s.store.home) && Inv(ok, s) && RecoveryEnabled(s, Prune)
    ensures Inv(ok, ApplyRecovery(s, Prune)) && Grows(s.store, ApplyRecovery(s, Prune).store)
  {
    var i, file := s.main.todo[0], FileOk(ok, s.store);
    EveryTail(file, s.main.todo);
    if i.event.objectKey in s.main.extracted {
      ExtractedIsFinal(ok, s.store, i.event);
      var u := s.(main := s.main.(todo := s.main.todo[1..]));
      assert Inv(ok, u);
      DeleteInv(ok, u, i);
    } else {
      EverySnoc(file, s.main.kept, i);
    }
  }

  lemma RecoverInv(ok: SilverEvent -> bool, s: State)
    requires Universe(ok, s.store.home) && Inv(ok, s) && RecoveryEnabled(s, Recover)
    ensures Inv(ok, ApplyRecovery(s, Recover)) && Grows(s.store, ApplyRecovery(s, Recover).store)
  {
    var found := NextRecovered(s);
    if found.Some? {
      var e := found.value;
      PersistPendingInv(ok, s, e);
      var u := PersistPending(s, e);
      assert FileOk(ok, u.store)(PendingItem(e));
      EverySnoc(FileOk(ok, u.store), s.main.recovered, PendingItem(e));
    }
  }

  lemma FileInv(ok: SilverEvent -> bool, s: State)
    requires Inv(ok, s) && RecoveryEnabled(s, File)
    ensures Inv(ok, ApplyRecovery(s, File)) && Grows(s.store, ApplyRecovery(s, File).store)
  {
    var i := s.main.items[0];
    EveryTail(FileOk(ok, s.store), s.main.items);
    if i.event.kind == TargetPixel {
      PersistContextInv(ok, s, i.event);
    } else {
      assert EntryOk(ok, s.store)(i);
      EverySnoc(EntryOk(ok, s.store), s.main.lcs, i);
    }
  }

  lemma DropInv(ok: SilverEvent -> bool, s: State)
    requires Universe(ok, s.store.home) && Inv(ok, s) && RecoveryEnabled(s, DropCheckpoint)
    ensures Inv(ok, ApplyRecovery(s, DropCheckpoint)) && Grows(s.store, ApplyRecovery(s, DropCheckpoint).store)
  {
    var i := s.main.items[0];
    EveryTail(FileOk(ok, s.store), s.main.items);
    var u := s.(main := Advance(s.main, false));
    assert Inv(ok, u);
    DeleteInv(ok, u, i);
  }

  lemma RecoveryInv(ok: SilverEvent -> bool, s: State, step: RecoveryStep)
    requires Universe(ok, s.store.home) && Inv(ok, s) && RecoveryEnabled(s, step)
    ensures Inv(ok, ApplyRecovery(s, step)) && Grows(s.store, ApplyRecovery(s, step).store)
  {
    match step
    case Reload(listing) => ReloadGood(ok, s.store, listing);
    case ListPending(listing) => ListingGood(ok, s.store, listing);
    case Prune => PruneInv(ok, s);
    case ListLineage(_) =>
    case ScanManifests =>
    case Recover => RecoverInv(ok, s);
    case BeginFiling => EveryConcat(FileOk(ok, s.store), s.main.carried, s.main.recovered);
    case File => FileInv(ok, s);
    case DropCheckpoint => DropInv(ok, s);
    case EndFiling => EveryConcat(EntryOk(ok, s.store), s.pending, s.main.lcs);
  }

  /** A revision already pending is of an artifact that is kept. */
  lemma PendingRevisionKept(ok: SilverEvent -> bool, s: State, e: SilverEvent)
    requires Inv(ok, s) && HasRevision(s.pending, RevisionOf(e)) && e.kind == LightCurve
    ensures Kept(s.store, ArtifactOf(e))
  {}

  lemma DispatchGood(ok: SilverEvent -> bool, s: State, k: Knowledge, size: nat, batches: seq<Batch>)
    requires Inv(ok, s) && LoopEnabled(ok, s, Dispatch(k, size, batches))
    ensures Every(BatchOk(ok, s.store), batches)
  {
    forall b | b in batches ensures BatchOk(ok, s.store)(b) {
      forall i | i in b ensures ItemOk(ok, s.store)(i) {
        BatchItemsKnown(k, s.pending, size, b, i);
        if i in s.pending {
          EveryMember(EntryOk(ok, s.store), s.pending, i);
        } else {
          EveryMember(ContextOk(ok, s.store), s.contexts, i);
        }
      }
      EveryOf(ItemOk(ok, s.store), b);
    }
    EveryOf(BatchOk(ok, s.store), batches);
  }

  lemma ConsumeGood(ok: SilverEvent -> bool, s: State, b: Batch)
    requires Every(EntryOk(ok, s.store), s.pending)
    ensures Every(EntryOk(ok, s.store), Consume(s.pending, b))
  {
    forall i | i in Consume(s.pending, b) ensures EntryOk(ok, s.store)(i) {
      FilterMember(KeptBy(ConsumedIds(b)), s.pending, i);
      EveryMember(EntryOk(ok, s.store), s.pending, i);
    }
    EveryOf(EntryOk(ok, s.store), Consume(s.pending, b));
  }

  lemma SaveInv(ok: SilverEvent -> bool, s: State)
    requires Universe(ok, s.store.home) && Inv(ok, s) && LoopEnabled(ok, s, Save)
    ensures Inv(ok, ApplyLoop(ok, s, Save)) && Grows(s.store, ApplyLoop(ok, s, Save).store)
  {
    var e := s.main.event;
    if e.kind == TargetPixel {
      PersistContextInv(ok, s, e);
    } else if HasRevision(s.pending, RevisionOf(e)) {
      PendingRevisionKept(ok, s, e);
    } else {
      PersistPendingInv(ok, s, e);
    }
  }

  lemma LoopInv(ok: SilverEvent -> bool, s: State, step: LoopStep)
    requires Universe(ok, s.store.home) && Inv(ok, s) && LoopEnabled(ok, s, step)
    ensures Inv(ok, ApplyLoop(ok, s, step)) && Grows(s.store, ApplyLoop(ok, s, step).store)
  {
    match step
    case Receive(_) =>
    case Save => SaveInv(ok, s);
    case Ack =>
    case Append =>
      if s.main.isNew {
        assert EntryOk(ok, s.store)(PendingItem(s.main.event));
        EverySnoc(EntryOk(ok, s.store), s.pending, PendingItem(s.main.event));
      }
    case Nak =>
    case Dispatch(k, size, batches) => DispatchGood(ok, s, k, size, batches);
    case ConsumeNext =>
      EveryTail(BatchOk(ok, s.store), s.main.batches);
      ConsumeGood(ok, s, s.main.batches[0]);
    case Enqueue =>
      assert BatchOk(ok, s.store)(s.main.batch);
      EverySnoc(BatchOk(ok, s.store), s.queue, s.main.batch);
  }

  lemma SlotChange(ok: SilverEvent -> bool, s: State, w: nat, x: Slot)
    requires Inv(ok, s) && w < |s.slots| && SlotGood(ok, s.store, x)
    ensures Inv(ok, WithSlot(s, w, x))
  {}

  lemma BatchEventsGood(ok: SilverEvent -> bool, s: Store, b: Batch)
    requires Every(ItemOk(ok, s), b)
    ensures forall e :: e in EventsOf(b) ==> ok(e) && (e.kind == TargetPixel ==> HasContext(s, ArtifactOf(e)))
  {}

  lemma SlotItems(ok: SilverEvent -> bool, s: State, w: nat)
    requires Inv(ok, s) && w < |s.slots|
    ensures SlotGood(ok, s.store, s.slots[w])
  {}

  /** Every light curve of a batch just committed is extracted. */
  lemma CommittedDone(store: Store, b: Batch)
    requires forall e :: e in EventsOf(b) ==> Extracted(store, ArtifactOf(e))
    ensures Every(DoneOk(store), b)
  {}

  /** Putting the manifest of a planned batch covers its light curves. */
  lemma PlannedGrows(ok: SilverEvent -> bool, s: Store, b: Batch, key: DocKey, doc: Doc)
    requires Universe(ok, s.home) && StoreInv(ok, s) && Every(ItemOk(ok, s), b) && PlannedFor(s.home, b, key, doc)
    ensures var t := StoreDoc(s, key, doc); StoreInv(ok, t) && Grows(s, t) && Every(DoneOk(t), b)
  {
    BatchEventsGood(ok, s, b);
    var catalogs :| key == KeyFor(s.home, EventsOf(b), catalogs);
    CommitGrows(ok, s, EventsOf(b), catalogs, doc.createdAt);
    CommittedDone(StoreDoc(s, key, doc), b);
  }

  /** And so does finding it stored already. */
  lemma PlannedHeld(ok: SilverEvent -> bool, s: Store, b: Batch, key: DocKey, doc: Doc)
    requires Universe(ok, s.home) && StoreInv(ok, s) && Every(ItemOk(ok, s), b) && PlannedFor(s.home, b, key, doc)
    requires HoldsDoc(s, key, doc)
    ensures Every(DoneOk(s), b)
  {
    BatchEventsGood(ok, s, b);
    var catalogs :| key == KeyFor(s.home, EventsOf(b), catalogs);
    DocIsHome(ok, s.home, EventsOf(b), catalogs, doc.createdAt);
    forall e | e in EventsOf(b) ensures Extracted(s, ArtifactOf(e)) {
      var i := BatchCovered(EventsOf(b), e);
      assert i in ReadyInputs(s.home, s.docs);
    }
    CommittedDone(s, b);
  }

  lemma PutManifestInv(ok: SilverEvent -> bool, s: State, w: nat)
    requires Universe(ok, s.store.home) && Inv(ok, s) && WorkEnabled(s, w, PutManifest)
    ensures Inv(ok, ApplyWork(s, w, PutManifest)) && Grows(s.store, ApplyWork(s, w, PutManifest).store)
  {
    var x := s.slots[w];
    SlotItems(ok, s, w);
    PlannedGrows(ok, s.store, x.batch, x.key, x.doc);
    var t := s.(store := StoreDoc(s.store, x.key, x.doc));
    InvFollows(ok, s, t.store);
    SlotItems(ok, t, w);
    SlotChange(ok, t, w, Published(x.batch, x.key, x.doc));
  }

  lemma FindSameInv(ok: SilverEvent -> bool, s: State, w: nat)
    requires Universe(ok, s.store.home) && Inv(ok, s) && WorkEnabled(s, w, FindSame)
    ensures Inv(ok, ApplyWork(s, w, FindSame))
  {
    var x := s.slots[w];
    SlotItems(ok, s, w);
    PlannedHeld(ok, s.store, x.batch, x.key, x.doc);
    SlotChange(ok, s, w, Published(x.batch, x.key, x.doc));
  }

  lemma PlanInv(ok: SilverEvent -> bool, s: State, w: nat, catalogs: Catalogs)
    requires Inv(ok, s) && WorkEnabled(s, w, PlanBuild(catalogs))
    ensures Inv(ok, ApplyWork(s, w, PlanBuild(catalogs)))
  {
    var b := s.slots[w].batch;
    var key, doc := KeyFor(s.store.home, EventsOf(b), catalogs), DocFor(EventsOf(b), s.clock);
    SlotItems(ok, s, w);
    assert PlannedFor(s.store.home, b, key, doc);
    SlotChange(ok, s, w, Building(b, key, doc));
  }

  /** A queue entry of a committed batch is safe without its checkpoint. */
  lemma ClearedIsFinal(ok: SilverEvent -> bool, s: Store, b: Batch, n: nat)
    requires Every(ItemOk(ok, s), b) && Every(DoneOk(s), b) && n < |b| && b[n].key.PendingKey?
    ensures ok(b[n].event) && b[n].key == PendingKey(b[n].event.eventId) && Final(s, ArtifactOf(b[n].event))
  {}

  /** Clearing one item deletes at most the checkpoint of an artifact that is safe without it. */
  lemma ClearStoreInv(ok: SilverEvent -> bool, s: State, i: Item)
    requires Universe(ok, s.store.home) && Inv(ok, s)
    requires i.key.PendingKey? ==>
      ok(i.event) && i.key == PendingKey(i.event.eventId) && Final(s.store, ArtifactOf(i.event))
    ensures Inv(ok, s.(store := ClearOne(s.store, i))) && Grows(s.store, ClearOne(s.store, i))
  {
    if i.key.PendingKey? {
      DeleteInv(ok, s, i);
    } else {
      assert s == s.(store := s.store);
    }
  }

  lemma ClearInv(ok: SilverEvent -> bool, s: State, w: nat)
    requires Universe(ok, s.store.home) && Inv(ok, s) && WorkEnabled(s, w, Clear)
    ensures Inv(ok, ApplyWork(s, w, Clear)) && Grows(s.store, ApplyWork(s, w, Clear).store)
  {
    var x := s.slots[w];
    var i := x.batch[x.next];
    SlotItems(ok, s, w);
    if i.key.PendingKey? { ClearedIsFinal(ok, s.store, x.batch, x.next); }
    ClearStoreInv(ok, s, i);
    var u := s.(store := ClearOne(s.store, i));
    SlotItems(ok, u, w);
    SlotChange(ok, u, w, Clearing(x.batch, x.next + 1));
  }

  lemma WorkInv(ok: SilverEvent -> bool, s: State, w: nat, step: WorkStep)
    requires Universe(ok, s.store.home) && Inv(ok, s) && WorkEnabled(s, w, step)
    ensures Inv(ok, ApplyWork(s, w, step)) && Grows(s.store, ApplyWork(s, w, step).store)
  {
    var x := s.slots[w];
    SlotItems(ok, s, w);
    match step
    case Claim =>
      EveryTail(BatchOk(ok, s.store), s.queue);
      SlotChange(ok, s, w, Working(s.queue[0]));
    case PlanBuild(catalogs) => PlanInv(ok, s, w, catalogs);
    case FindAbsent => SlotChange(ok, s, w, Putting(x.batch, x.key, x.doc));
    case FindSame => FindSameInv(ok, s, w);
    case PutManifest => PutManifestInv(ok, s, w);
    case Project => SlotChange(ok, s, w, Projected(x.batch));
    case Announce => SlotChange(ok, s, w, Clearing(x.batch, 0));
    case Clear => ClearInv(ok, s, w);
    case Finish => SlotChange(ok, s, w, Vacant);
    case Fail => SlotChange(ok, s, w, Retrying(x.batch));
    case Requeue =>
      SlotChange(ok, s, w, Vacant);
      assert BatchOk(ok, s.store)(x.batch);
      EverySnoc(BatchOk(ok, s.store), s.queue, x.batch);
  }

  lemma StepInv(ok: SilverEvent -> bool, s: State, step: Step)
    requires Universe(ok, s.store.home) && Inv(ok, s) && Enabled(ok, s, step)
    ensures Inv(ok, Apply(ok, s, step)) && Grows(s.store, Apply(ok, s, step).store)
  {
    match step
    case Crash => CrashInv(ok, s);
    case World(step) => WorldInv(ok, s, step);
    case Recovery(step) => RecoveryInv(ok, s, step);
    case Loop(step) => LoopInv(ok, s, step);
    case Work(w, step) => WorkInv(ok, s, w, step);
  }

  // ---- Every run --------------------------------------------------------

  lemma GrowsTransitive(a: Store, b: Store, c: Store)
    requires Grows(a, b) && Grows(b, c)
    ensures Grows(a, c)
  {}

  lemma InitInv(ok: SilverEvent -> bool, s: State)
    requires Init(s)
    ensures Inv(ok, s)
  {}

  /** The same deployment, entrusted with no less. */
  predicate Onward(s: State, t: State) { s.entrusted <= t.entrusted && t.store.home == s.store.home }

  lemma RecoveryOnward(s: State, step: RecoveryStep)
    requires RecoveryEnabled(s, step)
    ensures Onward(s, ApplyRecovery(s, step))
  {}

  lemma LoopOnward(ok: SilverEvent -> bool, s: State, step: LoopStep)
    requires LoopEnabled(ok, s, step)
    ensures Onward(s, ApplyLoop(ok, s, step))
  {}

  lemma WorkOnward(s: State, w: nat, step: WorkStep)
    requires WorkEnabled(s, w, step)
    ensures Onward(s, ApplyWork(s, w, step))
  {}

  lemma ApplyKeepsEntrusted(ok: SilverEvent -> bool, s: State, step: Step)
    requires Enabled(ok, s, step)
    ensures s.entrusted <= Apply(ok, s, step).entrusted && Apply(ok, s, step).store.home == s.store.home
  {
    match step
    case Recovery(step) => RecoveryOnward(s, step);
    case Loop(step) => LoopOnward(ok, s, step);
    case Work(w, step) => WorkOnward(s, w, step);
    case _ =>
  }

  lemma {:induction false} RunInv(ok: SilverEvent -> bool, s: State, steps: seq<Step>)
    requires Universe(ok, s.store.home) && Inv(ok, s) && Runnable(ok, s, steps)
    ensures Inv(ok, Exec(ok, s, steps)) && Grows(s.store, Exec(ok, s, steps).store)
    ensures s.entrusted <= Exec(ok, s, steps).entrusted
    decreases |steps|
  {
    if steps != [] {
      var t := Apply(ok, s, steps[0]);
      StepInv(ok, s, steps[0]);
      ApplyKeepsEntrusted(ok, s, steps[0]);
      RunInv(ok, t, steps[1..]);
      GrowsTransitive(s.store, t.store, Exec(ok, t, steps[1..]).store);
    }
  }

  // ---- Main results -----------------------------------------------------

  /**
   No acknowledged artifact is ever lost: in every run, whatever crashes and retries it contains, an
   artifact whose message was acknowledged is pending in the home bucket or final.
   */
  lemma NothingAcknowledgedIsLost(ok: SilverEvent -> bool, init: State, before: seq<Step>, after: seq<Step>)
    requires Universe(ok, init.store.home) && Init(init) && Runnable(ok, init, before + ([Loop(Ack)] + after))
    ensures Runnable(ok, init, before) && Exec(ok, init, before).main.Acking?
    ensures Kept(Exec(ok, init, before + ([Loop(Ack)] + after)).store, ArtifactOf(Exec(ok, init, before).main.event))
  {
    var rest := [Loop(Ack)] + after;
    ExecConcat(ok, init, before, rest);
    var s := Exec(ok, init, before);
    assert rest[0] == Loop(Ack) && rest[1..] == after;
    InitInv(ok, init);
    RunInv(ok, init, before);
    StepInv(ok, s, Loop(Ack));
    ApplyKeepsEntrusted(ok, s, Loop(Ack));
    RunInv(ok, Apply(ok, s, Loop(Ack)), after);
  }

  /** Nor is any artifact a checkpoint was ever written for. */
  lemma NothingEntrustedIsLost(ok: SilverEvent -> bool, init: State, steps: seq<Step>, a: Artifact)
    requires Universe(ok, init.store.home) && Init(init) && Runnable(ok, init, steps)
    requires a in Exec(ok, init, steps).entrusted
    ensures Kept(Exec(ok, init, steps).store, a)
  {
    InitInv(ok, init);
    RunInv(ok, init, steps);
  }

  /** The items the process holds in a batch or in its pending list. */
  ghost predicate Holds(s: State, i: Item)
  {
    || i in s.pending
    || (exists b :: b in s.queue && i in b)
    || (exists w :: 0 <= w < |s.slots| && !s.slots[w].Vacant? && i in s.slots[w].batch)
    || (s.main.Dispatching? && exists b :: b in s.main.batches && i in b)
    || (s.main.Enqueueing? && (i in s.main.batch || exists b :: b in s.main.batches && i in b))
  }

  /** Every item in memory is backed by the store: a crash at any point loses none of them. */
  lemma MemoryIsDurable(ok: SilverEvent -> bool, init: State, steps: seq<Step>, i: Item)
    requires Universe(ok, init.store.home) && Init(init) && Runnable(ok, init, steps)
    requires Holds(Exec(ok, init, steps), i)
    ensures Kept(Exec(ok, init, steps).store, ArtifactOf(i.event))
    ensures i.event.kind == TargetPixel ==> HasContext(Exec(ok, init, steps).store, ArtifactOf(i.event))
  {
    InitInv(ok, init);
    RunInv(ok, init, steps);
    HeldIsGood(ok, Exec(ok, init, steps), i);
  }

  lemma HeldIsGood(ok: SilverEvent -> bool, s: State, i: Item)
    requires Inv(ok, s) && Holds(s, i)
    ensures ItemGood(ok, s.store, i)
  {}

  /**
   Contexts are permanent and sufficient: a stored target pixel stays stored through every run, and every
   target pixel in a committed research-ready manifest is a stored context.
   */
  lemma ContextsArePermanent(ok: SilverEvent -> bool, init: State, before: seq<Step>, after: seq<Step>, a: Artifact)
    requires Universe(ok, init.store.home) && Init(init) && Runnable(ok, init, before + after)
    ensures Runnable(ok, init, before)
    ensures HasContext(Exec(ok, init, before).store, a) ==> HasContext(Exec(ok, init, before + after).store, a)
    ensures a.kind == TargetPixel && Extracted(Exec(ok, init, before).store, a) ==>
      HasContext(Exec(ok, init, before + after).store, a)
  {
    ExecConcat(ok, init, before, after);
    InitInv(ok, init);
    RunInv(ok, init, before);
    RunInv(ok, Exec(ok, init, before), after);
  }

  // ---- Contexts in memory -----------------------------------------------

  ghost predicate ContextsBacked(s: State) { Backed(Contexts(s.store.contexts, s.contexts)) }

  lemma ReloadBacked(ok: SilverEvent -> bool, s: State, listing: seq<Item>)
    requires ContextsInv(ok, s.store) && RecoveryEnabled(s, Reload(listing)) && RevisionsDistinct(listing)
    ensures Backed(Contexts(s.store.contexts, listing))
  {
    forall x | x in listing
      ensures x == ContextItem(x.event) && x.key in s.store.contexts && s.store.contexts[x.key] == x.event
    {
      assert x in Members(listing);
      var k :| k in s.store.contexts && x == Item(k, s.store.contexts[k]);
    }
  }

  lemma RecoveryBacked(ok: SilverEvent -> bool, s: State, step: RecoveryStep)
    requires StoreInv(ok, s.store) && ContextsBacked(s) && RecoveryEnabled(s, step)
    ensures ContextsBacked(ApplyRecovery(s, step))
  {
    match step
    case Reload(listing) =>
      ReloadGood(ok, s.store, listing);
      ReloadBacked(ok, s, listing);
    case File => PersistedIsBacked(Contexts(s.store.contexts, s.contexts), s.main.items[0].event);
    case _ =>
  }

  lemma LoopBacked(ok: SilverEvent -> bool, s: State, step: LoopStep)
    requires ContextsBacked(s) && LoopEnabled(ok, s, step)
    ensures ContextsBacked(ApplyLoop(ok, s, step))
  {
    if step.Save? {
      PersistedIsBacked(Contexts(s.store.contexts, s.contexts), s.main.event);
    }
  }

  lemma WorkBacked(s: State, w: nat, step: WorkStep)
    requires WorkEnabled(s, w, step)
    ensures ApplyWork(s, w, step).store.contexts == s.store.contexts && ApplyWork(s, w, step).contexts == s.contexts
  {}

  /** Both the stored and the remembered contexts change by being persisted only, or they are read anew. */
  lemma StepBacked(ok: SilverEvent -> bool, s: State, step: Step)
    requires Inv(ok, s) && ContextsBacked(s) && Enabled(ok, s, step)
    ensures ContextsBacked(Apply(ok, s, step))
  {
    match step
    case Recovery(step) => RecoveryBacked(ok, s, step);
    case Loop(step) => LoopBacked(ok, s, step);
    case Work(w, step) => WorkBacked(s, w, step);
    case _ =>
  }

  lemma {:induction false} RunBacked(ok: SilverEvent -> bool, s: State, steps: seq<Step>)
    requires Universe(ok, s.store.home) && Inv(ok, s) && ContextsBacked(s) && Runnable(ok, s, steps)
    ensures ContextsBacked(Exec(ok, s, steps))
    decreases |steps|
  {
    if steps != [] {
      StepInv(ok, s, steps[0]);
      ApplyKeepsEntrusted(ok, s, steps[0]);
      StepBacked(ok, s, steps[0]);
      RunBacked(ok, Apply(ok, s, steps[0]), steps[1..]);
    }
  }

  /** In every run each context in memory is the very one in the store, one per revision. */
  lemma MemoryMirrorsContexts(ok: SilverEvent -> bool, init: State, steps: seq<Step>)
    requires Universe(ok, init.store.home) && Init(init) && Runnable(ok, init, steps)
    ensures Backed(Contexts(Exec(ok, init, steps).store.contexts, Exec(ok, init, steps).contexts))
  {
    InitInv(ok, init);
    RunBacked(ok, init, steps);
  }
}
