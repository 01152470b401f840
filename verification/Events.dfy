/**
 The Silver event contract (apps/python-enrichment/events.py) and the identities
 derived from it. SHA-256 is modelled as collision free, so a digest is the value
 it was taken of.
 */
module Events {
  import opened Wrappers

  /** An identifier; only its equality and its text order matter. */
  datatype Id = Id(text: string)

  datatype Kind = LightCurve | TargetPixel

  /** A sample identifier: the text `tic:<tic>:s:<sector>`, however it arose, or any other text. */
  datatype Sample = OfTarget(tic: int, sector: int) | Named(text: string)

  /** The declared Silver schema; the three named ones are those Gold accepts. */
  datatype Schema = LightcurveV1 | TargetPixelV1 | FfiV1 | OtherSchema(text: string)

  datatype SilverEvent = SilverEvent(
    eventId: Id,
    sourceProductId: Id,
    // None when absent or empty.
    sampleId: Option<Sample>,
    bucket: Id,
    objectKey: Id,
    kind: Kind,
    schemaVersion: Schema,
    processorVersion: Id,
    processingFingerprint: Id,
    sector: int,
    ticId: Option<int>,
    sha256: Id,
    // The parsed instant, counted from the earliest there is; None when the text is not an ISO timestamp.
    occurredAt: Option<nat>)

  /** What `revision_id` is a digest of. */
  datatype Revision = Revision(source: Id, processorVersion: Id, fingerprint: Id, sha256: Id)

  /** What `lineage_id` is a digest of. */
  datatype Lineage = Lineage(source: Id, processorVersion: Id)

  /** The processed artifact itself: the product it was made from and the bytes produced. */
  datatype Artifact = Artifact(kind: Kind, source: Id, sha256: Id)

  const EMPTY := Id("")

  /** `event.bucket or default_bucket` */
  function BucketOf(home: Id, e: SilverEvent): Id { if e.bucket == EMPTY then home else e.bucket }

  function RevisionOf(e: SilverEvent): Revision
  {
    Revision(e.sourceProductId, e.processorVersion, e.processingFingerprint, e.sha256)
  }

  function ArtifactOf(e: SilverEvent): Artifact
  {
    Artifact(e.kind, e.sourceProductId, e.sha256)
  }

  /** The declared sample, else the one named after the target and the sector, else none. */
  function EffectiveSampleId(e: SilverEvent): Option<Sample>
  {
    if e.sampleId.Some? then e.sampleId
    else if e.ticId.Some? then Some(OfTarget(e.ticId.value, e.sector))
    else None
  }

  /** A declared sample counts; only without one is it named after the target and the sector. */
  lemma SampleMeans(e: SilverEvent, s: Sample)
    ensures EffectiveSampleId(e) == Some(s) <==>
      || e.sampleId == Some(s)
      || (e.sampleId == None && exists tic :: e.ticId == Some(tic) && s == OfTarget(tic, e.sector))
  {}

  /** Object keys the worker writes; the path text of each is an injective rendering of these. */
  datatype StoreKey =
    | PendingKey(eventId: Id)
    | ContextKey(kind: Kind, revision: Revision)

  /** An entry of the worker's queue: the object key it came from and the event stored there. */
  datatype Item = Item(key: StoreKey, event: SilverEvent)

  type Batch = seq<Item>

  predicate IsLightCurve(i: Item) { i.event.kind == LightCurve }

  function PendingItem(e: SilverEvent): Item { Item(PendingKey(e.eventId), e) }

  function ContextItem(e: SilverEvent): Item { Item(ContextKey(e.kind, RevisionOf(e)), e) }

  function EventsOf(batch: Batch): (es: seq<SilverEvent>)
    ensures |es| == |batch|
    ensures forall i :: 0 <= i < |batch| ==> es[i] == batch[i].event
  {
    seq(|batch|, i requires 0 <= i < |batch| => batch[i].event)
  }
}
