/**
 Gold snapshot identity and planning (apps/python-enrichment/pipeline/gold.py).
 The fingerprint is a collision-free digest of the canonical object, so it is
 modelled as that object.
 */
module SnapshotIdentity {
  import opened Wrappers
  import opened Orders
  import opened Sequences
  import opened Events

  datatype InputRef = InputRef(
    lineageId: Lineage,
    sourceProductId: Id,
    productKind: Id,
    bucket: Id,
    objectKey: Id,
    sha256: Id,
    schemaVersion: Schema,
    processorVersion: Id,
    sampleId: Option<Sample>,
    processingFingerprint: Id,
    revisionId: Revision)

  /** The fields of an input that enter the fingerprint: all of them but the bucket. */
  datatype Canonical = Canonical(
    lineageId: Lineage,
    processingFingerprint: Id,
    processorVersion: Id,
    productKind: Id,
    sampleId: Option<Sample>,
    objectKey: Id,
    revisionId: Revision,
    schemaVersion: Schema,
    sha256: Id,
    sourceProductId: Id)

  function CanonicalOf(i: InputRef): Canonical
  {
    Canonical(i.lineageId, i.processingFingerprint, i.processorVersion, i.productKind, i.sampleId,
              i.objectKey, i.revisionId, i.schemaVersion, i.sha256, i.sourceProductId)
  }

  /** The snapshot type after upper-casing. */
  datatype SnapshotType = Candidate | Anomaly | OtherType(text: string)

  datatype Settings = Settings(
    snapshotType: SnapshotType,
    schemaVersion: Id,
    featureVersions: map<Id, Id>,
    catalogSnapshots: map<Id, Id>,
    labelSnapshots: map<Id, Id>)

  /** What `snapshot_fingerprint` is a digest of. */
  datatype Identity = Identity(settings: Settings, inputs: seq<Canonical>)

  // ---- The sort key -----------------------------------------------------

  predicate TextLeq(a: Id, b: Id) { LexLeq(a.text, b.text) }

  lemma TextOrder(a: Id, b: Id, c: Id)
    ensures TextLeq(a, b) || TextLeq(b, a)
    ensures TextLeq(a, b) && TextLeq(b, a) ==> a == b
    ensures TextLeq(a, b) && TextLeq(b, c) ==> TextLeq(a, c)
  {
    LexTotal(a.text, b.text);
    if TextLeq(a, b) && TextLeq(b, a) { LexAntisymmetric(a.text, b.text); }
    if TextLeq(a, b) && TextLeq(b, c) { LexTransitive(a.text, b.text, c.text); }
  }

  type Parts = (Id, Id, Id, Id)

  /** Tuples compare at their first difference. */
  predicate PartsLeq(a: Parts, b: Parts)
  {
    if a.0 != b.0 then TextLeq(a.0, b.0)
    else if a.1 != b.1 then TextLeq(a.1, b.1)
    else if a.2 != b.2 then TextLeq(a.2, b.2)
    else TextLeq(a.3, b.3)
  }

  lemma PartsOrder(a: Parts, b: Parts, c: Parts)
    ensures PartsLeq(a, b) || PartsLeq(b, a)
    ensures PartsLeq(a, b) && PartsLeq(b, a) ==> a == b
    ensures PartsLeq(a, b) && PartsLeq(b, c) ==> PartsLeq(a, c)
  {
    TextOrder(a.0, b.0, c.0); TextOrder(b.0, c.0, a.0); TextOrder(c.0, a.0, b.0);
    TextOrder(a.1, b.1, c.1); TextOrder(b.1, c.1, a.1); TextOrder(c.1, a.1, b.1);
    TextOrder(a.2, b.2, c.2); TextOrder(b.2, c.2, a.2); TextOrder(c.2, a.2, b.2);
    TextOrder(a.3, b.3, c.3);
  }

  function KeyOf(c: Canonical): Parts { (c.productKind, c.sourceProductId, c.processorVersion, c.objectKey) }

  predicate CanonicalLeq(a: Canonical, b: Canonical) { PartsLeq(KeyOf(a), KeyOf(b)) }

  predicate InputLeq(a: InputRef, b: InputRef) { CanonicalLeq(CanonicalOf(a), CanonicalOf(b)) }

  lemma CanonicalLeqIsOrder()
    ensures TotalPreorder(CanonicalLeq) && TotalPreorder(InputLeq)
  {
    forall x: Canonical, y: Canonical ensures CanonicalLeq(x, y) || CanonicalLeq(y, x) {
      PartsOrder(KeyOf(x), KeyOf(y), KeyOf(x));
    }
    forall x: Canonical, y: Canonical, z: Canonical | CanonicalLeq(x, y) && CanonicalLeq(y, z)
      ensures CanonicalLeq(x, z)
    {
      PartsOrder(KeyOf(x), KeyOf(y), KeyOf(z));
    }
    forall x: InputRef, y: InputRef ensures InputLeq(x, y) || InputLeq(y, x) {
      assert CanonicalLeq(CanonicalOf(x), CanonicalOf(y)) || CanonicalLeq(CanonicalOf(y), CanonicalOf(x));
    }
    forall x: InputRef, y: InputRef, z: InputRef | InputLeq(x, y) && InputLeq(y, z) ensures InputLeq(x, z) {
      assert CanonicalLeq(CanonicalOf(x), CanonicalOf(z));
    }
  }

  // ---- Identity ---------------------------------------------------------

  function Canonicals(inputs: seq<InputRef>): seq<Canonical> { Map(CanonicalOf, inputs) }

  function SortInputs(inputs: seq<InputRef>): seq<InputRef> { Sort(InputLeq, inputs) }

  function IdentityOf(settings: Settings, inputs: seq<InputRef>): Identity
  {
    Identity(settings, Canonicals(SortInputs(inputs)))
  }

  // ---- Planning ---------------------------------------------------------

  predicate Supported(v: Schema) { !v.OtherSchema? }

  datatype PlanError = UnsupportedType | NoInputs | UnsupportedSchema | DuplicateInput | MixedProcessorVersions

  predicate SameProduct(a: InputRef, b: InputRef)
  {
    a.productKind == b.productKind && a.sourceProductId == b.sourceProductId
  }

  predicate Consistent(inputs: seq<InputRef>)
  {
    && (forall i :: 0 <= i < |inputs| ==> Supported(inputs[i].schemaVersion))
    && (forall i, j :: 0 <= i < j < |inputs| ==> !SameProduct(inputs[i], inputs[j]))
    && (forall i, j :: 0 <= i < j < |inputs| && inputs[i].productKind == inputs[j].productKind ==>
          inputs[i].processorVersion == inputs[j].processorVersion)
  }

  predicate Plannable(settings: Settings, inputs: seq<InputRef>, allowEmpty: bool)
  {
    !settings.snapshotType.OtherType? && (inputs != [] || allowEmpty) && Consistent(inputs)
  }

  datatype Plan = Plan(identity: Identity, inputs: seq<InputRef>, inputCount: nat)

  datatype Product = Product(kind: Id, source: Id)

  function ProductOf(i: InputRef): Product { Product(i.productKind, i.sourceProductId) }

  /** The table of products met so far, and of the processor version of each kind. */
  function SeenAfter(inputs: seq<InputRef>, n: nat): set<Product>
    requires n <= |inputs|
  {
    if n == 0 then {} else SeenAfter(inputs, n - 1) + {ProductOf(inputs[n - 1])}
  }

  function VersionsAfter(inputs: seq<InputRef>, n: nat): map<Id, Id>
    requires n <= |inputs|
  {
    if n == 0 then map[]
    else
      var before, input := VersionsAfter(inputs, n - 1), inputs[n - 1];
      if input.productKind in before then before else before[input.productKind := input.processorVersion]
  }

  /** The checks made on input `n` against the tables. */
  predicate PassesChecks(inputs: seq<InputRef>, n: nat)
    requires n < |inputs|
  {
    var versions, input := VersionsAfter(inputs, n), inputs[n];
    && Supported(input.schemaVersion)
    && ProductOf(input) !in SeenAfter(inputs, n)
    && (input.productKind in versions ==> versions[input.productKind] == input.processorVersion)
  }

  lemma {:induction false} SeenMeans(inputs: seq<InputRef>, n: nat, p: Product)
    requires n <= |inputs|
    ensures p in SeenAfter(inputs, n) <==> exists i :: 0 <= i < n && ProductOf(inputs[i]) == p
  {
    if n > 0 {
      SeenMeans(inputs, n - 1, p);
    }
  }

  lemma {:induction false} VersionsMean(inputs: seq<InputRef>, n: nat, kind: Id)
    requires n <= |inputs|
    requires forall i, j :: 0 <= i < j < n && inputs[i].productKind == inputs[j].productKind ==>
               inputs[i].processorVersion == inputs[j].processorVersion
    ensures var v := VersionsAfter(inputs, n);
      && (kind in v ==> exists i :: 0 <= i < n && inputs[i].productKind == kind)
      && (forall i :: 0 <= i < n && inputs[i].productKind == kind ==>
            kind in v && v[kind] == inputs[i].processorVersion)
  {
    if n > 0 {
      VersionsMean(inputs, n - 1, kind);
    }
  }

  /** The tables of a consistent prefix answer for its inputs. */
  lemma PassesMeansFits(inputs: seq<InputRef>, n: nat)
    requires n < |inputs| && Consistent(inputs[..n])
    ensures PassesChecks(inputs, n) <==>
      && Supported(inputs[n].schemaVersion)
      && (forall i :: 0 <= i < n ==> ProductOf(inputs[i]) != ProductOf(inputs[n]))
      && (forall i :: 0 <= i < n && inputs[i].productKind == inputs[n].productKind ==>
            inputs[i].processorVersion == inputs[n].processorVersion)
  {
    var before, kind := inputs[..n], inputs[n].productKind;
    forall i, j | 0 <= i < j < n && inputs[i].productKind == inputs[j].productKind
      ensures inputs[i].processorVersion == inputs[j].processorVersion
    {
      assert before[i] == inputs[i] && before[j] == inputs[j];
    }
    SeenMeans(inputs, n, ProductOf(inputs[n]));
    VersionsMean(inputs, n, kind);
  }

  lemma {:induction false} ChecksMeanConsistent(inputs: seq<InputRef>, n: nat)
    requires n <= |inputs|
    ensures Consistent(inputs[..n]) <==> forall m :: 0 <= m < n ==> PassesChecks(inputs, m)
  {
    if n > 0 {
      ChecksMeanConsistent(inputs, n - 1);
      var before := inputs[..n - 1];
      assert inputs[..n] == before + [inputs[n - 1]];
      assert forall i :: 0 <= i < n - 1 ==> before[i] == inputs[i];
      ExtendConsistent(before, inputs[n - 1]);
      if Consistent(before) {
        PassesMeansFits(inputs, n - 1);
      }
    }
  }

  lemma ExtendConsistent(inputs: seq<InputRef>, input: InputRef)
    ensures Consistent(inputs + [input]) <==>
      && Consistent(inputs) && Supported(input.schemaVersion)
      && (forall i :: 0 <= i < |inputs| ==> ProductOf(inputs[i]) != ProductOf(input))
      && (forall i :: 0 <= i < |inputs| && inputs[i].productKind == input.productKind ==>
            inputs[i].processorVersion == input.processorVersion)
  {
    var all, n := inputs + [input], |inputs|;
    if Consistent(all) {
      forall i, j | 0 <= i < j < n ensures !SameProduct(inputs[i], inputs[j]) { assert !SameProduct(all[i], all[j]); }
      forall i | 0 <= i < n ensures Supported(inputs[i].schemaVersion) { assert Supported(all[i].schemaVersion); }
      forall i | 0 <= i < n ensures ProductOf(inputs[i]) != ProductOf(input) { assert !SameProduct(all[i], all[n]); }
      assert Supported(all[n].schemaVersion);
      assert forall i :: 0 <= i < n ==> all[i] == inputs[i];
    }
  }

  /** Check schema, duplication and processor version of each input against the tables of those before it. */
  method CheckInputs(inputs: seq<InputRef>) returns (error: Option<PlanError>)
    ensures error.None? <==> Consistent(inputs)
  {
    ChecksMeanConsistent(inputs, |inputs|);
    assert inputs[..|inputs|] == inputs;
    var seen: set<Product> := {};
    var versions: map<Id, Id> := map[];
    for n := 0 to |inputs|
      invariant forall m :: 0 <= m < n ==> PassesChecks(inputs, m)
      invariant seen == SeenAfter(inputs, n) && versions == VersionsAfter(inputs, n)
    {
      var input := inputs[n];
      if !Supported(input.schemaVersion) {
        assert !PassesChecks(inputs, n);
        return Some(UnsupportedSchema);
      }
      if ProductOf(input) in seen {
        assert !PassesChecks(inputs, n);
        return Some(DuplicateInput);
      }
      seen := seen + {ProductOf(input)};
      if input.productKind in versions {
        if versions[input.productKind] != input.processorVersion {
          assert !PassesChecks(inputs, n);
          return Some(MixedProcessorVersions);
        }
      } else {
        versions := versions[input.productKind := input.processorVersion];
      }
    }
    error := None;
  }

  /** Validate the inputs one by one, then derive the identity from their sorted canonical forms. */
  method PlanSnapshot(settings: Settings, inputs: seq<InputRef>, allowEmpty: bool) returns (r: Result<Plan, PlanError>)
    ensures r.Ok? <==> Plannable(settings, inputs, allowEmpty)
    ensures settings.snapshotType.OtherType? ==> r == Err(UnsupportedType)
    ensures !settings.snapshotType.OtherType? && inputs == [] ==>
        if allowEmpty then r.Ok? && r.value.inputs == [] else r == Err(NoInputs)
    ensures r.Ok? ==> r.value == PlanOf(settings, inputs)
  {
    if settings.snapshotType.OtherType? {
      return Err(UnsupportedType);
    }
    if inputs == [] && !allowEmpty {
      return Err(NoInputs);
    }
    var error := CheckInputs(inputs);
    if error.Some? {
      return Err(error.value);
    }
    r := Ok(Plan(IdentityOf(settings, inputs), SortInputs(inputs), |inputs|));
  }

  // ---- Main results -----------------------------------------------------

  /** Distinct products have distinct sort keys, so no two accepted inputs tie. */
  lemma NoTies(inputs: seq<InputRef>)
    requires Consistent(inputs)
    ensures forall x, y ::
      x in Canonicals(inputs) && y in Canonicals(inputs) && CanonicalLeq(x, y) && CanonicalLeq(y, x) ==> x == y
  {
    var cs := Canonicals(inputs);
    forall x, y | x in cs && y in cs && CanonicalLeq(x, y) && CanonicalLeq(y, x) ensures x == y {
      PartsOrder(KeyOf(x), KeyOf(y), KeyOf(x));
      var i :| 0 <= i < |cs| && cs[i] == x;
      var j :| 0 <= j < |cs| && cs[j] == y;
      assert SameProduct(inputs[i], inputs[j]);
    }
  }

  /** Sorting the inputs and then reading their canonical fields sorts the canonical forms. */
  lemma SortedCanonicals(inputs: seq<InputRef>)
    ensures Sorted(CanonicalLeq, Canonicals(SortInputs(inputs)))
    ensures multiset(Canonicals(SortInputs(inputs))) == multiset(Canonicals(inputs))
  {
    CanonicalLeqIsOrder();
    SortSorts(InputLeq, inputs);
    MapMultiset(CanonicalOf, SortInputs(inputs), inputs);
    var s := SortInputs(inputs);
    forall i, j | 0 <= i < j < |s| ensures CanonicalLeq(Canonicals(s)[i], Canonicals(s)[j]) {
      assert InputLeq(s[i], s[j]);
    }
  }

  /**
   The fingerprint of an accepted plan is canonical: two plans have the same fingerprint exactly when
   their settings agree and their inputs agree, in any order, on the canonical fields.
   */
  lemma IdentityIsCanonical(s: Settings, a: seq<InputRef>, t: Settings, b: seq<InputRef>)
    requires Consistent(a)
    ensures IdentityOf(s, a) == IdentityOf(t, b) <==> s == t && multiset(Canonicals(a)) == multiset(Canonicals(b))
  {
    SortedCanonicals(a);
    SortedCanonicals(b);
    var x, y := Canonicals(SortInputs(a)), Canonicals(SortInputs(b));
    if multiset(Canonicals(a)) == multiset(Canonicals(b)) {
      NoTies(a);
      forall c | c in x ensures c in Canonicals(a) { SameElements(x, Canonicals(a), c); }
      SortedUnique(CanonicalLeq, x, y);
    }
  }

  /** No two accepted inputs tie, so sorting them forgets the order they came in, every field included. */
  lemma SortedInputsAgree(a: seq<InputRef>, b: seq<InputRef>)
    requires Consistent(a) && multiset(a) == multiset(b)
    ensures SortInputs(a) == SortInputs(b)
  {
    CanonicalLeqIsOrder();
    forall x, y | x in a && y in a && InputLeq(x, y) && InputLeq(y, x) ensures x == y {
      PartsOrder(KeyOf(CanonicalOf(x)), KeyOf(CanonicalOf(y)), KeyOf(CanonicalOf(x)));
      var i :| 0 <= i < |a| && a[i] == x;
      var j :| 0 <= j < |a| && a[j] == y;
      assert SameProduct(a[i], a[j]);
    }
    SortCanonical(InputLeq, a, b);
  }

  lemma ConsistentPermute(a: seq<InputRef>, b: seq<InputRef>)
    requires Consistent(a) && multiset(a) == multiset(b)
    ensures Consistent(b)
  {
    assert Distinct(a) by {
      forall i, j | 0 <= i < j < |a| ensures a[i] != a[j] { assert !SameProduct(a[i], a[j]); }
    }
    DistinctPermutation(a, b);
    forall i | 0 <= i < |b| ensures exists k :: 0 <= k < |a| && a[k] == b[i] { SameElements(a, b, b[i]); }
    forall i, j | 0 <= i < j < |b|
      ensures !SameProduct(b[i], b[j])
        && (b[i].productKind == b[j].productKind ==> b[i].processorVersion == b[j].processorVersion)
    {
      var k :| 0 <= k < |a| && a[k] == b[i];
      var l :| 0 <= l < |a| && a[l] == b[j];
      assert b[i] != b[j];
    }
  }

  /** The plan made from accepted inputs. */
  function PlanOf(s: Settings, inputs: seq<InputRef>): Plan
  {
    Plan(IdentityOf(s, inputs), SortInputs(inputs), |inputs|)
  }

  /** Every ordering of accepted inputs is accepted and plans the same snapshot: identity, listed inputs and count. */
  lemma PlanIgnoresOrder(s: Settings, a: seq<InputRef>, b: seq<InputRef>, allowEmpty: bool)
    requires multiset(a) == multiset(b) && Plannable(s, a, allowEmpty)
    ensures Plannable(s, b, allowEmpty) && PlanOf(s, a) == PlanOf(s, b)
  {
    ConsistentPermute(a, b);
    SortedInputsAgree(a, b);
    assert |multiset(a)| == |a| && |multiset(b)| == |b|;
  }

  /**
   The bucket is no canonical field: moving an input elsewhere keeps the fingerprint and changes the manifest's
   list.
   */
  lemma BucketIsNotCanonical(s: Settings, i: InputRef, bucket: Id)
    requires bucket != i.bucket
    ensures IdentityOf(s, [i]) == IdentityOf(s, [i.(bucket := bucket)])
      && SortInputs([i]) != SortInputs([i.(bucket := bucket)])
  {
    var j := i.(bucket := bucket);
    assert SortInputs([i]) == [i] && SortInputs([j]) == [j] by { assert [i][1..] == [] && [j][1..] == []; }
    assert Canonicals([i]) == [CanonicalOf(i)] && Canonicals([j]) == [CanonicalOf(j)];
  }
}
