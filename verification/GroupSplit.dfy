/**
 Group-safe train/validation splitting (apps/python-ml-worker/pre_train/splits.py)
 and the partition the training run derives from it (train/loop.py).
 */
module GroupSplit {
  import opened Wrappers
  import opened Orders
  import opened Sequences

  datatype Label = Positive | Negative | Unlabelled

  // `ticId` is the text of the row's target, when it has one.
  datatype Row = Row(ticId: Option<string>, sourceProductId: Option<string>, trainingLabel: Label)

  predicate IsDigits(s: string)
  {
    s != [] && forall i :: 0 <= i < |s| ==> '0' <= s[i] <= '9'
  }

  datatype Key = Key(text: string)

  function GroupKey(r: Row): Key
  {
    if r.ticId.Some? && IsDigits(r.ticId.value) then Key("tic:" + r.ticId.value)
    else Key("source:" + if r.sourceProductId.Some? then r.sourceProductId.value else "unknown")
  }

  predicate KeyLeq(a: Key, b: Key) { LexLeq(a.text, b.text) }

  lemma KeysAreOrdered()
    ensures TotalPreorder(KeyLeq) && Antisymmetric(KeyLeq)
  {
    LexIsTotalOrder();
  }

  // ---- Counting -------------------------------------------------------

  datatype Counts = Counts(rows: nat, positive: nat, negative: nat)

  const ZERO := Counts(0, 0, 0)

  datatype Class = Pos | Neg

  datatype Measure = RowCount | ClassCount(cls: Class)

  function CountFor(c: Counts, m: Measure): nat
  {
    match m
    case RowCount => c.rows
    case ClassCount(Pos) => c.positive
    case ClassCount(Neg) => c.negative
  }

  /** The counts of disjoint collections of rows add up. */
  predicate AddsUp(a: Counts, b: Counts, total: Counts)
  {
    total == Counts(a.rows + b.rows, a.positive + b.positive, a.negative + b.negative)
  }

  predicate IsSupervised(r: Row) { r.trainingLabel != Unlabelled }

  predicate IsPositive(r: Row) { r.trainingLabel == Positive }

  predicate IsNegative(r: Row) { r.trainingLabel == Negative }

  function KeyIs(key: Key): Row -> bool { (r: Row) => GroupKey(r) == key }

  function KeyIn(side: set<Key>): Row -> bool { (r: Row) => GroupKey(r) in side }

  function MemberOf(side: set<Key>): Key -> bool { (k: Key) => k in side }

  function Supervised(rows: seq<Row>): seq<Row> { Filter(IsSupervised, rows) }

  function RowsOf(rows: seq<Row>, key: Key): seq<Row> { Filter(KeyIs(key), rows) }

  function Tally(rows: seq<Row>): Counts
  {
    Counts(|rows|, |Filter(IsPositive, rows)|, |Filter(IsNegative, rows)|)
  }

  /** The group keys in the order a dictionary first meets them. */
  function KeyOrder(rows: seq<Row>): seq<Key>
  {
    if rows == [] then []
    else
      var before := KeyOrder(rows[..|rows| - 1]);
      var key := GroupKey(rows[|rows| - 1]);
      before + if key in before then [] else [key]
  }

  type Table = map<Key, Counts>

  function TableOf(rows: seq<Row>): Table
  {
    map k | k in KeyOrder(rows) :: Tally(RowsOf(rows, k))
  }

  function SortedKeys(rows: seq<Row>): seq<Key> { Sort(KeyLeq, KeyOrder(rows)) }

  function CountsAt(table: Table, k: Key): Counts { if k in table then table[k] else ZERO }

  function Share(table: Table, k: Key, side: set<Key>, m: Measure): nat
  {
    if k in side then CountFor(CountsAt(table, k), m) else 0
  }

  function ShareOf(table: Table, side: set<Key>, m: Measure): Key -> nat { (k: Key) => Share(table, k, side, m) }

  function SideCount(table: Table, keys: seq<Key>, side: set<Key>, m: Measure): nat
  {
    Total(ShareOf(table, side, m), keys)
  }

  /** Total counts of the groups of `keys` that lie in `side`. */
  function SideCounts(table: Table, keys: seq<Key>, side: set<Key>): Counts
  {
    Counts(SideCount(table, keys, side, RowCount),
           SideCount(table, keys, side, ClassCount(Pos)),
           SideCount(table, keys, side, ClassCount(Neg)))
  }

  predicate Covered(train: Counts, validation: Counts)
  {
    train.positive > 0 && train.negative > 0 && validation.positive > 0 && validation.negative > 0
  }

  predicate CoversBoth(table: Table, keys: seq<Key>, train: set<Key>)
  {
    Covered(SideCounts(table, keys, train), SideCounts(table, keys, Members(keys) - train))
  }

  // ---- Specification of the split -------------------------------------

  /** `sorted` by digest is stable, so equal digests fall back on key order. */
  predicate RankLeq(hash: string -> string, a: Key, b: Key)
  {
    if hash(a.text) == hash(b.text) then KeyLeq(a, b) else LexLeq(hash(a.text), hash(b.text))
  }

  function RankOrder(hash: string -> string): (Key, Key) -> bool { (a: Key, b: Key) => RankLeq(hash, a, b) }

  function Ranked(hash: string -> string, keys: seq<Key>): seq<Key> { Sort(RankOrder(hash), keys) }

  function TrainCount(groups: nat, ratio: real): (k: nat)
    requires groups >= 2
    ensures 1 <= k <= groups - 1
  {
    var wanted := (groups as real * ratio).Floor;
    var atLeastOne := if wanted < 1 then 1 else wanted;
    if atLeastOne < groups - 1 then atLeastOne else groups - 1
  }

  function Swap(train: set<Key>, t: Key, v: Key): set<Key> { (train - {t}) + {v} }

  function FirstPartner(ok: set<Key> -> bool, train: set<Key>, t: Key, vs: seq<Key>): Option<Key>
  {
    if vs == [] then None
    else if ok(Swap(train, t, vs[0])) then Some(vs[0])
    else FirstPartner(ok, train, t, vs[1..])
  }

  /** The first exchange, in key order, that makes the train side acceptable. */
  function FirstExchange(ok: set<Key> -> bool, train: set<Key>, ts: seq<Key>, vs: seq<Key>): Option<(Key, Key)>
  {
    if ts == [] then None
    else
      var v := FirstPartner(ok, train, ts[0], vs);
      if v.Some? then Some((ts[0], v.value)) else FirstExchange(ok, train, ts[1..], vs)
  }

  /** Sorted members of a side: the sorted keys that belong to it. */
  function SortedSide(keys: seq<Key>, side: set<Key>): seq<Key> { Filter(MemberOf(side), keys) }

  function Repaired(ok: set<Key> -> bool, keys: seq<Key>, train: set<Key>): set<Key>
  {
    if ok(train) then train
    else
      var e := FirstExchange(ok, train, SortedSide(keys, train), SortedSide(keys, Members(keys) - train));
      if e.Some? then Swap(train, e.value.0, e.value.1) else train
  }

  function Covering(table: Table, keys: seq<Key>): set<Key> -> bool
  {
    (train: set<Key>) => CoversBoth(table, keys, train)
  }

  datatype Side = Train | Validation

  datatype Assignment = Assignment(groupKey: Key, split: Side, counts: Counts)

  datatype Split = Split(
    eligibleRows: nat, eligibleGroups: nat, trainGroups: nat, validationGroups: nat,
    train: Counts, validation: Counts, assignments: seq<Assignment>)

  datatype SplitError = NoSupervisedRows | SingleClassDataset | InsufficientGroups | ClassCoverage

  function Assign(table: Table, keys: seq<Key>, train: set<Key>): seq<Assignment>
  {
    seq(|keys|, i requires 0 <= i < |keys| =>
      Assignment(keys[i], if keys[i] in train then Train else Validation, CountsAt(table, keys[i])))
  }

  function RankedTrain(hash: string -> string, keys: seq<Key>, ratio: real): set<Key>
    requires |keys| >= 2
  {
    Members(Ranked(hash, keys)[..TrainCount(|keys|, ratio)])
  }

  lemma KeysInTable(rows: seq<Row>)
    ensures forall k :: k in SortedKeys(rows) <==> k in TableOf(rows)
  {
    forall k ensures k in SortedKeys(rows) <==> k in KeyOrder(rows) {
      SameElements(SortedKeys(rows), KeyOrder(rows), k);
    }
  }

  /** The split a train side stands for, or the error if a class is missing from a side. */
  function Report(table: Table, keys: seq<Key>, all: Counts, train: set<Key>): Result<Split, SplitError>
  {
    if !CoversBoth(table, keys, train) then Err(ClassCoverage)
    else
      Ok(Split(all.rows, |keys|, |SortedSide(keys, train)|, |SortedSide(keys, Members(keys) - train)|,
               SideCounts(table, keys, train), SideCounts(table, keys, Members(keys) - train),
               Assign(table, keys, train)))
  }

  /** What the split function returns, as a function of the rows' counts per group alone. */
  function SplitOf(table: Table, keys: seq<Key>, all: Counts, ratio: real, hash: string -> string)
    : Result<Split, SplitError>
  {
    if all.rows == 0 then Err(NoSupervisedRows)
    else if all.positive == 0 || all.negative == 0 then Err(SingleClassDataset)
    else if |keys| < 2 then Err(InsufficientGroups)
    else Report(table, keys, all, Repaired(Covering(table, keys), keys, RankedTrain(hash, keys, ratio)))
  }

  function SplitSpec(rows: seq<Row>, ratio: real, hash: string -> string): Result<Split, SplitError>
  {
    SplitOf(TableOf(Supervised(rows)), SortedKeys(Supervised(rows)), Tally(Supervised(rows)), ratio, hash)
  }

  // ---- Facts about the counts -----------------------------------------

  ghost predicate Has(table: Table, k: Key, cls: Class) { CountFor(CountsAt(table, k), ClassCount(cls)) > 0 }

  ghost predicate HasSome(table: Table, side: set<Key>, cls: Class) { exists k :: k in side && Has(table, k, cls) }

  /** Both classes occur on both sides, said of the groups themselves. */
  ghost predicate Covers(table: Table, train: set<Key>, validation: set<Key>)
  {
    forall cls: Class :: HasSome(table, train, cls) && HasSome(table, validation, cls)
  }

  lemma {:induction false} SideHas(table: Table, keys: seq<Key>, side: set<Key>, cls: Class)
    ensures SideCount(table, keys, side, ClassCount(cls)) > 0 <==> HasSome(table, Members(keys) * side, cls)
  {
    if keys != [] {
      var n := |keys| - 1;
      SideHas(table, keys[..n], side, cls);
      assert keys == keys[..n] + [keys[n]];
      assert Members(keys) * side == Members(keys[..n]) * side + if keys[n] in side then {keys[n]} else {};
      if keys[n] in side && Has(table, keys[n], cls) {
        assert keys[n] in Members(keys) * side;
      }
      if HasSome(table, Members(keys[..n]) * side, cls) {
        var k :| k in Members(keys[..n]) * side && Has(table, k, cls);
        assert k in Members(keys) * side;
      }
    }
  }

  lemma CoversBothMeaning(table: Table, keys: seq<Key>, train: set<Key>)
    requires train <= Members(keys)
    ensures CoversBoth(table, keys, train) <==> Covers(table, train, Members(keys) - train)
  {
    var rest := Members(keys) - train;
    assert Members(keys) * train == train && Members(keys) * rest == rest;
    forall cls: Class
      ensures SideCount(table, keys, train, ClassCount(cls)) > 0 <==> HasSome(table, train, cls)
      ensures SideCount(table, keys, rest, ClassCount(cls)) > 0 <==> HasSome(table, rest, cls)
    {
      SideHas(table, keys, train, cls);
      SideHas(table, keys, rest, cls);
    }
    assert HasSome(table, train, Pos) && HasSome(table, train, Neg) && HasSome(table, rest, Pos)
      && HasSome(table, rest, Neg)
      ==> Covers(table, train, rest);
  }

  // ---- Completeness of the exchange search ----------------------------

  ghost predicate NoEmptyGroup(table: Table, side: set<Key>)
  {
    forall k :: k in side ==> exists cls: Class :: Has(table, k, cls)
  }

  function Other(cls: Class): Class { if cls.Pos? then Neg else Pos }

  lemma AnotherMember(s: set<Key>, x: Key) returns (y: Key)
    requires |s| >= 2
    ensures y in s && y != x
  {
    if s - {x} == {} {
      assert s <= {x};
      assert |s| <= |{x}| by { SubsetSize(s, {x}); }
    }
    y :| y in s - {x};
  }

  /** A side without a class is mended by trading any of its groups for one that has the class. */
  lemma ExchangeMends(table: Table, left: set<Key>, right: set<Key>, cls: Class, p: Key, q: Key)
    returns (l: Key, r: Key)
    requires left !! right && |left| >= 2 && |right| >= 2
    requires NoEmptyGroup(table, left)
    requires !HasSome(table, left, cls)
    requires p != q && p in left + right && q in left + right && Has(table, p, cls) && Has(table, q, cls)
    ensures l in left && r in right
    ensures Covers(table, (left - {l}) + {r}, (right - {r}) + {l})
  {
    assert p in right && q in right;
    r := p;
    l :| l in left;
    var l2 := AnotherMember(left, l);
    assert Has(table, l, Other(cls)) && Has(table, l2, Other(cls));
    var left', right' := (left - {l}) + {r}, (right - {r}) + {l};
    assert r in left' && l2 in left' && q in right' && l in right';
    forall c: Class ensures HasSome(table, left', c) && HasSome(table, right', c) {
      assert c == cls || c == Other(cls);
    }
  }

  lemma ExchangeOrCovered(table: Table, train: set<Key>, validation: set<Key>,
                          p: Class -> Key, q: Class -> Key)
    returns (t: Key, v: Key)
    requires train !! validation && |train| >= 2 && |validation| >= 2
    requires NoEmptyGroup(table, train + validation)
    requires forall c ::
      p(c) != q(c) && {p(c), q(c)} <= train + validation && Has(table, p(c), c) && Has(table, q(c), c)
    ensures Covers(table, train, validation) ||
            (t in train && v in validation && Covers(table, Swap(train, t, v), Swap(validation, v, t)))
  {
    t, v := p(Pos), p(Pos);
    if c: Class :| !HasSome(table, train, c) {
      assert NoEmptyGroup(table, train) by {
        forall k | k in train ensures exists cls: Class :: Has(table, k, cls) { assert k in train + validation; }
      }
      t, v := ExchangeMends(table, train, validation, c, p(c), q(c));
    } else if c: Class :| !HasSome(table, validation, c) {
      assert NoEmptyGroup(table, validation) by {
        forall k | k in validation ensures exists cls: Class :: Has(table, k, cls) { assert k in train + validation; }
      }
      v, t := ExchangeMends(table, validation, train, c, p(c), q(c));
    }
  }

  lemma SoleMember(s: set<Key>, x: Key)
    requires |s| == 1 && x in s
    ensures s == {x}
  {
    SubsetSize({x}, s);
    assert s - {x} == {};
  }

  lemma TwoGroups(table: Table, left: set<Key>, right: set<Key>, cls: Class) returns (p: Key, q: Key)
    requires left !! right && HasSome(table, left, cls) && HasSome(table, right, cls)
    ensures p in left && q in right && p != q && Has(table, p, cls) && Has(table, q, cls)
  {
    p :| p in left && Has(table, p, cls);
    q :| q in right && Has(table, q, cls);
  }

  ghost predicate ExchangeCovers(table: Table, all: set<Key>, train: set<Key>)
  {
    exists t, v :: t in train && v in all - train && Covers(table, Swap(train, t, v), all - Swap(train, t, v))
  }

  lemma ExchangeCompleteLarge(table: Table, all: set<Key>, train: set<Key>, other: set<Key>)
    requires train <= all && other <= all && |train| >= 2 && |all - train| >= 2
    requires NoEmptyGroup(table, all)
    requires Covers(table, other, all - other)
    ensures Covers(table, train, all - train) || ExchangeCovers(table, all, train)
  {
    var rest := all - train;
    var pp, pq := TwoGroups(table, other, all - other, Pos);
    var np, nq := TwoGroups(table, other, all - other, Neg);
    assert train + rest == all;
    var t, v := ExchangeOrCovered(table, train, rest,
      (c: Class) => if c.Pos? then pp else np, (c: Class) => if c.Pos? then pq else nq);
    if !Covers(table, train, rest) {
      assert all - Swap(train, t, v) == Swap(rest, v, t);
    }
  }

  /** Two subsets of size one, or two complements of size one, differ by one exchange. */
  lemma OneExchangeApart(all: set<Key>, train: set<Key>, other: set<Key>) returns (t: Key, v: Key)
    requires train <= all && other <= all && |other| == |train| && other != train
    requires |train| == 1 || |all - train| == 1
    ensures t in train && v in all - train && Swap(train, t, v) == other
  {
    SubsetSize(train, all);
    SubsetSize(other, all);
    if |train| == 1 {
      t :| t in train;
      v :| v in other;
      SoleMember(train, t);
      SoleMember(other, v);
    } else {
      v :| v in all - train;
      t :| t in all - other;
      SoleMember(all - train, v);
      SoleMember(all - other, t);
      assert train == all - {v} && other == all - {t};
    }
  }

  /** One exchange is as good as any regrouping: if some side of this size covers, so does an exchange. */
  lemma ExchangeComplete(table: Table, all: set<Key>, train: set<Key>, other: set<Key>)
    requires train <= all && other <= all && |other| == |train|
    requires train != {} && train != all
    requires NoEmptyGroup(table, all)
    requires Covers(table, other, all - other)
    ensures Covers(table, train, all - train) || ExchangeCovers(table, all, train)
  {
    if |train| >= 2 && |all - train| >= 2 {
      ExchangeCompleteLarge(table, all, train, other);
    } else if other != train {
      assert all - train != {} by { assert train + (all - train) == all; }
      var t, v := OneExchangeApart(all, train, other);
    }
  }

  // ---- The search finds an exchange whenever there is one --------------

  lemma {:induction false} FirstPartnerFinds(ok: set<Key> -> bool, train: set<Key>, t: Key, vs: seq<Key>)
    ensures var v := FirstPartner(ok, train, t, vs);
      if v.Some? then v.value in vs && ok(Swap(train, t, v.value))
      else forall w :: w in vs ==> !ok(Swap(train, t, w))
  {
    if vs != [] {
      FirstPartnerFinds(ok, train, t, vs[1..]);
      assert vs == [vs[0]] + vs[1..];
    }
  }

  /** No exchange earlier in the search is acceptable. */
  lemma {:induction false} FirstPartnerIsFirst(ok: set<Key> -> bool, train: set<Key>, t: Key, vs: seq<Key>)
    returns (j: nat)
    requires FirstPartner(ok, train, t, vs).Some?
    ensures j < |vs| && vs[j] == FirstPartner(ok, train, t, vs).value && ok(Swap(train, t, vs[j]))
    ensures forall i :: 0 <= i < j ==> !ok(Swap(train, t, vs[i]))
  {
    if ok(Swap(train, t, vs[0])) {
      j := 0;
    } else {
      var k := FirstPartnerIsFirst(ok, train, t, vs[1..]);
      j := k + 1;
      assert forall i :: 0 < i < j ==> vs[i] == vs[1..][i - 1];
    }
  }

  lemma {:induction false} NoPartner(ok: set<Key> -> bool, train: set<Key>, t: Key, vs: seq<Key>)
    requires FirstPartner(ok, train, t, vs).None?
    ensures forall j :: 0 <= j < |vs| ==> !ok(Swap(train, t, vs[j]))
  {
    if vs != [] {
      NoPartner(ok, train, t, vs[1..]);
      assert forall j :: 0 < j < |vs| ==> vs[j] == vs[1..][j - 1];
    }
  }

  /** The exchange found is the first acceptable one, train group by train group. */
  lemma {:induction false} FirstExchangeIsFirst(ok: set<Key> -> bool, train: set<Key>, ts: seq<Key>, vs: seq<Key>)
    returns (i: nat, j: nat)
    requires FirstExchange(ok, train, ts, vs).Some?
    ensures i < |ts| && j < |vs| && FirstExchange(ok, train, ts, vs) == Some((ts[i], vs[j]))
    ensures ok(Swap(train, ts[i], vs[j]))
    ensures forall a, b :: 0 <= a < |ts| && 0 <= b < |vs| && (a < i || (a == i && b < j)) ==>
      !ok(Swap(train, ts[a], vs[b]))
  {
    if FirstPartner(ok, train, ts[0], vs).Some? {
      i := 0;
      j := FirstPartnerIsFirst(ok, train, ts[0], vs);
    } else {
      NoPartner(ok, train, ts[0], vs);
      var k;
      k, j := FirstExchangeIsFirst(ok, train, ts[1..], vs);
      i := k + 1;
      assert forall a :: 0 < a < |ts| ==> ts[a] == ts[1..][a - 1];
    }
  }

  lemma {:induction false} FirstExchangeFinds(ok: set<Key> -> bool, train: set<Key>, ts: seq<Key>, vs: seq<Key>)
    ensures var e := FirstExchange(ok, train, ts, vs);
      if e.Some? then e.value.0 in ts && e.value.1 in vs && ok(Swap(train, e.value.0, e.value.1))
      else forall t, w :: t in ts && w in vs ==> !ok(Swap(train, t, w))
  {
    if ts != [] {
      FirstPartnerFinds(ok, train, ts[0], vs);
      FirstExchangeFinds(ok, train, ts[1..], vs);
      assert ts == [ts[0]] + ts[1..];
    }
  }

  lemma SortedSideMembers(keys: seq<Key>, side: set<Key>)
    requires side <= Members(keys)
    ensures Members(SortedSide(keys, side)) == side
  {
    forall k ensures k in SortedSide(keys, side) <==> k in side {
      FilterMember(MemberOf(side), keys, k);
    }
  }

  lemma RepairedShape(ok: set<Key> -> bool, keys: seq<Key>, train: set<Key>)
    requires train <= Members(keys)
    ensures Repaired(ok, keys, train) <= Members(keys)
    ensures |Repaired(ok, keys, train)| == |train|
    ensures !ok(Repaired(ok, keys, train)) ==>
      !ok(train) && forall t, v :: t in train && v in Members(keys) - train ==> !ok(Swap(train, t, v))
  {
    var ts, vs := SortedSide(keys, train), SortedSide(keys, Members(keys) - train);
    SortedSideMembers(keys, train);
    SortedSideMembers(keys, Members(keys) - train);
    FirstExchangeFinds(ok, train, ts, vs);
    if !ok(train) {
      var e := FirstExchange(ok, train, ts, vs);
      if e.Some? {
        assert e.value.0 in Members(ts) && e.value.1 in Members(vs);
        SwapSize(train, e.value.0, e.value.1);
      } else {
        forall t, v | t in train && v in Members(keys) - train ensures !ok(Swap(train, t, v)) {
          assert t in Members(ts) && v in Members(vs);
        }
      }
    }
  }

  lemma OtherSideRepairs(table: Table, keys: seq<Key>, train: set<Key>, other: set<Key>)
    requires train <= Members(keys) && train != {} && train != Members(keys)
    requires NoEmptyGroup(table, Members(keys))
    requires other <= Members(keys) && |other| == |train| && Covers(table, other, Members(keys) - other)
    ensures CoversBoth(table, keys, Repaired(Covering(table, keys), keys, train))
  {
    var all := Members(keys);
    RepairedShape(Covering(table, keys), keys, train);
    ExchangeComplete(table, all, train, other);
    if Covers(table, train, all - train) {
      CoversBothMeaning(table, keys, train);
      assert Covering(table, keys)(train);
    } else {
      var t, v :| t in train && v in all - train && Covers(table, Swap(train, t, v), all - Swap(train, t, v));
      CoversBothMeaning(table, keys, Swap(train, t, v));
      assert Covering(table, keys)(Swap(train, t, v));
    }
  }

  /** The repair keeps the size of the train side, and covers exactly when some side of that size does. */
  lemma RepairedCovers(table: Table, keys: seq<Key>, train: set<Key>)
    requires train <= Members(keys) && train != {} && train != Members(keys)
    requires NoEmptyGroup(table, Members(keys))
    ensures CoversBoth(table, keys, Repaired(Covering(table, keys), keys, train)) <==>
            exists other :: other <= Members(keys) && |other| == |train| && Covers(table, other, Members(keys) - other)
  {
    var all, after := Members(keys), Repaired(Covering(table, keys), keys, train);
    if CoversBoth(table, keys, after) {
      RepairedShape(Covering(table, keys), keys, train);
      CoversBothMeaning(table, keys, after);
    }
    if other :| other <= all && |other| == |train| && Covers(table, other, all - other) {
      OtherSideRepairs(table, keys, train, other);
    }
  }

  // ---- Facts about grouping rows ---------------------------------------

  lemma {:induction false} KeyOrderFacts(rows: seq<Row>)
    ensures Distinct(KeyOrder(rows))
    ensures forall r :: r in rows ==> GroupKey(r) in KeyOrder(rows)
    ensures forall k :: k in KeyOrder(rows) ==> exists r :: r in rows && GroupKey(r) == k
  {
    if rows != [] {
      var n := |rows| - 1;
      KeyOrderFacts(rows[..n]);
      assert rows == rows[..n] + [rows[n]];
      forall k | k in KeyOrder(rows) ensures exists r :: r in rows && GroupKey(r) == k {
        if k in KeyOrder(rows[..n]) {
          var r :| r in rows[..n] && GroupKey(r) == k;
          assert r in rows;
        } else {
          assert rows[n] in rows;
        }
      }
    }
  }

  lemma GroupMember(rows: seq<Row>, k: Key) returns (r: Row)
    requires k in KeyOrder(rows)
    ensures r in rows && GroupKey(r) == k
  {
    KeyOrderFacts(rows);
    r :| r in rows && GroupKey(r) == k;
  }

  lemma KeyOrderDistinct(rows: seq<Row>)
    ensures Distinct(KeyOrder(rows))
  {}

  lemma SortedKeysFacts(rows: seq<Row>)
    ensures Distinct(SortedKeys(rows)) && Sorted(KeyLeq, SortedKeys(rows))
    ensures Members(SortedKeys(rows)) == TableOf(rows).Keys
  {
    KeyOrderFacts(rows);
    KeysAreOrdered();
    SortSorts(KeyLeq, KeyOrder(rows));
    DistinctPermutation(KeyOrder(rows), SortedKeys(rows));
    KeysInTable(rows);
  }

  lemma FilterHolds(p: Row -> bool, rows: seq<Row>)
    ensures forall r :: r in Filter(p, rows) ==> p(r) && r in rows
  {}

  lemma RowCountsInGroup(rows: seq<Row>, r: Row, cls: Class)
    requires r in rows && CountedBy(r, ClassCount(cls))
    ensures Has(TableOf(rows), GroupKey(r), cls)
  {
    var mine := RowsOf(rows, GroupKey(r));
    FilterMember(KeyIs(GroupKey(r)), rows, r);
    CountsAtTally(rows, GroupKey(r));
    if cls.Pos? {
      FilterMember(IsPositive, mine, r);
    } else {
      FilterMember(IsNegative, mine, r);
    }
  }

  /** Every group of supervised rows holds a row of one class or the other. */
  lemma GroupsAreInhabited(rows: seq<Row>)
    requires forall r :: r in rows ==> r.trainingLabel != Unlabelled
    ensures NoEmptyGroup(TableOf(rows), TableOf(rows).Keys)
  {
    forall k | k in TableOf(rows) ensures exists cls: Class :: Has(TableOf(rows), k, cls) {
      var r := GroupMember(rows, k);
      RowCountsInGroup(rows, r, if r.trainingLabel == Positive then Pos else Neg);
    }
  }

  lemma RankedTrainFacts(hash: string -> string, keys: seq<Key>, ratio: real)
    requires Distinct(keys) && |keys| >= 2
    ensures var train := RankedTrain(hash, keys, ratio);
      train <= Members(keys) && |train| == TrainCount(|keys|, ratio) && train != {} && train != Members(keys)
  {
    var ranked := Ranked(hash, keys);
    DistinctPermutation(keys, ranked);
    var k := TrainCount(|keys|, ratio);
    DistinctSize(ranked[..k]);
    DistinctSize(keys);
    forall x | x in ranked[..k] ensures x in keys { SameElements(ranked, keys, x); }
  }

  // ---- Main results ----------------------------------------------------

  ghost predicate SomeSideCovers(rows: seq<Row>, size: nat)
  {
    exists side: set<Key> ::
      side <= TableOf(rows).Keys && |side| == size && Covers(TableOf(rows), side, TableOf(rows).Keys - side)
  }

  /** The hypotheses of the three dataset errors, negated. */
  ghost predicate Splittable(rows: seq<Row>)
  {
    Tally(Supervised(rows)).positive > 0 && Tally(Supervised(rows)).negative > 0 && |SortedKeys(Supervised(rows))| >= 2
  }

  /**
   The split fails for want of class coverage exactly when no train side of that size would do:
   the single-exchange search misses nothing a full search would find.
   */
  lemma SplitSucceedsExactly(rows: seq<Row>, ratio: real, hash: string -> string)
    requires Splittable(rows)
    ensures SplitSpec(rows, ratio, hash).Ok? <==>
            SomeSideCovers(Supervised(rows), TrainCount(|SortedKeys(Supervised(rows))|, ratio))
    ensures SplitSpec(rows, ratio, hash).Err? ==> SplitSpec(rows, ratio, hash).error == ClassCoverage
  {
    var sup := Supervised(rows);
    var table, keys := TableOf(sup), SortedKeys(sup);
    SortedKeysFacts(sup);
    FilterHolds(IsSupervised, rows);
    GroupsAreInhabited(sup);
    var train := RankedTrain(hash, keys, ratio);
    RankedTrainFacts(hash, keys, ratio);
    RepairedCovers(table, keys, train);
    assert Members(keys) == table.Keys;
  }

  /** At ratio 0.8, six groups leave at least two on each side. */
  lemma SixGroupsLeaveTwo(n: nat)
    requires n >= 6
    ensures 2 <= TrainCount(n, 0.8) <= n - 2
  {}

  ghost predicate InTwoGroups(table: Table, cls: Class)
  {
    exists p, q :: p != q && Has(table, p, cls) && Has(table, q, cls)
  }

  lemma SwapSize(train: set<Key>, t: Key, v: Key)
    requires t in train && v !in train
    ensures |Swap(train, t, v)| == |train|
  {}

  /** Two groups of each class suffice for a covering side of any size that leaves two on each side. */
  lemma TwoGroupsSuffice(table: Table, train: set<Key>) returns (side: set<Key>)
    requires train <= table.Keys && |train| >= 2 && |table.Keys - train| >= 2
    requires NoEmptyGroup(table, table.Keys)
    requires InTwoGroups(table, Pos) && InTwoGroups(table, Neg)
    ensures side <= table.Keys && |side| == |train| && Covers(table, side, table.Keys - side)
  {
    var pp, pq :| pp != pq && Has(table, pp, Pos) && Has(table, pq, Pos);
    var np, nq :| np != nq && Has(table, np, Neg) && Has(table, nq, Neg);
    var rest := table.Keys - train;
    assert train + rest == table.Keys;
    var t, v := ExchangeOrCovered(table, train, rest,
      (c: Class) => if c.Pos? then pp else np, (c: Class) => if c.Pos? then pq else nq);
    if Covers(table, train, rest) {
      side := train;
    } else {
      side := Swap(train, t, v);
      assert table.Keys - side == Swap(rest, v, t);
      SwapSize(train, t, v);
    }
  }

  lemma SomeSideOfSize(keys: seq<Key>, k: nat) returns (side: set<Key>)
    requires Distinct(keys) && k <= |keys|
    ensures side <= Members(keys) && |side| == k && |Members(keys) - side| == |keys| - k
  {
    side := Members(keys[..k]);
    DistinctSize(keys[..k]);
    DistinctSize(keys);
    assert side <= Members(keys);
    SubsetSize(side, Members(keys));
  }

  /** With six or more groups at ratio 0.8, the split succeeds exactly when each class occurs in two groups. */
  lemma SixGroupsSplit(rows: seq<Row>, hash: string -> string)
    requires Splittable(rows) && |SortedKeys(Supervised(rows))| >= 6
    ensures SplitSpec(rows, 0.8, hash).Ok? <==>
            InTwoGroups(TableOf(Supervised(rows)), Pos) && InTwoGroups(TableOf(Supervised(rows)), Neg)
  {
    var sup := Supervised(rows);
    var table, keys := TableOf(sup), SortedKeys(sup);
    var k := TrainCount(|keys|, 0.8);
    SplitSucceedsExactly(rows, 0.8, hash);
    if SomeSideCovers(sup, k) {
      var side :| side <= table.Keys && |side| == k && Covers(table, side, table.Keys - side);
      var pp, pq := TwoGroups(table, side, table.Keys - side, Pos);
      var np, nq := TwoGroups(table, side, table.Keys - side, Neg);
    }
    if InTwoGroups(table, Pos) && InTwoGroups(table, Neg) {
      SixGroupsLeaveTwo(|keys|);
      SortedKeysFacts(sup);
      FilterHolds(IsSupervised, rows);
      GroupsAreInhabited(sup);
      var train := SomeSideOfSize(keys, k);
      var side := TwoGroupsSuffice(table, train);
    }
  }

  // ---- Conservation ----------------------------------------------------

  predicate CountedBy(r: Row, m: Measure)
  {
    match m
    case RowCount => true
    case ClassCount(Pos) => r.trainingLabel == Positive
    case ClassCount(Neg) => r.trainingLabel == Negative
  }

  lemma TallySnoc(rows: seq<Row>, r: Row, m: Measure)
    ensures CountFor(Tally(rows + [r]), m) == CountFor(Tally(rows), m) + if CountedBy(r, m) then 1 else 0
  {}

  function InSide(rows: seq<Row>, side: set<Key>): seq<Row> { Filter(KeyIn(side), rows) }

  lemma KeyOrderSnoc(rows: seq<Row>, r: Row)
    ensures KeyOrder(rows + [r]) == KeyOrder(rows) + if GroupKey(r) in KeyOrder(rows) then [] else [GroupKey(r)]
  {}

  lemma NoRowsOf(rows: seq<Row>, key: Key)
    requires key !in KeyOrder(rows)
    ensures RowsOf(rows, key) == []
  {}

  lemma CountsAtTally(rows: seq<Row>, key: Key)
    ensures CountsAt(TableOf(rows), key) == Tally(RowsOf(rows, key))
  {
    if key !in KeyOrder(rows) {
      NoRowsOf(rows, key);
    }
  }

  /** How one more row changes the counts of a group. */
  lemma TableSnoc(rows: seq<Row>, r: Row, k: Key, m: Measure)
    ensures CountFor(CountsAt(TableOf(rows + [r]), k), m) ==
            CountFor(CountsAt(TableOf(rows), k), m) + if GroupKey(r) == k && CountedBy(r, m) then 1 else 0
  {
    CountsAtTally(rows, k);
    CountsAtTally(rows + [r], k);
    var mine := RowsOf(rows, k);
    FilterSnoc(KeyIs(k), rows, r);
    if GroupKey(r) == k {
      assert RowsOf(rows + [r], k) == mine + [r];
      TallySnoc(mine, r, m);
    } else {
      assert RowsOf(rows + [r], k) == mine;
    }
  }

  lemma ShareSnoc(rows: seq<Row>, r: Row, side: set<Key>, k: Key, m: Measure)
    ensures Share(TableOf(rows + [r]), k, side, m) == Share(TableOf(rows), k, side, m) +
              if GroupKey(r) == k && k in side && CountedBy(r, m) then 1 else 0
  {
    TableSnoc(rows, r, k, m);
  }

  /** One more group at the end of a listing, or one more row in a listed group. */
  lemma TotalGrows(before: Key -> nat, after: Key -> nat, keys: seq<Key>, key: Key, d: nat)
    requires Distinct(keys)
    requires forall k :: after(k) == before(k) + if k == key then d else 0
    requires key !in keys ==> before(key) == 0
    ensures Total(after, if key in keys then keys else keys + [key]) == Total(before, keys) + d
  {
    TotalRaise(before, after, keys, key, d);
    if key !in keys {
      TotalSnoc(after, keys, key);
    }
  }

  lemma SideCountGrow(rows: seq<Row>, r: Row, side: set<Key>, m: Measure)
    ensures SideCount(TableOf(rows + [r]), KeyOrder(rows + [r]), side, m) ==
            SideCount(TableOf(rows), KeyOrder(rows), side, m) + if GroupKey(r) in side && CountedBy(r, m) then 1 else 0
  {
    var key, keys := GroupKey(r), KeyOrder(rows);
    var before, after := ShareOf(TableOf(rows), side, m), ShareOf(TableOf(rows + [r]), side, m);
    var d := if key in side && CountedBy(r, m) then 1 else 0;
    forall k ensures after(k) == before(k) + if k == key then d else 0 {
      ShareSnoc(rows, r, side, k, m);
    }
    KeyOrderDistinct(rows);
    TotalGrows(before, after, keys, key, d);
    KeyOrderSnoc(rows, r);
    assert KeyOrder(rows + [r]) == if key in keys then keys else keys + [key];
  }

  /** The counts accumulated group by group are the counts of the rows themselves. */
  lemma {:induction false} SideTally(rows: seq<Row>, side: set<Key>, m: Measure)
    ensures SideCount(TableOf(rows), KeyOrder(rows), side, m) == CountFor(Tally(InSide(rows, side)), m)
  {
    if rows != [] {
      var init, r := rows[..|rows| - 1], rows[|rows| - 1];
      assert rows == init + [r];
      SideTally(init, side, m);
      SideCountGrow(init, r, side, m);
      FilterSnoc(KeyIn(side), init, r);
      if GroupKey(r) in side {
        assert InSide(rows, side) == InSide(init, side) + [r];
        TallySnoc(InSide(init, side), r, m);
      } else {
        assert InSide(rows, side) == InSide(init, side);
      }
    }
  }

  lemma {:induction false} SideCountSplit(table: Table, keys: seq<Key>, side: set<Key>, all: set<Key>, m: Measure)
    requires forall i :: 0 <= i < |keys| ==> keys[i] in all
    ensures SideCount(table, keys, side, m) + SideCount(table, keys, all - side, m) == SideCount(table, keys, all, m)
  {
    if keys != [] {
      SideCountSplit(table, keys[..|keys| - 1], side, all, m);
    }
  }

  lemma SideRows(rows: seq<Row>, side: set<Key>)
    ensures SideCounts(TableOf(rows), SortedKeys(rows), side) == Tally(InSide(rows, side))
  {
    forall m: Measure
      ensures SideCount(TableOf(rows), SortedKeys(rows), side, m) == CountFor(Tally(InSide(rows, side)), m)
    {
      SideTally(rows, side, m);
      TotalPermute(ShareOf(TableOf(rows), side, m), SortedKeys(rows), KeyOrder(rows));
    }
  }

  lemma AllRowsInSide(rows: seq<Row>)
    ensures InSide(rows, Members(SortedKeys(rows))) == rows
  {
    KeyOrderFacts(rows);
    KeysInTable(rows);
    FilterAll(KeyIn(Members(SortedKeys(rows))), rows);
  }

  /** The two sides together hold every row once. */
  lemma SidesConserve(rows: seq<Row>, side: set<Key>)
    ensures AddsUp(Tally(InSide(rows, side)), Tally(InSide(rows, Members(SortedKeys(rows)) - side)), Tally(rows))
  {
    var table, keys := TableOf(rows), SortedKeys(rows);
    var all := Members(keys);
    SideRows(rows, side);
    SideRows(rows, all - side);
    SideRows(rows, all);
    AllRowsInSide(rows);
    forall m: Measure
      ensures SideCount(table, keys, side, m) + SideCount(table, keys, all - side, m) == SideCount(table, keys, all, m)
    {
      SideCountSplit(table, keys, side, all, m);
    }
  }

  // ---- A returned split is a partition ---------------------------------

  /** The side a row's group is assigned to; `assignment_map` keeps the last entry of a key. */
  function SideOf(assignments: seq<Assignment>, key: Key): Option<Side>
  {
    if assignments == [] then None
    else
      var last := assignments[|assignments| - 1];
      if last.groupKey == key then Some(last.split) else SideOf(assignments[..|assignments| - 1], key)
  }

  function AssignedTo(assignments: seq<Assignment>, side: Side): Row -> bool
  {
    (r: Row) => SideOf(assignments, GroupKey(r)) == Some(side)
  }

  function RowsOn(assignments: seq<Assignment>, rows: seq<Row>, side: Side): seq<Row>
  {
    Filter(AssignedTo(assignments, side), Supervised(rows))
  }

  lemma {:induction false} SideOfAssign(table: Table, keys: seq<Key>, train: set<Key>, key: Key)
    ensures SideOf(Assign(table, keys, train), key) ==
            if key in keys then Some(if key in train then Train else Validation) else None
  {
    if keys != [] {
      var n := |keys| - 1;
      assert Assign(table, keys, train)[..n] == Assign(table, keys[..n], train);
      assert keys == keys[..n] + [keys[n]];
      SideOfAssign(table, keys[..n], train, key);
    }
  }

  /** The train side of a successful split. */
  ghost function FinalTrain(rows: seq<Row>, ratio: real, hash: string -> string): set<Key>
    requires |SortedKeys(rows)| >= 2
  {
    Repaired(Covering(TableOf(rows), SortedKeys(rows)), SortedKeys(rows), RankedTrain(hash, SortedKeys(rows), ratio))
  }

  lemma RowsOnSides(rows: seq<Row>, ratio: real, hash: string -> string)
    requires SplitSpec(rows, ratio, hash).Ok?
    ensures var sup, a := Supervised(rows), SplitSpec(rows, ratio, hash).value.assignments;
      var train := FinalTrain(sup, ratio, hash);
      && RowsOn(a, rows, Train) == InSide(sup, train)
      && RowsOn(a, rows, Validation) == InSide(sup, Members(SortedKeys(sup)) - train)
  {
    var sup, a := Supervised(rows), SplitSpec(rows, ratio, hash).value.assignments;
    var keys, train := SortedKeys(sup), FinalTrain(sup, ratio, hash);
    KeyOrderFacts(sup);
    KeysInTable(sup);
    forall i | 0 <= i < |sup|
      ensures AssignedTo(a, Train)(sup[i]) == KeyIn(train)(sup[i])
      ensures AssignedTo(a, Validation)(sup[i]) == KeyIn(Members(keys) - train)(sup[i])
    {
      SideOfAssign(TableOf(sup), keys, train, GroupKey(sup[i]));
      assert sup[i] in sup;
    }
    FilterAgree(AssignedTo(a, Train), KeyIn(train), sup);
    FilterAgree(AssignedTo(a, Validation), KeyIn(Members(keys) - train), sup);
  }

  lemma GroupCounts(rows: seq<Row>, train: set<Key>)
    requires train <= Members(SortedKeys(rows))
    ensures |SortedSide(SortedKeys(rows), train)| == |train|
    ensures |SortedSide(SortedKeys(rows), Members(SortedKeys(rows)) - train)| == |SortedKeys(rows)| - |train|
  {
    var keys := SortedKeys(rows);
    SortedKeysFacts(rows);
    SideSize(keys, train);
    SideSize(keys, Members(keys) - train);
    DistinctSize(keys);
    SubsetSize(train, Members(keys));
  }

  lemma SideSize(keys: seq<Key>, side: set<Key>)
    requires Distinct(keys) && side <= Members(keys)
    ensures |SortedSide(keys, side)| == |side|
  {
    SortedSideMembers(keys, side);
    FilterDistinct(MemberOf(side), keys);
    DistinctSize(SortedSide(keys, side));
  }

  lemma {:induction false} FilterDistinct(p: Key -> bool, keys: seq<Key>)
    requires Distinct(keys)
    ensures Distinct(Filter(p, keys))
  {
    if keys != [] {
      var n := |keys| - 1;
      FilterDistinct(p, keys[..n]);
      var before := Filter(p, keys[..n]);
      forall i | 0 <= i < |before| ensures before[i] != keys[n] {
        FilterMember(p, keys[..n], before[i]);
      }
    }
  }

  lemma SplitCounts(rows: seq<Row>, ratio: real, hash: string -> string)
    requires SplitSpec(rows, ratio, hash).Ok?
    ensures var s, sup := SplitSpec(rows, ratio, hash).value, Supervised(rows);
      && s.train == Tally(RowsOn(s.assignments, rows, Train))
      && s.validation == Tally(RowsOn(s.assignments, rows, Validation))
      && AddsUp(s.train, s.validation, Tally(sup)) && s.eligibleRows == |sup|
      && Covered(s.train, s.validation)
  {
    var sup := Supervised(rows);
    var keys, train := SortedKeys(sup), FinalTrain(sup, ratio, hash);
    RowsOnSides(rows, ratio, hash);
    SideRows(sup, train);
    SideRows(sup, Members(keys) - train);
    SidesConserve(sup, train);
  }

  lemma SplitGroupCounts(rows: seq<Row>, ratio: real, hash: string -> string)
    requires SplitSpec(rows, ratio, hash).Ok?
    ensures var s := SplitSpec(rows, ratio, hash).value;
      && s.eligibleGroups == |s.assignments| >= 2
      && s.trainGroups == TrainCount(s.eligibleGroups, ratio)
      && s.trainGroups + s.validationGroups == s.eligibleGroups
  {
    var sup := Supervised(rows);
    var keys := SortedKeys(sup);
    SortedKeysFacts(sup);
    RankedTrainFacts(hash, keys, ratio);
    RepairedShape(Covering(TableOf(sup), keys), keys, RankedTrain(hash, keys, ratio));
    GroupCounts(sup, FinalTrain(sup, ratio, hash));
  }

  lemma AssignmentsDistinct(table: Table, keys: seq<Key>, train: set<Key>)
    requires Distinct(keys)
    ensures var a := Assign(table, keys, train);
      forall i, j :: 0 <= i < j < |a| ==> a[i].groupKey != a[j].groupKey
  {}

  lemma SplitAssignments(rows: seq<Row>, ratio: real, hash: string -> string)
    requires SplitSpec(rows, ratio, hash).Ok?
    ensures var a := SplitSpec(rows, ratio, hash).value.assignments;
      forall i, j :: 0 <= i < j < |a| ==> a[i].groupKey != a[j].groupKey
  {
    var sup := Supervised(rows);
    SortedKeysFacts(sup);
    AssignmentsDistinct(TableOf(sup), SortedKeys(sup), FinalTrain(sup, ratio, hash));
  }

  /**
   A split that is returned is a partition of the supervised rows by group: each group is assigned once,
   the two sides' counts are those of the rows assigned to them, they add up, each side holds both
   classes, and the train side has the size the ratio asked for.
   */
  lemma SplitIsPartition(rows: seq<Row>, ratio: real, hash: string -> string)
    requires SplitSpec(rows, ratio, hash).Ok?
    ensures var s := SplitSpec(rows, ratio, hash).value;
      && s.train == Tally(RowsOn(s.assignments, rows, Train))
      && s.validation == Tally(RowsOn(s.assignments, rows, Validation))
      && AddsUp(s.train, s.validation, Tally(Supervised(rows)))
      && Covered(s.train, s.validation)
      && s.eligibleGroups == |s.assignments| >= 2
      && s.trainGroups == TrainCount(s.eligibleGroups, ratio)
      && s.trainGroups + s.validationGroups == s.eligibleGroups
      && (forall i, j :: 0 <= i < j < |s.assignments| ==> s.assignments[i].groupKey != s.assignments[j].groupKey)
  {
    SplitCounts(rows, ratio, hash);
    SplitGroupCounts(rows, ratio, hash);
    SplitAssignments(rows, ratio, hash);
  }

  // ---- Row order does not matter ---------------------------------------

  lemma TallyMultiset(a: seq<Row>, b: seq<Row>)
    requires multiset(a) == multiset(b)
    ensures Tally(a) == Tally(b)
  {
    assert |multiset(a)| == |a| && |multiset(b)| == |b|;
    FilterMultiset(IsPositive, a, b);
    FilterMultiset(IsNegative, a, b);
  }

  lemma KeyOrderMultiset(a: seq<Row>, b: seq<Row>)
    requires multiset(a) == multiset(b)
    ensures multiset(KeyOrder(a)) == multiset(KeyOrder(b))
  {
    KeyOrderFacts(a);
    KeyOrderFacts(b);
    forall r ensures r in a <==> r in b { SameElements(a, b, r); }
    DistinctSameMembers(KeyOrder(a), KeyOrder(b));
  }

  lemma SortedKeysMultiset(a: seq<Row>, b: seq<Row>)
    requires multiset(a) == multiset(b)
    ensures SortedKeys(a) == SortedKeys(b)
  {
    KeyOrderMultiset(a, b);
    KeysAreOrdered();
    SortCanonical(KeyLeq, KeyOrder(a), KeyOrder(b));
  }

  lemma TableMultiset(a: seq<Row>, b: seq<Row>)
    requires multiset(a) == multiset(b)
    ensures TableOf(a) == TableOf(b)
  {
    KeyOrderMultiset(a, b);
    forall k ensures k in KeyOrder(a) <==> k in KeyOrder(b) { SameElements(KeyOrder(a), KeyOrder(b), k); }
    forall k ensures Tally(RowsOf(a, k)) == Tally(RowsOf(b, k)) {
      FilterMultiset(KeyIs(k), a, b);
      TallyMultiset(RowsOf(a, k), RowsOf(b, k));
    }
  }

  /** The result, errors included, is the same for every ordering of the input rows. */
  lemma SplitOrderIndependent(a: seq<Row>, b: seq<Row>, ratio: real, hash: string -> string)
    requires multiset(a) == multiset(b)
    ensures SplitSpec(a, ratio, hash) == SplitSpec(b, ratio, hash)
  {
    FilterMultiset(IsSupervised, a, b);
    TableMultiset(Supervised(a), Supervised(b));
    SortedKeysMultiset(Supervised(a), Supervised(b));
    TallyMultiset(Supervised(a), Supervised(b));
  }

  // ---- The split as the service computes it ----------------------------

  function GroupsOf(rows: seq<Row>): map<Key, seq<Row>>
  {
    map k | k in KeyOrder(rows) :: RowsOf(rows, k)
  }

  lemma RowsOfSnoc(rows: seq<Row>, r: Row, k: Key)
    ensures RowsOf(rows + [r], k) == if GroupKey(r) == k then RowsOf(rows, k) + [r] else RowsOf(rows, k)
  {}

  lemma GroupsSnoc(rows: seq<Row>, r: Row)
    ensures GroupsOf(rows + [r]) == GroupsOf(rows)[GroupKey(r) := RowsOf(rows, GroupKey(r)) + [r]]
  {
    KeyOrderSnoc(rows, r);
    var after := GroupsOf(rows)[GroupKey(r) := RowsOf(rows, GroupKey(r)) + [r]];
    assert GroupsOf(rows + [r]).Keys == after.Keys;
    forall k | k in after ensures GroupsOf(rows + [r])[k] == after[k] {
      RowsOfSnoc(rows, r, k);
    }
  }

  /** Group the rows by target, as a dictionary filled in row order. */
  method GroupRows(rows: seq<Row>) returns (groups: map<Key, seq<Row>>, order: seq<Key>)
    ensures order == KeyOrder(rows)
    ensures groups == GroupsOf(rows)
  {
    groups, order := map[], [];
    for i := 0 to |rows|
      invariant order == KeyOrder(rows[..i])
      invariant groups == GroupsOf(rows[..i])
    {
      var gk := GroupKey(rows[i]);
      assert rows[..i + 1] == rows[..i] + [rows[i]];
      KeyOrderSnoc(rows[..i], rows[i]);
      GroupsSnoc(rows[..i], rows[i]);
      if gk in groups {
        groups := groups[gk := groups[gk] + [rows[i]]];
      } else {
        NoRowsOf(rows[..i], gk);
        assert RowsOf(rows[..i], gk) + [rows[i]] == [rows[i]];
        groups := groups[gk := [rows[i]]];
        order := order + [gk];
      }
    }
    assert rows[..|rows|] == rows;
  }

  /** Try the exchanges in key order and keep the first that covers. */
  method RepairTrain(table: Table, keys: seq<Key>, ranked: set<Key>) returns (train: set<Key>)
    ensures train == Repaired(Covering(table, keys), keys, ranked)
  {
    train := ranked;
    if CoversBoth(table, keys, train) {
      return;
    }
    ghost var ok := Covering(table, keys);
    var ts, vs := SortedSide(keys, ranked), SortedSide(keys, Members(keys) - ranked);
    for i := 0 to |ts|
      invariant FirstExchange(ok, ranked, ts, vs) == FirstExchange(ok, ranked, ts[i..], vs)
      invariant train == ranked
    {
      for j := 0 to |vs|
        invariant FirstPartner(ok, ranked, ts[i], vs) == FirstPartner(ok, ranked, ts[i], vs[j..])
        invariant train == ranked
      {
        var candidate := Swap(ranked, ts[i], vs[j]);
        if CoversBoth(table, keys, candidate) {
          train := candidate;
          return;
        }
      }
    }
  }

  function PlusCounts(a: Counts, b: Counts): Counts
  {
    Counts(a.rows + b.rows, a.positive + b.positive, a.negative + b.negative)
  }

  lemma SideCountsSnoc(table: Table, keys: seq<Key>, k: Key, side: set<Key>)
    ensures SideCounts(table, keys + [k], side) ==
            if k in side then PlusCounts(SideCounts(table, keys, side), CountsAt(table, k))
              else SideCounts(table, keys, side)
  {}

  lemma AssignSnoc(table: Table, keys: seq<Key>, k: Key, train: set<Key>)
    ensures Assign(table, keys + [k], train) ==
            Assign(table, keys, train) + [Assignment(k, if k in train then Train else Validation, CountsAt(table, k))]
  {}

  /** Count the groups and rows of each side and write one assignment per group. */
  method CountSides(table: Table, keys: seq<Key>, train: set<Key>, validation: set<Key>)
    returns (trainGroups: nat, validationGroups: nat, onTrain: Counts, onValidation: Counts,
             assignments: seq<Assignment>)
    requires forall i :: 0 <= i < |keys| ==> keys[i] in table && (keys[i] in train <==> keys[i] !in validation)
    ensures trainGroups == |SortedSide(keys, train)| && validationGroups == |SortedSide(keys, validation)|
    ensures onTrain == SideCounts(table, keys, train) && onValidation == SideCounts(table, keys, validation)
    ensures assignments == Assign(table, keys, train)
  {
    trainGroups, validationGroups, onTrain, onValidation, assignments := 0, 0, ZERO, ZERO, [];
    for i := 0 to |keys|
      invariant onTrain == SideCounts(table, keys[..i], train)
      invariant onValidation == SideCounts(table, keys[..i], validation)
      invariant trainGroups == |SortedSide(keys[..i], train)|
      invariant validationGroups == |SortedSide(keys[..i], validation)|
      invariant assignments == Assign(table, keys[..i], train)
    {
      assert keys[..i + 1] == keys[..i] + [keys[i]];
      FilterSnoc(MemberOf(train), keys[..i], keys[i]);
      FilterSnoc(MemberOf(validation), keys[..i], keys[i]);
      SideCountsSnoc(table, keys[..i], keys[i], train);
      SideCountsSnoc(table, keys[..i], keys[i], validation);
      AssignSnoc(table, keys[..i], keys[i], train);
      if keys[i] in train {
        trainGroups := trainGroups + 1;
        onTrain := PlusCounts(onTrain, table[keys[i]]);
      } else {
        validationGroups := validationGroups + 1;
        onValidation := PlusCounts(onValidation, table[keys[i]]);
      }
      assignments := assignments + [Assignment(keys[i], if keys[i] in train then Train else Validation,
                                               table[keys[i]])];
    }
    assert keys[..|keys|] == keys;
  }

  method ReportSplit(table: Table, keys: seq<Key>, all: Counts, train: set<Key>) returns (r: Result<Split, SplitError>)
    requires forall i :: 0 <= i < |keys| ==> keys[i] in table
    ensures r == Report(table, keys, all, train)
  {
    var validation := Members(keys) - train;
    var trainGroups, validationGroups, onTrain, onValidation, assignments :=
      CountSides(table, keys, train, validation);
    if !Covered(onTrain, onValidation) {
      return Err(ClassCoverage);
    }
    r := Ok(Split(all.rows, |keys|, trainGroups, validationGroups, onTrain, onValidation, assignments));
  }

  /** Rank the groups, take the train side off the top, repair it, and report. */
  method SplitGroups(table: Table, keys: seq<Key>, all: Counts, ratio: real, hash: string -> string)
    returns (r: Result<Split, SplitError>)
    requires |keys| >= 2
    requires forall k :: k in keys ==> k in table
    ensures r == Report(table, keys, all, Repaired(Covering(table, keys), keys, RankedTrain(hash, keys, ratio)))
  {
    var train := RepairTrain(table, keys, RankedTrain(hash, keys, ratio));
    r := ReportSplit(table, keys, all, train);
  }

  method CreateGroupSplit(rows: seq<Row>, ratio: real, hash: string -> string) returns (r: Result<Split, SplitError>)
    ensures r == SplitSpec(rows, ratio, hash)
  {
    var eligible := Supervised(rows);
    if eligible == [] {
      return Err(NoSupervisedRows);
    }
    var all := Tally(eligible);
    if all.positive == 0 || all.negative == 0 {
      return Err(SingleClassDataset);
    }
    var groups, order := GroupRows(eligible);
    if |order| < 2 {
      return Err(InsufficientGroups);
    }
    var table := map k | k in groups :: Tally(groups[k]);
    assert table == TableOf(eligible);
    KeysInTable(eligible);
    r := SplitGroups(table, Sort(KeyLeq, order), all, ratio, hash);
  }

  // ---- The partition a training run makes of a split --------------------

  datatype TrainingError = GroupLeakage | EmptyPartition | SingleClassTrain

  function GroupsOn(assignments: seq<Assignment>, side: Side): set<Key>
  {
    set i | 0 <= i < |assignments| && assignments[i].split == side :: assignments[i].groupKey
  }

  function PartitionSpec(assignments: seq<Assignment>, rows: seq<Row>): Result<(seq<Row>, seq<Row>), TrainingError>
  {
    var train, validation := RowsOn(assignments, rows, Train), RowsOn(assignments, rows, Validation);
    if GroupsOn(assignments, Train) * GroupsOn(assignments, Validation) != {} then Err(GroupLeakage)
    else if train == [] || validation == [] then Err(EmptyPartition)
    else if Tally(train).positive == 0 || Tally(train).negative == 0 then Err(SingleClassTrain)
    else Ok((train, validation))
  }

  /** Revalidate the split and deal the supervised rows to the two sides. */
  method PartitionRows(assignments: seq<Assignment>, rows: seq<Row>)
    returns (r: Result<(seq<Row>, seq<Row>), TrainingError>)
    ensures r == PartitionSpec(assignments, rows)
  {
    if GroupsOn(assignments, Train) * GroupsOn(assignments, Validation) != {} {
      return Err(GroupLeakage);
    }
    var trainRows, validationRows := [], [];
    for i := 0 to |rows|
      invariant trainRows == RowsOn(assignments, rows[..i], Train)
      invariant validationRows == RowsOn(assignments, rows[..i], Validation)
    {
      assert rows[..i + 1] == rows[..i] + [rows[i]];
      FilterSnoc(IsSupervised, rows[..i], rows[i]);
      if rows[i].trainingLabel != Unlabelled {
        FilterSnoc(AssignedTo(assignments, Train), Supervised(rows[..i]), rows[i]);
        FilterSnoc(AssignedTo(assignments, Validation), Supervised(rows[..i]), rows[i]);
        var side := SideOf(assignments, GroupKey(rows[i]));
        if side == Some(Train) {
          trainRows := trainRows + [rows[i]];
        } else if side == Some(Validation) {
          validationRows := validationRows + [rows[i]];
        }
      } else {
        assert Supervised(rows[..i + 1]) == Supervised(rows[..i]);
      }
    }
    assert rows[..|rows|] == rows;
    if trainRows == [] || validationRows == [] {
      return Err(EmptyPartition);
    }
    if Tally(trainRows).positive == 0 || Tally(trainRows).negative == 0 {
      return Err(SingleClassTrain);
    }
    r := Ok((trainRows, validationRows));
  }

  lemma DistinctAssignmentsSeparate(a: seq<Assignment>)
    requires forall i, j :: 0 <= i < j < |a| ==> a[i].groupKey != a[j].groupKey
    ensures GroupsOn(a, Train) * GroupsOn(a, Validation) == {}
  {}

  /** A split made from a dataset never trips the training run's own checks on that dataset. */
  lemma SplitPassesTrainingChecks(rows: seq<Row>, ratio: real, hash: string -> string)
    requires SplitSpec(rows, ratio, hash).Ok?
    ensures var s := SplitSpec(rows, ratio, hash).value;
      var dealt := PartitionSpec(s.assignments, rows);
      dealt.Ok? && Tally(dealt.value.0) == s.train && Tally(dealt.value.1) == s.validation
  {
    SplitIsPartition(rows, ratio, hash);
    var a := SplitSpec(rows, ratio, hash).value.assignments;
    DistinctAssignmentsSeparate(a);
    assert Tally([]) == ZERO;
  }
}
