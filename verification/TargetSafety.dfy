/**
 What the split is for (apps/python-ml-worker/pre_train/splits.py, train/loop.py): all rows
 of one target go to one side. A target is a TIC id, or a product for rows without one.
 */
module TargetSafety {
  import opened Wrappers
  import opened Orders
  import opened Sequences
  import opened GroupSplit

  /** What a row is of: the target its all-digit TIC id names, or else its product. */
  datatype Target = Star(ticId: string) | Product(text: string)

  function TargetOf(r: Row): Target
  {
    if r.ticId.Some? && r.ticId.value != "" && forall i :: 0 <= i < |r.ticId.value| ==> '0' <= r.ticId.value[i] <= '9'
    then Star(r.ticId.value)
    else Product(if r.sourceProductId.Some? then r.sourceProductId.value else "unknown")
  }

  /** Two rows are grouped together exactly when they are of one target. */
  lemma GroupedByTarget(a: Row, b: Row)
    ensures GroupKey(a) == GroupKey(b) <==> TargetOf(a) == TargetOf(b)
  {
    match (TargetOf(a), TargetOf(b))
    case (Star(x), Star(y)) => PrefixInjective("tic:", x, y);
    case (Product(x), Product(y)) => PrefixInjective("source:", x, y);
    case (Star(x), Product(y)) => PrefixesDiffer(x, y);
    case (Product(x), Star(y)) => PrefixesDiffer(y, x);
  }

  lemma PrefixInjective(prefix: string, a: string, b: string)
    ensures prefix + a == prefix + b <==> a == b
  {
    assert (prefix + a)[|prefix|..] == a && (prefix + b)[|prefix|..] == b;
  }

  lemma PrefixesDiffer(a: string, b: string)
    ensures "tic:" + a != "source:" + b
  {
    assert ("tic:" + a)[0] == 't' && ("source:" + b)[0] == 's';
  }

  // ---- One side per target ----------------------------------------------

  /** Some group is assigned to both sides. */
  ghost predicate Leaks(assignments: seq<Assignment>)
  {
    exists i, j :: 0 <= i < |assignments| && 0 <= j < |assignments| && assignments[i].split == Train
      && assignments[j].split == Validation && assignments[i].groupKey == assignments[j].groupKey
  }

  /** Supervised, and the last assignment of its group is to the side. */
  ghost predicate DealtTo(assignments: seq<Assignment>, side: Side, r: Row)
  {
    && r.trainingLabel != Unlabelled
    && exists i :: 0 <= i < |assignments| && assignments[i].groupKey == GroupKey(r) && assignments[i].split == side
                   && forall j :: i < j < |assignments| ==> assignments[j].groupKey != GroupKey(r)
  }

  ghost predicate SomeDealt(assignments: seq<Assignment>, rows: seq<Row>, side: Side, labels: set<Label>)
  {
    exists r :: r in rows && r.trainingLabel in labels && DealtTo(assignments, side, r)
  }

  lemma {:induction false} SideOfIsLast(assignments: seq<Assignment>, key: Key, side: Side)
    ensures SideOf(assignments, key) == Some(side) <==>
      exists i :: 0 <= i < |assignments| && assignments[i].groupKey == key && assignments[i].split == side
                  && forall j :: i < j < |assignments| ==> assignments[j].groupKey != key
  {
    if assignments != [] {
      var n := |assignments| - 1;
      SideOfIsLast(assignments[..n], key, side);
      if assignments[n].groupKey != key && SideOf(assignments, key) == Some(side) {
        var i :| 0 <= i < n && assignments[..n][i].groupKey == key && assignments[..n][i].split == side
                 && forall j :: i < j < n ==> assignments[..n][j].groupKey != key;
        forall j | i < j < |assignments| ensures assignments[j].groupKey != key {
          if j < n { assert assignments[..n][j].groupKey != key; }
        }
      }
    }
  }

  lemma DealtMeans(assignments: seq<Assignment>, rows: seq<Row>, side: Side, r: Row)
    ensures r in RowsOn(assignments, rows, side) <==> r in rows && DealtTo(assignments, side, r)
  {
    FilterMember(AssignedTo(assignments, side), Supervised(rows), r);
    FilterMember(IsSupervised, rows, r);
    SideOfIsLast(assignments, GroupKey(r), side);
  }

  lemma SomeDealtOf(assignments: seq<Assignment>, rows: seq<Row>, side: Side, labels: set<Label>)
    ensures (exists r :: r in RowsOn(assignments, rows, side) && r.trainingLabel in labels)
      <==> SomeDealt(assignments, rows, side, labels)
  {
    forall r ensures r in RowsOn(assignments, rows, side) <==> r in rows && DealtTo(assignments, side, r) {
      DealtMeans(assignments, rows, side, r);
    }
  }

  lemma SomeDealtMeans(assignments: seq<Assignment>, rows: seq<Row>, side: Side)
    ensures var dealt := RowsOn(assignments, rows, side);
      && (dealt != [] <==> SomeDealt(assignments, rows, side, {Positive, Negative}))
      && (Tally(dealt).positive > 0 <==> SomeDealt(assignments, rows, side, {Positive}))
      && (Tally(dealt).negative > 0 <==> SomeDealt(assignments, rows, side, {Negative}))
  {
    var dealt := RowsOn(assignments, rows, side);
    SomeDealtOf(assignments, rows, side, {Positive, Negative});
    SomeDealtOf(assignments, rows, side, {Positive});
    SomeDealtOf(assignments, rows, side, {Negative});
    if dealt != [] {
      assert dealt[0] in dealt;
      DealtMeans(assignments, rows, side, dealt[0]);
    }
    FilterSome(IsPositive, dealt);
    FilterSome(IsNegative, dealt);
  }

  lemma FilterSome(p: Row -> bool, rows: seq<Row>)
    ensures |Filter(p, rows)| > 0 <==> exists r :: r in rows && p(r)
  {
    forall r ensures r in Filter(p, rows) <==> r in rows && p(r) { FilterMember(p, rows, r); }
    if Filter(p, rows) != [] { assert Filter(p, rows)[0] in Filter(p, rows); }
  }

  /** When a training run refuses a split, and with which error. */
  lemma PartitionMeans(assignments: seq<Assignment>, rows: seq<Row>)
    ensures var dealt := PartitionSpec(assignments, rows);
      && (dealt == Err(GroupLeakage) <==> Leaks(assignments))
      && (dealt == Err(EmptyPartition) <==>
          && !Leaks(assignments)
          && !(&& SomeDealt(assignments, rows, Train, {Positive, Negative})
               && SomeDealt(assignments, rows, Validation, {Positive, Negative})))
      && (dealt.Ok? <==>
          && !Leaks(assignments) && SomeDealt(assignments, rows, Train, {Positive})
          && SomeDealt(assignments, rows, Train, {Negative})
          && SomeDealt(assignments, rows, Validation, {Positive, Negative}))
  {
    LeaksMeans(assignments);
    SomeDealtMeans(assignments, rows, Train);
    SomeDealtMeans(assignments, rows, Validation);
  }

  lemma LeaksMeans(assignments: seq<Assignment>)
    ensures GroupsOn(assignments, Train) * GroupsOn(assignments, Validation) != {} <==> Leaks(assignments)
  {
    if Leaks(assignments) {
      var i, j :| 0 <= i < |assignments| && 0 <= j < |assignments| && assignments[i].split == Train
        && assignments[j].split == Validation && assignments[i].groupKey == assignments[j].groupKey;
      assert assignments[i].groupKey in GroupsOn(assignments, Train) * GroupsOn(assignments, Validation);
    }
    if GroupsOn(assignments, Train) * GroupsOn(assignments, Validation) != {} {
      var k :| k in GroupsOn(assignments, Train) * GroupsOn(assignments, Validation);
    }
  }

  /** However a split was made: no row dealt to train is of the target of one dealt to validation. */
  lemma TargetsStayTogether(assignments: seq<Assignment>, rows: seq<Row>, a: Row, b: Row)
    requires var dealt := PartitionSpec(assignments, rows);
      dealt.Ok? && a in dealt.value.0 && b in dealt.value.1
    ensures TargetOf(a) != TargetOf(b)
  {
    FilterMember(AssignedTo(assignments, Train), Supervised(rows), a);
    FilterMember(AssignedTo(assignments, Validation), Supervised(rows), b);
    GroupedByTarget(a, b);
  }

  /** A split made from the rows deals each supervised row to one side, as often as it occurs, and no other row. */
  lemma EveryRowDealt(rows: seq<Row>, ratio: real, hash: string -> string, r: Row)
    requires SplitSpec(rows, ratio, hash).Ok?
    ensures var dealt := PartitionSpec(SplitSpec(rows, ratio, hash).value.assignments, rows);
      dealt.Ok? && multiset(dealt.value.0)[r] + multiset(dealt.value.1)[r]
                   == if r.trainingLabel != Unlabelled then multiset(rows)[r] else 0
  {
    SplitPassesTrainingChecks(rows, ratio, hash);
    RowsOnSides(rows, ratio, hash);
    var sup, train := Supervised(rows), FinalTrain(Supervised(rows), ratio, hash);
    var rest := Members(SortedKeys(sup)) - train;
    FilterCount(IsSupervised, rows, r);
    FilterCount(KeyIn(train), sup, r);
    FilterCount(KeyIn(rest), sup, r);
    SortedKeysFacts(sup);
    if r in sup {
      KeyOrderFacts(sup);
      SameElements(KeyOrder(sup), SortedKeys(sup), GroupKey(r));
      assert GroupKey(r) in Members(SortedKeys(sup));
    }
  }

  // ---- One group per target ---------------------------------------------

  function TargetsOf(rows: seq<Row>): set<Target> { set r | r in rows :: TargetOf(r) }

  lemma TargetsSnoc(rows: seq<Row>, r: Row)
    ensures TargetsOf(rows + [r]) == TargetsOf(rows) + {TargetOf(r)}
    ensures GroupKey(r) in KeyOrder(rows) <==> TargetOf(r) in TargetsOf(rows)
  {
    assert r in rows + [r] && forall x :: x in rows ==> x in rows + [r];
    KeyOrderFacts(rows);
    forall x | x in rows ensures GroupKey(x) == GroupKey(r) <==> TargetOf(x) == TargetOf(r) { GroupedByTarget(x, r); }
  }

  /** As many group keys as targets. */
  lemma {:induction false} KeysCountTargets(rows: seq<Row>)
    ensures |KeyOrder(rows)| == |TargetsOf(rows)|
  {
    if rows != [] {
      var n := |rows| - 1;
      KeysCountTargets(rows[..n]);
      TargetsSnoc(rows[..n], rows[n]);
      assert rows == rows[..n] + [rows[n]];
      if TargetOf(rows[n]) in TargetsOf(rows[..n]) { assert TargetsOf(rows) == TargetsOf(rows[..n]); }
    }
  }

  /** The groups of a split are the targets of its supervised rows. */
  lemma GroupsAreTargets(rows: seq<Row>, ratio: real, hash: string -> string)
    requires SplitSpec(rows, ratio, hash).Ok?
    ensures SplitSpec(rows, ratio, hash).value.eligibleGroups
      == |set r | r in rows && r.trainingLabel != Unlabelled :: TargetOf(r)|
  {
    var sup := Supervised(rows);
    KeysCountTargets(sup);
    forall r ensures r in sup <==> r in rows && r.trainingLabel != Unlabelled { FilterMember(IsSupervised, rows, r); }
    assert TargetsOf(sup) == set r | r in rows && r.trainingLabel != Unlabelled :: TargetOf(r);
    assert |multiset(KeyOrder(sup))| == |multiset(SortedKeys(sup))|;
  }

  ghost predicate Labelled(rows: seq<Row>, of: Label) { exists r :: r in rows && r.trainingLabel == of }

  /** Every supervised row is of one target. */
  ghost predicate OneTarget(rows: seq<Row>)
  {
    forall a, b :: a in rows && b in rows && a.trainingLabel != Unlabelled && b.trainingLabel != Unlabelled ==>
        TargetOf(a) == TargetOf(b)
  }

  lemma FewTargets(rows: seq<Row>)
    requires Supervised(rows) != []
    ensures |SortedKeys(Supervised(rows))| < 2 <==> OneTarget(rows)
  {
    var sup := Supervised(rows);
    KeysCountTargets(sup);
    assert |multiset(KeyOrder(sup))| == |multiset(SortedKeys(sup))|;
    forall r ensures r in sup <==> r in rows && r.trainingLabel != Unlabelled { FilterMember(IsSupervised, rows, r); }
    var one := {TargetOf(sup[0])};
    assert sup[0] in sup && one <= TargetsOf(sup);
    SubsetSize(one, TargetsOf(sup));
    if OneTarget(rows) {
      assert TargetsOf(sup) == one;
    } else {
      var a, b :| a in rows && b in rows && a.trainingLabel != Unlabelled && b.trainingLabel != Unlabelled
                  && TargetOf(a) != TargetOf(b);
      var two := {TargetOf(a), TargetOf(b)};
      assert two <= TargetsOf(sup);
      SubsetSize(two, TargetsOf(sup));
    }
  }

  lemma LabelledMeans(rows: seq<Row>)
    ensures Tally(Supervised(rows)).rows > 0 <==> Labelled(rows, Positive) || Labelled(rows, Negative)
    ensures Tally(Supervised(rows)).positive > 0 <==> Labelled(rows, Positive)
    ensures Tally(Supervised(rows)).negative > 0 <==> Labelled(rows, Negative)
  {
    var sup := Supervised(rows);
    forall r ensures r in sup <==> r in rows && r.trainingLabel != Unlabelled { FilterMember(IsSupervised, rows, r); }
    if sup != [] { assert sup[0] in sup; }
    FilterSome(IsPositive, sup);
    FilterSome(IsNegative, sup);
  }

  lemma RefusalsOf(table: Table, keys: seq<Key>, all: Counts, ratio: real, hash: string -> string)
    requires (forall k :: k in keys ==> k in table) && (all.positive + all.negative > 0 ==> all.rows > 0)
    ensures var split := SplitOf(table, keys, all, ratio, hash); var p, n := all.positive > 0, all.negative > 0;
      && (split == Err(NoSupervisedRows) <==> all.rows == 0)
      && (split == Err(SingleClassDataset) <==> all.rows > 0 && !(p && n))
      && (split == Err(InsufficientGroups) <==> p && n && |keys| < 2)
      && (split.Ok? || split == Err(ClassCoverage) <==> p && n && |keys| >= 2)
  {}

  /** Which datasets are refused, and with which error; the rest is a matter of class coverage. */
  lemma RefusalsMean(rows: seq<Row>, ratio: real, hash: string -> string)
    ensures var split := SplitSpec(rows, ratio, hash); var p, n := Labelled(rows, Positive), Labelled(rows, Negative);
      && (split == Err(NoSupervisedRows) <==> !p && !n)
      && (split == Err(SingleClassDataset) <==> p != n)
      && (split == Err(InsufficientGroups) <==> p && n && OneTarget(rows))
      && (split.Ok? || split == Err(ClassCoverage) <==> p && n && !OneTarget(rows))
      && (Splittable(rows) <==> p && n && !OneTarget(rows))
  {
    LabelledMeans(rows);
    if Supervised(rows) != [] { FewTargets(rows); }
    SortedKeysFacts(Supervised(rows));
    RefusalsOf(TableOf(Supervised(rows)), SortedKeys(Supervised(rows)), Tally(Supervised(rows)), ratio, hash);
  }

  // ---- Which groups train ------------------------------------------------

  /** The train side is the ratio's share of the groups rounded down, but never none and never all. */
  lemma TrainCountMeans(groups: nat, ratio: real)
    requires groups >= 2
    ensures var k, share := TrainCount(groups, ratio), groups as real * ratio;
      && 1 <= k <= groups - 1
      && (k > 1 ==> k as real <= share) && (k < groups - 1 ==> share < (k + 1) as real)
  {}

  /** The ranked train side are the groups of least digest, equal digests in key order. */
  lemma RankedAreLeast(hash: string -> string, keys: seq<Key>, ratio: real, t: Key, v: Key)
    requires |keys| >= 2 && t in RankedTrain(hash, keys, ratio) && v in keys && v !in RankedTrain(hash, keys, ratio)
    ensures LexLeq(hash(t.text), hash(v.text)) && (hash(t.text) == hash(v.text) ==> LexLeq(t.text, v.text))
  {
    RankIsOrder(hash);
    SortSorts(RankOrder(hash), keys);
    SameElements(Ranked(hash, keys), keys, v);
    FrontFirst(RankOrder(hash), Ranked(hash, keys), TrainCount(|keys|, ratio), t, v);
    RankMeans(hash, t, v);
  }

  lemma RankMeans(hash: string -> string, a: Key, b: Key)
    requires RankOrder(hash)(a, b)
    ensures LexLeq(hash(a.text), hash(b.text)) && (hash(a.text) == hash(b.text) ==> LexLeq(a.text, b.text))
  {
    LexTotal(hash(a.text), hash(a.text));
  }

  lemma FrontFirst(leq: (Key, Key) -> bool, s: seq<Key>, k: nat, t: Key, v: Key)
    requires Sorted(leq, s) && k <= |s| && t in s[..k] && v in s && v !in s[..k]
    ensures leq(t, v)
  {
    var i :| 0 <= i < k && s[..k][i] == t;
    var j :| 0 <= j < |s| && s[j] == v;
    assert forall n :: 0 <= n < k ==> s[n] in s[..k];
    assert leq(s[i], s[j]);
  }

  lemma RankIsOrder(hash: string -> string)
    ensures TotalPreorder(RankOrder(hash))
  {
    LexIsTotalOrder();
    assert forall x: string, y: string :: LexLeq(x, y) || LexLeq(y, x);
  }
}
