/** Filtering, and the distinctness of a listing. */
module Sequences {

  function Filter<T>(p: T -> bool, s: seq<T>): (r: seq<T>)
    ensures |r| <= |s|
  {
    if s == [] then []
    else Filter(p, s[..|s| - 1]) + if p(s[|s| - 1]) then [s[|s| - 1]] else []
  }

  lemma FilterSnoc<T>(p: T -> bool, s: seq<T>, x: T)
    ensures Filter(p, s + [x]) == Filter(p, s) + if p(x) then [x] else []
  {}

  lemma FilterStep<T>(p: T -> bool, s: seq<T>, n: nat)
    requires n < |s|
    ensures Filter(p, s[..n + 1]) == Filter(p, s[..n]) + if p(s[n]) then [s[n]] else []
  {
    assert s[..n + 1][..n] == s[..n];
  }

  lemma {:induction false} FilterConcat<T>(p: T -> bool, a: seq<T>, b: seq<T>)
    ensures Filter(p, a + b) == Filter(p, a) + Filter(p, b)
  {
    if b == [] {
      assert a + b == a;
    } else {
      var n := |b| - 1;
      assert a + b == (a + b[..n]) + [b[n]];
      FilterSnoc(p, a + b[..n], b[n]);
      FilterConcat(p, a, b[..n]);
    }
  }

  lemma {:induction false} FilterMember<T>(p: T -> bool, s: seq<T>, x: T)
    ensures x in Filter(p, s) <==> x in s && p(x)
  {
    if s != [] {
      var n := |s| - 1;
      FilterMember(p, s[..n], x);
      assert s == s[..n] + [s[n]];
    }
  }

  lemma {:induction false} FilterCount<T>(p: T -> bool, s: seq<T>, x: T)
    ensures multiset(Filter(p, s))[x] == if p(x) then multiset(s)[x] else 0
  {
    if s != [] {
      var n := |s| - 1;
      FilterCount(p, s[..n], x);
      assert s == s[..n] + [s[n]];
    }
  }

  lemma FilterMultiset<T(!new)>(p: T -> bool, a: seq<T>, b: seq<T>)
    requires multiset(a) == multiset(b)
    ensures multiset(Filter(p, a)) == multiset(Filter(p, b))
    ensures |Filter(p, a)| == |Filter(p, b)|
  {
    forall x ensures multiset(Filter(p, a))[x] == multiset(Filter(p, b))[x] {
      FilterCount(p, a, x);
      FilterCount(p, b, x);
    }
    assert multiset(Filter(p, a)) == multiset(Filter(p, b));
    assert |multiset(Filter(p, a))| == |multiset(Filter(p, b))|;
  }

  lemma {:induction false} FilterAll<T>(p: T -> bool, s: seq<T>)
    requires forall i :: 0 <= i < |s| ==> p(s[i])
    ensures Filter(p, s) == s
  {
    if s != [] {
      FilterAll(p, s[..|s| - 1]);
    }
  }

  lemma {:induction false} FilterAgree<T>(p: T -> bool, q: T -> bool, s: seq<T>)
    requires forall i :: 0 <= i < |s| ==> p(s[i]) == q(s[i])
    ensures Filter(p, s) == Filter(q, s)
  {
    if s != [] {
      FilterAgree(p, q, s[..|s| - 1]);
    }
  }

  lemma {:induction false} SubsetSize<T>(a: set<T>, b: set<T>)
    requires a <= b
    ensures |a| <= |b|
    ensures |b - a| == |b| - |a|
  {
    assert a + (b - a) == b && a !! (b - a);
  }

  predicate Distinct<T(==)>(s: seq<T>)
  {
    forall i, j :: 0 <= i < j < |s| ==> s[i] != s[j]
  }

  lemma {:induction false} DistinctMultiplicity<T>(s: seq<T>, x: T)
    requires Distinct(s)
    ensures multiset(s)[x] == if x in s then 1 else 0
  {
    if s != [] {
      var n := |s| - 1;
      assert s == s[..n] + [s[n]];
      DistinctMultiplicity(s[..n], x);
    }
  }

  /** Two listings without repetition of the same members are permutations of each other. */
  lemma DistinctSameMembers<T(!new)>(a: seq<T>, b: seq<T>)
    requires Distinct(a) && Distinct(b)
    requires forall x :: x in a <==> x in b
    ensures multiset(a) == multiset(b)
  {
    forall x: T ensures multiset(a)[x] == multiset(b)[x] {
      DistinctMultiplicity(a, x);
      DistinctMultiplicity(b, x);
    }
  }

  /** A permutation of a listing without repetition has none either. */
  lemma DistinctPermutation<T(!new)>(a: seq<T>, b: seq<T>)
    requires Distinct(a) && multiset(a) == multiset(b)
    ensures Distinct(b)
  {
    forall i, j | 0 <= i < j < |b| ensures b[i] != b[j] {
      if b[i] == b[j] {
        assert b == b[..i] + [b[i]] + b[i + 1..j] + [b[j]] + b[j + 1..];
        assert multiset(b)[b[i]] >= 2;
        DistinctMultiplicity(a, b[i]);
      }
    }
  }

  function Members<T(!new)>(s: seq<T>): (m: set<T>)
    ensures forall x :: x in m <==> x in s
  {
    set x | x in s
  }

  lemma MembersSnoc<T(!new)>(s: seq<T>, n: nat)
    requires n < |s|
    ensures Members(s[..n + 1]) == Members(s[..n]) + {s[n]}
  {
    assert s[..n + 1] == s[..n] + [s[n]];
  }

  lemma {:induction false} DistinctSize<T(!new)>(s: seq<T>)
    requires Distinct(s)
    ensures |Members(s)| == |s|
  {
    if s != [] {
      var n := |s| - 1;
      DistinctSize(s[..n]);
      assert s == s[..n] + [s[n]];
      assert Members(s) == Members(s[..n]) + {s[n]};
    }
  }

  /** The sum of a weight over a listing. */
  function Total<T>(w: T -> nat, s: seq<T>): nat
  {
    if s == [] then 0 else Total(w, s[..|s| - 1]) + w(s[|s| - 1])
  }

  lemma TotalSnoc<T>(w: T -> nat, s: seq<T>, x: T)
    ensures Total(w, s + [x]) == Total(w, s) + w(x)
  {}

  lemma {:induction false} TotalConcat<T>(w: T -> nat, a: seq<T>, b: seq<T>)
    ensures Total(w, a + b) == Total(w, a) + Total(w, b)
  {
    if b == [] {
      assert a + b == a;
    } else {
      var n := |b| - 1;
      assert a + b == (a + b[..n]) + [b[n]];
      TotalSnoc(w, a + b[..n], b[n]);
      TotalConcat(w, a, b[..n]);
    }
  }

  lemma WithoutOne<T>(a: seq<T>, i: nat)
    requires i < |a|
    ensures multiset(a[..i] + a[i + 1..]) == multiset(a) - multiset{a[i]}
  {
    assert a == a[..i] + [a[i]] + a[i + 1..];
  }

  lemma TotalAround<T>(w: T -> nat, a: seq<T>, x: T, b: seq<T>)
    ensures Total(w, a + [x] + b) == Total(w, a + b) + w(x)
  {
    TotalConcat(w, a, b);
    TotalSnoc(w, a, x);
    TotalConcat(w, a + [x], b);
  }

  lemma SplitAround<T>(s: seq<T>, i: nat)
    requires i < |s|
    ensures s == s[..i] + [s[i]] + s[i + 1..]
  {}

  lemma TotalWithoutOne<T>(w: T -> nat, s: seq<T>, i: nat)
    requires i < |s|
    ensures Total(w, s) == Total(w, s[..i] + s[i + 1..]) + w(s[i])
  {
    SplitAround(s, i);
    TotalAround(w, s[..i], s[i], s[i + 1..]);
  }

  lemma {:induction false} TotalPermute<T>(w: T -> nat, a: seq<T>, b: seq<T>)
    requires multiset(a) == multiset(b)
    ensures Total(w, a) == Total(w, b)
  {
    assert |multiset(a)| == |a| && |multiset(b)| == |b|;
    if a != [] {
      var n := |a| - 1;
      assert a[n] in multiset(b);
      var i :| 0 <= i < |b| && b[i] == a[n];
      WithoutOne(a, n);
      WithoutOne(b, i);
      assert a[..n] + a[n + 1..] == a[..n];
      TotalPermute(w, a[..n], b[..i] + b[i + 1..]);
      TotalWithoutOne(w, b, i);
    }
  }

  lemma {:induction false} TotalAgree<T>(v: T -> nat, w: T -> nat, s: seq<T>)
    requires forall i :: 0 <= i < |s| ==> v(s[i]) == w(s[i])
    ensures Total(v, s) == Total(w, s)
  {
    if s != [] {
      TotalAgree(v, w, s[..|s| - 1]);
    }
  }

  /** Raising the weight of one member of a listing raises the sum by as much. */
  lemma {:induction false} TotalRaise<T(!new)>(v: T -> nat, w: T -> nat, s: seq<T>, x: T, d: nat)
    requires Distinct(s)
    requires forall y :: w(y) == v(y) + if y == x then d else 0
    ensures Total(w, s) == Total(v, s) + if x in s then d else 0
  {
    if s != [] {
      var n := |s| - 1;
      assert s == s[..n] + [s[n]];
      TotalRaise(v, w, s[..n], x, d);
    }
  }

  function Map<T, U>(f: T -> U, s: seq<T>): (r: seq<U>)
    ensures |r| == |s| && forall i :: 0 <= i < |s| ==> r[i] == f(s[i])
  {
    seq(|s|, i requires 0 <= i < |s| => f(s[i]))
  }

  lemma MapSnoc<T, U>(f: T -> U, s: seq<T>, n: nat)
    requires n < |s|
    ensures Map(f, s[..n + 1]) == Map(f, s[..n]) + [f(s[n])]
  {}

  lemma MapConcat<T, U>(f: T -> U, a: seq<T>, b: seq<T>)
    ensures Map(f, a + b) == Map(f, a) + Map(f, b)
  {}

  lemma MapSplit<T, U>(f: T -> U, s: seq<T>, n: nat)
    requires n <= |s|
    ensures Map(f, s) == Map(f, s[..n]) + Map(f, s[n..])
  {}

  function Hits<T, U(==)>(f: T -> U, y: U): T -> nat { x => if f(x) == y then 1 else 0 }

  lemma {:induction false} MapCount<T, U>(f: T -> U, s: seq<T>, y: U)
    ensures multiset(Map(f, s))[y] == Total(Hits(f, y), s)
  {
    if s != [] {
      var n := |s| - 1;
      MapCount(f, s[..n], y);
      assert Map(f, s) == Map(f, s[..n]) + [f(s[n])];
    }
  }

  /** Applying a function to every element respects rearrangement. */
  lemma MapMultiset<T, U(!new)>(f: T -> U, a: seq<T>, b: seq<T>)
    requires multiset(a) == multiset(b)
    ensures multiset(Map(f, a)) == multiset(Map(f, b))
  {
    forall y ensures multiset(Map(f, a))[y] == multiset(Map(f, b))[y] {
      MapCount(f, a, y);
      MapCount(f, b, y);
      TotalPermute(Hits(f, y), a, b);
    }
  }

  /** Element by element, `a` and `b` are related. */
  ghost predicate Pairwise<A, B>(r: (A, B) -> bool, a: seq<A>, b: seq<B>)
  {
    |a| == |b| && forall i :: 0 <= i < |a| ==> r(a[i], b[i])
  }

  lemma PairwiseSnoc<A, B>(r: (A, B) -> bool, a: seq<A>, b: seq<B>, x: A, y: B)
    requires Pairwise(r, a, b) && r(x, y)
    ensures Pairwise(r, a + [x], b + [y])
  {}

  /** Every element satisfies `p`. */
  ghost predicate Every<T>(p: T -> bool, s: seq<T>)
  {
    forall i :: 0 <= i < |s| ==> p(s[i])
  }

  lemma EveryMember<T>(p: T -> bool, s: seq<T>, x: T)
    requires Every(p, s) && x in s
    ensures p(x)
  {}

  lemma EveryOf<T(!new)>(p: T -> bool, s: seq<T>)
    requires forall x :: x in s ==> p(x)
    ensures Every(p, s)
  {}

  lemma EveryTail<T>(p: T -> bool, s: seq<T>)
    requires Every(p, s) && s != []
    ensures p(s[0]) && Every(p, s[1..])
  {}

  lemma EverySnoc<T>(p: T -> bool, s: seq<T>, x: T)
    requires Every(p, s) && p(x)
    ensures Every(p, s + [x])
  {}

  lemma EveryConcat<T>(p: T -> bool, a: seq<T>, b: seq<T>)
    requires Every(p, a) && Every(p, b)
    ensures Every(p, a + b)
  {}

  lemma EveryWeaken<T(!new)>(p: T -> bool, q: T -> bool, s: seq<T>)
    requires Every(p, s) && forall x :: p(x) ==> q(x)
    ensures Every(q, s)
  {}

}
