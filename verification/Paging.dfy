/**
 Cursor pagination of the object listing (apps/go-api/internal/provider/storage.go). A
 listing is the objects under a prefix in key order; the store may change between pages.
 */
module Paging {
  import opened Orders
  import opened Sequences
  import opened Text

  datatype Key = Key(text: string)

  datatype Object = Object(key: Key, size: int)

  predicate Below(a: Key, b: Key) { LexLeq(a.text, b.text) && a != b }

  lemma BelowOrder(a: Key, b: Key, c: Key)
    ensures Below(a, b) && Below(b, c) ==> Below(a, c)
    ensures a == b || Below(a, b) || Below(b, a)
    ensures !(Below(a, b) && Below(b, a))
  {
    if Below(a, b) && Below(b, c) {
      LexTransitive(a.text, b.text, c.text);
      if a == c { LexAntisymmetric(a.text, b.text); }
    }
    LexTotal(a.text, b.text);
    if Below(a, b) && Below(b, a) { LexAntisymmetric(a.text, b.text); }
  }

  const START := Key("")

  predicate IsProcessable(key: Key)
  {
    var k := Lower(Trim(key.text));
    HasSuffix(k, ".fits") || HasSuffix(k, ".fit") || HasSuffix(k, ".fits.gz") || HasSuffix(k, ".fit.gz")
  }

  /** The text has the ending, in any case, with only white space after it. */
  ghost predicate EndsIn(text: string, ending: string)
  {
    exists i, j :: 0 <= i <= j <= |text| && Lower(text[i..j]) == ending && Blank(text[j..])
  }

  lemma EndingSurvives(a: string, e: string, b: string)
    requires e != [] && Blank(b) && !IsSpace(e[0]) && !IsSpace(e[|e| - 1])
    ensures HasSuffix(Trim(a + (e + b)), e)
  {
    TrimLeftKeeps(a, e + b);
    var k :| 0 <= k <= |a| && TrimLeft(a + (e + b)) == a[k..] + (e + b);
    var c := a[k..];
    assert c + (e + b) == (c + e) + b;
    TrimRightDrops(c + e, b);
    assert (c + e)[|c|..] == e;
  }

  lemma TrimmedIsWithin(text: string) returns (i: nat, j: nat)
    ensures i <= j <= |text| && Trim(text) == text[i..j] && Blank(text[j..])
  {
    i := TrimLeftIsTail(text);
    var k := TrimRightIsHead(text[i..]);
    j := i + k;
    assert text[j..] == text[i..][k..] && text[i..j] == text[i..][..k];
  }

  lemma LowerOfTail(s: string, n: nat)
    requires n <= |s|
    ensures Lower(s)[n..] == Lower(s[n..])
  {}

  lemma LowerKeepsSpace(c: char)
    ensures IsSpace(c) ==> LowerChar(c) == c
  {}

  lemma SuffixEndsIn(text: string, ending: string)
    requires HasSuffix(Lower(Trim(text)), ending)
    ensures EndsIn(text, ending)
  {
    var i, j := TrimmedIsWithin(text);
    var trimmed, m := Trim(text), j - |ending|;
    LowerOfTail(trimmed, |trimmed| - |ending|);
    assert trimmed[|trimmed| - |ending|..] == text[m..j];
  }

  lemma EndingIsSuffix(trimmed: string, e: string, ending: string)
    requires HasSuffix(trimmed, e) && Lower(e) == ending
    ensures HasSuffix(Lower(trimmed), ending)
  {
    LowerOfTail(trimmed, |trimmed| - |e|);
  }

  lemma EndsInSuffix(a: string, e: string, b: string, ending: string)
    requires Lower(e) == ending && Blank(b)
    requires ending != [] && !IsSpace(ending[0]) && !IsSpace(ending[|ending| - 1])
    ensures HasSuffix(Lower(Trim(a + (e + b))), ending)
  {
    EndIsText(e, ending);
    EndingSurvives(a, e, b);
    EndingIsSuffix(Trim(a + (e + b)), e, ending);
  }

  lemma InThree(text: string, i: nat, j: nat)
    requires i <= j <= |text|
    ensures text == text[..i] + (text[i..j] + text[j..])
  {}

  lemma EndedIsSuffix(text: string, ending: string)
    requires EndsIn(text, ending) && ending != [] && !IsSpace(ending[0]) && !IsSpace(ending[|ending| - 1])
    ensures HasSuffix(Lower(Trim(text)), ending)
  {
    var i, j :| 0 <= i <= j <= |text| && Lower(text[i..j]) == ending && Blank(text[j..]);
    EndsInSuffix(text[..i], text[i..j], text[j..], ending);
    InThree(text, i, j);
  }

  lemma TrimmedEndsIn(text: string, ending: string)
    requires ending != [] && !IsSpace(ending[0]) && !IsSpace(ending[|ending| - 1])
    ensures HasSuffix(Lower(Trim(text)), ending) <==> EndsIn(text, ending)
  {
    if HasSuffix(Lower(Trim(text)), ending) { SuffixEndsIn(text, ending); }
    if EndsIn(text, ending) { EndedIsSuffix(text, ending); }
  }

  lemma EndIsText(e: string, ending: string)
    requires ending != [] && Lower(e) == ending && !IsSpace(ending[0]) && !IsSpace(ending[|ending| - 1])
    ensures |e| == |ending| && !IsSpace(e[0]) && !IsSpace(e[|e| - 1])
  {
    LowerKeepsSpace(e[0]);
    LowerKeepsSpace(e[|e| - 1]);
    assert Lower(e)[0] == LowerChar(e[0]) && Lower(e)[|e| - 1] == LowerChar(e[|e| - 1]);
  }

  /** A key is processable exactly when it ends, white space and case aside, in one of the four FITS endings. */
  lemma ProcessableMeans(key: Key)
    ensures IsProcessable(key) <==> exists ending :: ending in [".fits", ".fit", ".fits.gz", ".fit.gz"]
                                                     && EndsIn(key.text, ending)
  {
    TrimmedEndsIn(key.text, ".fits");
    TrimmedEndsIn(key.text, ".fit");
    TrimmedEndsIn(key.text, ".fits.gz");
    TrimmedEndsIn(key.text, ".fit.gz");
    var endings := [".fits", ".fit", ".fits.gz", ".fit.gz"];
    assert endings[0] in endings && endings[1] in endings && endings[2] in endings && endings[3] in endings;
  }

  /** Under bronze/ only FITS files are listed. */
  predicate Kept(prefix: string, o: Object) { HasPrefix(prefix, "bronze/") ==> IsProcessable(o.key) }

  type Filterer = Object -> bool

  function Keeps(prefix: string): Filterer { (o: Object) => Kept(prefix, o) }

  predicate IsAfter(cursor: Key, o: Object) { cursor == START || Below(cursor, o.key) }

  /** Listings come in key order, each key once. */
  predicate InOrder(s: seq<Object>)
  {
    forall i, j :: 0 <= i < j < |s| ==> Below(s[i].key, s[j].key)
  }

  /** What the store streams for `StartAfter: cursor`. */
  function After(cursor: Key): Filterer { (o: Object) => IsAfter(cursor, o) }

  function Streamed(listing: seq<Object>, cursor: Key): seq<Object> { Filter(After(cursor), listing) }

  /** The objects from the cursor on that a page may show. */
  function Eligible(listing: seq<Object>, keeps: Filterer, cursor: Key): seq<Object>
  {
    Filter(keeps, Streamed(listing, cursor))
  }

  function LimitOf(limit: int): nat { if limit <= 0 then 100 else limit }

  datatype Page = Page(objects: seq<Object>, next: Key, truncated: bool)

  function FirstPage(eligible: seq<Object>, limit: nat): Page
    requires limit > 0
  {
    if |eligible| > limit then Page(eligible[..limit], eligible[limit - 1].key, true) else Page(eligible, START, false)
  }

  /** Take objects that pass until the page is full and one more is seen. */
  method FillPage(stream: seq<Object>, keeps: Filterer, limit: nat) returns (page: Page)
    requires limit > 0
    ensures page == FirstPage(Filter(keeps, stream), limit)
  {
    var objects: seq<Object> := [];
    for n := 0 to |stream|
      invariant objects == Filter(keeps, stream[..n]) && |objects| <= limit
    {
      FilterStep(keeps, stream, n);
      if !keeps(stream[n]) {
        continue;
      }
      if |objects| < limit {
        objects := objects + [stream[n]];
      } else {
        PrefixOfFilter(keeps, stream, n + 1);
        return Page(objects, objects[|objects| - 1].key, true);
      }
    }
    assert stream[..|stream|] == stream;
    page := Page(objects, START, false);
  }

  method ListObjectsCursor(listing: seq<Object>, prefix: string, cursor: Key, requested: int) returns (page: Page)
    ensures page == FirstPage(Eligible(listing, Keeps(prefix), cursor), LimitOf(requested))
    ensures requested <= 0 ==> |page.objects| <= 100 && (page.truncated ==> |page.objects| == 100)
    ensures requested > 0 ==> |page.objects| <= requested && (page.truncated ==> |page.objects| == requested)
    ensures InOrder(listing) ==> forall o :: o in page.objects <==>
        MayShow(listing, prefix, cursor, o) && (page.truncated ==> !Below(page.next, o.key))
  {
    page := FillPage(Streamed(listing, cursor), Keeps(prefix), LimitOf(requested));
    if InOrder(listing) { PageIsEligible(listing, prefix, cursor, LimitOf(requested)); }
  }

  /** Stored, after the cursor, and a FITS file under bronze/. */
  ghost predicate MayShow(listing: seq<Object>, prefix: string, cursor: Key, o: Object)
  {
    && o in listing && (cursor.text != "" ==> Below(cursor, o.key))
    && ((exists rest :: prefix == "bronze/" + rest) ==> IsProcessable(o.key))
  }

  lemma PageIsEligible(listing: seq<Object>, prefix: string, cursor: Key, limit: nat)
    requires limit > 0 && InOrder(listing)
    ensures var page := FirstPage(Eligible(listing, Keeps(prefix), cursor), limit);
      forall o :: o in page.objects <==>
        MayShow(listing, prefix, cursor, o) && (page.truncated ==> !Below(page.next, o.key))
  {
    var eligible := Eligible(listing, Keeps(prefix), cursor);
    var page := FirstPage(eligible, limit);
    EligibleInOrder(listing, Keeps(prefix), cursor);
    forall o
      ensures o in page.objects <==>
        MayShow(listing, prefix, cursor, o) && (page.truncated ==> !Below(page.next, o.key))
    {
      PrefixMeans(prefix, "bronze/");
      EligibleMeans(listing, Keeps(prefix), cursor, o);
      OnPage(eligible, limit, o);
    }
  }

  /** Of the eligible objects a page holds those up to its last one. */
  lemma OnPage(eligible: seq<Object>, limit: nat, o: Object)
    requires limit > 0 && InOrder(eligible)
    ensures var page := FirstPage(eligible, limit);
      o in page.objects <==> o in eligible && (page.truncated ==> !Below(page.next, o.key))
  {
    if |eligible| > limit {
      var last := eligible[limit - 1];
      if o in eligible[..limit] {
        var i :| 0 <= i < limit && eligible[i] == o;
        BelowOrder(o.key, last.key, o.key);
      }
      if o in eligible && o !in eligible[..limit] {
        var i :| limit <= i < |eligible| && eligible[i] == o;
        assert Below(last.key, o.key);
      }
    }
  }

  /** Filtering a prefix gives a prefix of the filtered listing. */
  lemma PrefixOfFilter(p: Filterer, s: seq<Object>, n: nat)
    requires n <= |s|
    ensures |Filter(p, s[..n])| <= |Filter(p, s)| && Filter(p, s)[..|Filter(p, s[..n])|] == Filter(p, s[..n])
  {
    assert s == s[..n] + s[n..];
    FilterConcat(p, s[..n], s[n..]);
  }

  // ---- Order ------------------------------------------------------------

  lemma {:induction false} FilterInOrder(p: Filterer, s: seq<Object>)
    requires InOrder(s)
    ensures InOrder(Filter(p, s))
  {
    if s != [] {
      var n := |s| - 1;
      FilterInOrder(p, s[..n]);
      var f := Filter(p, s[..n]);
      forall i | 0 <= i < |f| ensures Below(f[i].key, s[n].key) {
        FilterMember(p, s[..n], f[i]);
        var j :| 0 <= j < n && s[j] == f[i];
      }
    }
  }

  lemma EligibleMeans(listing: seq<Object>, keeps: Filterer, cursor: Key, o: Object)
    ensures o in Eligible(listing, keeps, cursor) <==> o in listing && IsAfter(cursor, o) && keeps(o)
  {
    FilterMember(keeps, Streamed(listing, cursor), o);
    FilterMember(After(cursor), listing, o);
  }

  lemma EligibleInOrder(listing: seq<Object>, keeps: Filterer, cursor: Key)
    requires InOrder(listing)
    ensures InOrder(Eligible(listing, keeps, cursor))
  {
    FilterInOrder(After(cursor), listing);
    FilterInOrder(keeps, Streamed(listing, cursor));
  }

  // ---- Paging through a store that may change ---------------------------

  /** The state of the store at each call, and the limit asked for. */
  datatype Call = Call(listing: seq<Object>, limit: int)

  function PageOf(c: Call, keeps: Filterer, cursor: Key): Page
  {
    FirstPage(Eligible(c.listing, keeps, cursor), LimitOf(c.limit))
  }

  /** The objects of the pages, asking again from the cursor while the page is truncated. */
  function Walk(calls: seq<Call>, keeps: Filterer, cursor: Key): seq<Object>
    decreases |calls|
  {
    if calls == [] then []
    else
      var page := PageOf(calls[0], keeps, cursor);
      page.objects + if page.truncated then Walk(calls[1..], keeps, page.next) else []
  }

  /** The walk ends within the calls: some page is not truncated. */
  predicate Ends(calls: seq<Call>, keeps: Filterer, cursor: Key)
    decreases |calls|
  {
    calls != [] && (PageOf(calls[0], keeps, cursor).truncated ==>
          Ends(calls[1..], keeps, PageOf(calls[0], keeps, cursor).next))
  }

  predicate AllInOrder(calls: seq<Call>) { forall i :: 0 <= i < |calls| ==> InOrder(calls[i].listing) }

  predicate AllAfter(cursor: Key, s: seq<Object>) { forall i :: 0 <= i < |s| ==> IsAfter(cursor, s[i]) }

  lemma PageFacts(c: Call, keeps: Filterer, cursor: Key)
    requires InOrder(c.listing)
    ensures var page := PageOf(c, keeps, cursor); InOrder(page.objects) && AllAfter(cursor, page.objects)
  {
    var eligible := Eligible(c.listing, keeps, cursor);
    EligibleInOrder(c.listing, keeps, cursor);
    forall i | 0 <= i < |eligible|
      ensures IsAfter(cursor, eligible[i])
    {
      EligibleMeans(c.listing, keeps, cursor, eligible[i]);
    }
  }

  lemma AppendInOrder(a: seq<Object>, b: seq<Object>)
    requires InOrder(a) && InOrder(b) && a != [] && AllAfter(a[|a| - 1].key, b) && a[|a| - 1].key != START
    ensures InOrder(a + b)
  {
    var s, last := a + b, a[|a| - 1].key;
    forall i, j | 0 <= i < j < |s| ensures Below(s[i].key, s[j].key) {
      if i < |a| <= j {
        assert IsAfter(last, b[j - |a|]);
        BelowOrder(s[i].key, last, s[j].key);
      }
    }
  }

  /** Keys are not empty: an empty cursor means "from the start". */
  predicate Named(listing: seq<Object>) { forall o :: o in listing ==> o.key != START }

  predicate NamesKeys(calls: seq<Call>) { forall i :: 0 <= i < |calls| ==> Named(calls[i].listing) }

  /** A truncated page hands over the key of its last object, which lies after the cursor. */
  lemma NextCursor(c: Call, keeps: Filterer, cursor: Key)
    requires Named(c.listing) && PageOf(c, keeps, cursor).truncated
    ensures var page := PageOf(c, keeps, cursor);
      && page.objects != [] && page.next == page.objects[|page.objects| - 1].key && page.next != START
      && (cursor == START || Below(cursor, page.next))
  {
    var page := PageOf(c, keeps, cursor);
    EligibleMeans(c.listing, keeps, cursor, page.objects[|page.objects| - 1]);
  }

  /** A page and what follows it from its last key are in order after the cursor. */
  lemma PageThenRest(page: seq<Object>, next: Key, rest: seq<Object>, cursor: Key)
    requires page != [] && next == page[|page| - 1].key && next != START && (cursor == START || Below(cursor, next))
    requires InOrder(page) && AllAfter(cursor, page) && InOrder(rest) && AllAfter(next, rest)
    ensures InOrder(page + rest) && AllAfter(cursor, page + rest)
  {
    AppendInOrder(page, rest);
    StillAfter(cursor, next, rest);
  }

  lemma StillAfter(cursor: Key, next: Key, s: seq<Object>)
    requires AllAfter(next, s) && next != START && (cursor == START || Below(cursor, next))
    ensures AllAfter(cursor, s)
  {
    forall i | 0 <= i < |s| ensures IsAfter(cursor, s[i]) {
      assert IsAfter(next, s[i]);
      BelowOrder(cursor, next, s[i].key);
    }
  }

  /**
   However the store changes between pages, the pages together list keys in strictly increasing order after
   the cursor: no key is shown twice.
   */
  lemma {:induction false} WalkInOrder(calls: seq<Call>, keeps: Filterer, cursor: Key)
    requires AllInOrder(calls) && NamesKeys(calls)
    ensures InOrder(Walk(calls, keeps, cursor)) && AllAfter(cursor, Walk(calls, keeps, cursor))
    decreases |calls|
  {
    if calls != [] {
      var page := PageOf(calls[0], keeps, cursor);
      PageFacts(calls[0], keeps, cursor);
      if page.truncated {
        NextCursor(calls[0], keeps, cursor);
        WalkInOrder(calls[1..], keeps, page.next);
        PageThenRest(page.objects, page.next, Walk(calls[1..], keeps, page.next), cursor);
      } else {
        assert page.objects + [] == page.objects;
      }
    }
  }

  lemma OnPageOrLater(eligible: seq<Object>, limit: nat, o: Object)
    requires limit > 0 && InOrder(eligible) && o in eligible && |eligible| > limit
    ensures o in eligible[..limit] || Below(eligible[limit - 1].key, o.key)
  {}

  /** An object that may be shown and is in the store at every call is shown by a walk that ends. */
  lemma {:induction false} WalkFindsStable(calls: seq<Call>, keeps: Filterer, cursor: Key, o: Object)
    requires AllInOrder(calls) && Ends(calls, keeps, cursor)
    requires keeps(o) && IsAfter(cursor, o) && forall i :: 0 <= i < |calls| ==> o in calls[i].listing
    ensures o in Walk(calls, keeps, cursor)
    decreases |calls|
  {
    var eligible := Eligible(calls[0].listing, keeps, cursor);
    EligibleMeans(calls[0].listing, keeps, cursor, o);
    EligibleInOrder(calls[0].listing, keeps, cursor);
    var page := PageOf(calls[0], keeps, cursor);
    if page.truncated {
      OnPageOrLater(eligible, LimitOf(calls[0].limit), o);
      if o !in page.objects { WalkFindsStable(calls[1..], keeps, page.next, o); }
    }
  }

  /** Whatever is shown was in the store at some call and may be shown. */
  lemma {:induction false} WalkShowsStored(calls: seq<Call>, keeps: Filterer, cursor: Key, o: Object) returns (i: nat)
    requires o in Walk(calls, keeps, cursor)
    ensures i < |calls| && o in calls[i].listing && keeps(o)
    decreases |calls|
  {
    var page := PageOf(calls[0], keeps, cursor);
    if o in page.objects {
      EligibleMeans(calls[0].listing, keeps, cursor, o);
      i := 0;
    } else {
      i := WalkShowsStored(calls[1..], keeps, page.next, o);
      i := i + 1;
    }
  }

  // ---- Paging through a store that does not change ----------------------

  predicate ObjectLeq(a: Object, b: Object) { a.key == b.key || Below(a.key, b.key) }

  lemma InOrderKeys(a: seq<Object>, x: Object, y: Object)
    requires InOrder(a) && x in a && y in a && x.key == y.key
    ensures x == y
  {}

  lemma InOrderDistinct(a: seq<Object>)
    requires InOrder(a)
    ensures Distinct(a) && Sorted(ObjectLeq, a)
  {}

  /** Two listings in order with the same members are equal. */
  lemma InOrderUnique(a: seq<Object>, b: seq<Object>)
    requires InOrder(a) && InOrder(b) && forall o :: o in a <==> o in b
    ensures a == b
  {
    InOrderDistinct(a);
    InOrderDistinct(b);
    DistinctSameMembers(a, b);
    forall x, y | x in a && y in a && ObjectLeq(x, y) && ObjectLeq(y, x) ensures x == y {
      BelowOrder(x.key, y.key, x.key);
      InOrderKeys(a, x, y);
    }
    SortedUnique(ObjectLeq, a, b);
  }

  predicate Unchanged(calls: seq<Call>, listing: seq<Object>)
  {
    forall i :: 0 <= i < |calls| ==> calls[i].listing == listing
  }

  /** How much is left to show from a cursor. */
  function Left(listing: seq<Object>, keeps: Filterer, cursor: Key): nat { |Eligible(listing, keeps, cursor)| }

  /** A truncated page leaves at least one object fewer. */
  lemma TruncatedPageProgresses(listing: seq<Object>, keeps: Filterer, cursor: Key, limit: nat)
    requires InOrder(listing) && limit > 0 && FirstPage(Eligible(listing, keeps, cursor), limit).truncated
    requires Named(listing)
    ensures Left(listing, keeps, FirstPage(Eligible(listing, keeps, cursor), limit).next) < Left(listing, keeps, cursor)
  {
    var eligible := Eligible(listing, keeps, cursor);
    var next := FirstPage(eligible, limit).next;
    var later := Eligible(listing, keeps, next);
    var shown := eligible[limit - 1];
    EligibleInOrder(listing, keeps, cursor);
    EligibleInOrder(listing, keeps, next);
    EligibleMeans(listing, keeps, cursor, shown);
    EligibleMeans(listing, keeps, next, shown);
    forall o | o in later ensures o in eligible && o != shown {
      EligibleMeans(listing, keeps, next, o);
      EligibleMeans(listing, keeps, cursor, o);
      BelowOrder(cursor, next, o.key);
      BelowOrder(next, o.key, next);
    }
    assert Distinct(later) && Distinct(eligible);
    DistinctSize(later);
    DistinctSize(eligible);
    FewerMembers(Members(later), Members(eligible), shown);
  }

  lemma FewerMembers(a: set<Object>, b: set<Object>, x: Object)
    requires a <= b && x in b && x !in a
    ensures |a| < |b|
  {
    assert a <= b - {x};
    SubsetSize(a, b - {x});
  }

  /** Enough calls always end the walk. */
  lemma {:induction false} EnoughCallsEnd(calls: seq<Call>, listing: seq<Object>, keeps: Filterer, cursor: Key)
    requires InOrder(listing) && Unchanged(calls, listing) && Named(listing)
    requires |calls| > Left(listing, keeps, cursor)
    ensures Ends(calls, keeps, cursor)
    decreases |calls|
  {
    var page := PageOf(calls[0], keeps, cursor);
    if page.truncated {
      TruncatedPageProgresses(listing, keeps, cursor, LimitOf(calls[0].limit));
      EnoughCallsEnd(calls[1..], listing, keeps, page.next);
    }
  }

  /**
   Over an unchanged store, for any limits, paging from the empty cursor ends, and the pages together are
   the filtered listing: each processable key exactly once, in order.
   */
  lemma PagingIsTheListing(calls: seq<Call>, listing: seq<Object>, prefix: string)
    requires InOrder(listing) && Unchanged(calls, listing) && Named(listing) && |calls| > |listing|
    ensures Ends(calls, Keeps(prefix), START) && Walk(calls, Keeps(prefix), START) == Filter(Keeps(prefix), listing)
  {
    var keeps := Keeps(prefix);
    EnoughCallsEnd(calls, listing, keeps, START);
    var walk, all := Walk(calls, keeps, START), Filter(keeps, listing);
    WalkInOrder(calls, keeps, START);
    FilterInOrder(keeps, listing);
    forall o ensures o in walk <==> o in all {
      FilterMember(keeps, listing, o);
      if o in walk { var i := WalkShowsStored(calls, keeps, START, o); }
      if o in all { WalkFindsStable(calls, keeps, START, o); }
    }
    InOrderUnique(walk, all);
  }
}
