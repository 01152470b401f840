/** The string operations of the Go services: trimming, lower case, prefixes and suffixes. */
module Text {

  /** Unicode white space. */
  predicate IsSpace(c: char)
  {
    || c in " \t\n\r" || c in "\U{0B}\U{0C}\U{85}\U{A0}"
    || c in "\U{1680}\U{2028}\U{2029}\U{202F}\U{205F}\U{3000}" || '\U{2000}' <= c <= '\U{200A}'
  }

  function TrimLeft(s: string): string { if s != [] && IsSpace(s[0]) then TrimLeft(s[1..]) else s }

  function TrimRight(s: string): string { if s != [] && IsSpace(s[|s| - 1]) then TrimRight(s[..|s| - 1]) else s }

  function Trim(s: string): string { TrimRight(TrimLeft(s)) }

  /** The characters whose lower case is an ASCII letter; the rest are left as they are. */
  function LowerChar(c: char): char
  {
    if 'A' <= c <= 'Z' then (c as int + 32) as char
    else if c == '\U{0130}' then 'i'
    else if c == '\U{212A}' then 'k'
    else c
  }

  function Lower(s: string): string { seq(|s|, i requires 0 <= i < |s| => LowerChar(s[i])) }

  predicate Blank(s: string) { forall i :: 0 <= i < |s| ==> IsSpace(s[i]) }

  lemma {:induction false} TrimLeftKeeps(a: string, b: string)
    requires b != [] && !IsSpace(b[0])
    ensures exists k :: 0 <= k <= |a| && TrimLeft(a + b) == a[k..] + b
  {
    if a != [] && IsSpace(a[0]) {
      assert (a + b)[1..] == a[1..] + b;
      TrimLeftKeeps(a[1..], b);
      var k :| 0 <= k <= |a[1..]| && TrimLeft(a[1..] + b) == a[1..][k..] + b;
      assert a[1..][k..] == a[k + 1..];
    } else {
      assert (a + b)[0] == if a == [] then b[0] else a[0];
      assert a[0..] == a;
    }
  }

  lemma {:induction false} TrimRightDrops(a: string, b: string)
    requires Blank(b) && (a != [] ==> !IsSpace(a[|a| - 1]))
    ensures TrimRight(a + b) == a
  {
    if b != [] {
      var s, n := a + b, |a| + |b| - 1;
      assert s[..n] == a + b[..|b| - 1];
      TrimRightDrops(a, b[..|b| - 1]);
    } else {
      assert a + b == a;
    }
  }

  lemma {:induction false} TrimLeftIsTail(s: string) returns (k: nat)
    ensures k <= |s| && TrimLeft(s) == s[k..] && Blank(s[..k]) && (k < |s| ==> !IsSpace(s[k]))
  {
    k := 0;
    if s != [] && IsSpace(s[0]) {
      k := TrimLeftIsTail(s[1..]);
      k := k + 1;
      assert s[..k] == [s[0]] + s[1..][..k - 1];
    }
  }

  lemma {:induction false} TrimRightIsHead(s: string) returns (k: nat)
    ensures k <= |s| && TrimRight(s) == s[..k] && Blank(s[k..]) && (k > 0 ==> !IsSpace(s[k - 1]))
  {
    k := |s|;
    if s != [] && IsSpace(s[|s| - 1]) {
      k := TrimRightIsHead(s[..|s| - 1]);
      assert s[k..] == s[..|s| - 1][k..] + [s[|s| - 1]];
    }
  }

  predicate Trims(s: string, i: int, j: int)
  {
    && 0 <= i <= j <= |s| && Blank(s[..i]) && Blank(s[j..])
    && (i < j ==> !IsSpace(s[i]) && !IsSpace(s[j - 1]))
  }

  /** `t` is `s` without the white space at both ends. */
  ghost predicate IsTrimmed(s: string, t: string) { exists i, j :: Trims(s, i, j) && t == s[i..j] }

  lemma TrimIsTrimmed(s: string)
    ensures IsTrimmed(s, Trim(s))
  {
    var i := TrimLeftIsTail(s);
    var k := TrimRightIsHead(s[i..]);
    var j := i + k;
    assert s[j..] == s[i..][k..] && s[i..j] == s[i..][..k];
    assert Trims(s, i, j);
  }

  lemma BlankEnds(s: string, i: nat, j: nat)
    requires i <= j <= |s| && Blank(s[..i]) && Blank(s[j..])
    ensures forall n :: 0 <= n < |s| && !IsSpace(s[n]) ==> i <= n < j
  {
    forall n | 0 <= n < i ensures IsSpace(s[n]) { assert s[..i][n] == s[n]; }
    forall n | j <= n < |s| ensures IsSpace(s[n]) { assert s[j..][n - j] == s[n]; }
  }

  lemma TrimsUnique(s: string, i: nat, j: nat, m: nat, n: nat)
    requires Trims(s, i, j) && Trims(s, m, n)
    ensures s[i..j] == s[m..n]
  {
    BlankEnds(s, i, j);
    BlankEnds(s, m, n);
  }

  lemma TrimMeans(s: string, t: string)
    ensures t == Trim(s) <==> IsTrimmed(s, t)
  {
    TrimIsTrimmed(s);
    if IsTrimmed(s, t) {
      var i, j :| Trims(s, i, j) && t == s[i..j];
      var m, n :| Trims(s, m, n) && Trim(s) == s[m..n];
      TrimsUnique(s, i, j, m, n);
    }
  }

  lemma BlankMeans(s: string)
    ensures Trim(s) == "" <==> Blank(s)
  {
    TrimMeans(s, "");
    if Blank(s) {
      assert s[0..] == s && s[..0] == [];
      assert Trims(s, 0, 0) && s[0..0] == "";
    }
    if Trim(s) == "" {
      var i, j :| Trims(s, i, j) && "" == s[i..j];
      assert s == s[..i] + s[j..];
    }
  }

  predicate HasPrefix(s: string, p: string) { |p| <= |s| && s[..|p|] == p }

  predicate HasSuffix(s: string, p: string) { |p| <= |s| && s[|s| - |p|..] == p }

  /** Which code points are white space. */
  lemma SpaceMeans(c: char)
    ensures IsSpace(c) <==>
      || c as int in {9, 10, 11, 12, 13, 32, 0x85, 0xA0, 0x1680, 0x2028, 0x2029, 0x202F, 0x205F, 0x3000}
      || 0x2000 <= c as int <= 0x200A
  {}

  /** A capital letter becomes the small one at its place in the alphabet, and small letters stay. */
  lemma LowerMeans(c: char)
    ensures 'A' as int <= c as int < 'A' as int + 26 ==> LowerChar(c) as int - 'a' as int == c as int - 'A' as int
    ensures 'a' <= c <= 'z' || '0' <= c <= '9' || c in "./:" ==> LowerChar(c) == c
    ensures c as int in {0x130, 0x212A} ==> LowerChar(c) == if c as int == 0x130 then 'i' else 'k'
    ensures LowerChar(c) in "fitsgz." ==> c in "fitsgz.FITSGZ" || c as int == 0x130
  {}

  lemma PrefixMeans(s: string, p: string)
    ensures HasPrefix(s, p) <==> exists rest :: s == p + rest
  {
    if HasPrefix(s, p) { assert s == p + s[|p|..]; }
  }
}
