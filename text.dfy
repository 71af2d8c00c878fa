/** The few Python string operations the core relies on: substring search,
    `str.replace(p, "")`, `str.strip()`, `str.lower()`, `str.join` and the
    decimal rendering of integers in f-strings. */
module Text {

  // ---------------------------------------------------------------------------
  // Substring search (`p in s`, `s.find(p)`, `s.rfind(c)`)
  // ---------------------------------------------------------------------------

  /** `p` occurs in `s` starting at index `i`. */
  predicate OccursAt(s: string, p: string, i: int) {
    0 <= i && i + |p| <= |s| && s[i..i + |p|] == p
  }

  /** Index of the first occurrence of `p` in `s` at or after `i`, or -1. */
  function FindFrom(s: string, p: string, i: nat): (r: int)
    requires i <= |s|
    ensures r == -1 || (i <= r && OccursAt(s, p, r))
    ensures r == -1 ==> forall j :: i <= j ==> !OccursAt(s, p, j)
    ensures r >= 0 ==> forall j :: i <= j < r ==> !OccursAt(s, p, j)
    decreases |s| - i
  {
    if OccursAt(s, p, i) then i
    else if i == |s| then -1
    else FindFrom(s, p, i + 1)
  }

  /** Python's `s.find(p)`. */
  function Find(s: string, p: string): int {
    FindFrom(s, p, 0)
  }

  /** Python's `p in s` for strings. */
  predicate Contains(s: string, p: string) {
    Find(s, p) >= 0
  }

  lemma ContainsIff(s: string, p: string)
    ensures Contains(s, p) <==> exists j :: OccursAt(s, p, j)
  {
    if !Contains(s, p) {
      forall j ensures !OccursAt(s, p, j) {
        if j < 0 { } else { assert 0 <= j; }
      }
    }
  }

  /** A slice of a string that does not contain `p` does not contain `p` either. */
  lemma {:induction false} NotContainsSlice(s: string, p: string, i: nat, j: nat)
    requires i <= j <= |s|
    requires !Contains(s, p)
    ensures !Contains(s[i..j], p)
  {
    var t := s[i..j];
    if Contains(t, p) {
      var k := Find(t, p);
      assert OccursAt(t, p, k);
      SliceOfSlice(s, i, j, k, k + |p|);
      assert OccursAt(s, p, i + k);
      assert false;
    }
  }

  lemma SliceOfSlice(s: string, i: nat, j: nat, a: nat, b: nat)
    requires i <= j <= |s| && a <= b <= j - i
    ensures s[i..j][a..b] == s[i + a..i + b]
  {
    forall k | 0 <= k < b - a ensures s[i..j][a..b][k] == s[i + a + k] {
      assert s[i..j][a + k] == s[i + a + k];
    }
  }

  /** Nothing before the first occurrence of `p` contains `p`. */
  lemma BeforeFindAbsent(s: string, p: string)
    requires p != [] && Contains(s, p)
    ensures !Contains(s[..Find(s, p)], p)
  {
    var t := s[..Find(s, p)];
    forall j ensures !OccursAt(t, p, j) {
      if 0 <= j && j + |p| <= |t| {
        assert t[j..j + |p|] == s[j..j + |p|];
        assert !OccursAt(s, p, j);
      }
    }
    ContainsIff(t, p);
  }

  /** Wherever `p` occurs, every prefix of `p` occurs. */
  lemma ContainsPrefix(s: string, p: string, q: string)
    requires Contains(s, p) && q <= p
    ensures Contains(s, q)
  {
    var k := Find(s, p);
    assert s[k..k + |q|] == s[k..k + |p|][..|q|];
    assert OccursAt(s, q, k);
    ContainsIff(s, q);
  }

  /** Python's `s.find(c)` for one character. */
  function FirstIndexOf(s: string, c: char): (r: int)
    ensures -1 <= r < |s|
    ensures r >= 0 ==> s[r] == c && forall j :: 0 <= j < r ==> s[j] != c
    ensures r == -1 ==> forall j :: 0 <= j < |s| ==> s[j] != c
  {
    if |s| == 0 then -1
    else if s[0] == c then 0
    else var r := FirstIndexOf(s[1..], c); if r == -1 then -1 else r + 1
  }

  /** Python's `s.rfind(c)` for one character. */
  function LastIndexOf(s: string, c: char): (r: int)
    ensures -1 <= r < |s|
    ensures r >= 0 ==> s[r] == c && forall j :: r < j < |s| ==> s[j] != c
    ensures r == -1 ==> forall j :: 0 <= j < |s| ==> s[j] != c
  {
    if |s| == 0 then -1
    else if s[|s| - 1] == c then |s| - 1
    else LastIndexOf(s[..|s| - 1], c)
  }

  // ---------------------------------------------------------------------------
  // `s.replace(p, "")`: left-to-right, non-overlapping removal
  // ---------------------------------------------------------------------------

  function RemoveAll(s: string, p: string): (r: string)
    requires p != []
    ensures |r| <= |s|
    decreases |s|
  {
    if |s| < |p| then s
    else if s[..|p|] == p then RemoveAll(s[|p|..], p)
    else [s[0]] + RemoveAll(s[1..], p)
  }

  /** A string in which `p` does not occur is left as it is. */
  lemma {:induction false} RemoveAllAbsent(s: string, p: string)
    requires p != []
    requires !Contains(s, p)
    ensures RemoveAll(s, p) == s
    decreases |s|
  {
    if |s| < |p| {
    } else {
      assert s[..|p|] != p by { assert !OccursAt(s, p, 0); }
      NotContainsSlice(s, p, 1, |s|);
      assert s[1..|s|] == s[1..];
      RemoveAllAbsent(s[1..], p);
      assert s == [s[0]] + s[1..];
    }
  }

  /** Removing `p` from `p + s` is removing it from `s`: a leading copy is simply dropped. */
  lemma LeadingPatternDropped(s: string, p: string)
    requires p != []
    ensures RemoveAll(p + s, p) == RemoveAll(s, p)
  {
    assert (p + s)[..|p|] == p;
    assert (p + s)[|p|..] == s;
  }

  /** Where `p` does not start, the first character is kept and removal goes on after it. */
  lemma RemoveAllStep(t: string, p: string)
    requires p != [] && |t| >= 1 && !OccursAt(t, p, 0)
    ensures RemoveAll(t, p) == [t[0]] + RemoveAll(t[1..], p)
  {
    if |t| >= |p| {
      assert t[..|p|] == t[0..0 + |p|];
    }
  }

  /** An occurrence at `i` is an occurrence at the front of the suffix from `i`. */
  lemma OccursAtSuffix(s: string, p: string, i: nat)
    requires i <= |s|
    ensures OccursAt(s[i..], p, 0) <==> OccursAt(s, p, i)
  {
    if |p| <= |s| - i {
      SliceOfSlice(s, i, |s|, 0, |p|);
    }
  }

  /** One more kept character: where `p` does not occur at `k - 1`, that character moves
      from the removed part to the kept prefix. */
  lemma KeepOne(s: string, p: string, k: nat)
    requires p != [] && 0 < k <= |s| && !OccursAt(s, p, k - 1)
    ensures s[..k - 1] + RemoveAll(s[k - 1..], p) == s[..k] + RemoveAll(s[k..], p)
  {
    var t := s[k - 1..];
    OccursAtSuffix(s, p, k - 1);
    RemoveAllStep(t, p);
    assert t[1..] == s[k..];
    assert s[..k - 1] + [t[0]] == s[..k];
  }

  /** Text before the first occurrence is kept as it is: removal only acts from there on. */
  lemma {:induction false} RemoveAllKeeps(s: string, p: string, k: nat)
    requires p != [] && k <= |s|
    requires forall j :: 0 <= j < k ==> !OccursAt(s, p, j)
    ensures RemoveAll(s, p) == s[..k] + RemoveAll(s[k..], p)
    decreases k
  {
    if k > 0 {
      RemoveAllKeeps(s, p, k - 1);
      KeepOne(s, p, k);
    }
  }

  /** Every occurrence is removed, not only a leading one: the first occurrence goes, the
      text before it is kept, and removal goes on after it. */
  lemma RemoveAllFirst(s: string, p: string)
    requires p != []
    requires Contains(s, p)
    ensures RemoveAll(s, p) == s[..Find(s, p)] + RemoveAll(s[Find(s, p) + |p|..], p)
  {
    var k := Find(s, p);
    RemoveAllKeeps(s, p, k);
    var t := s[k..];
    assert t[..|p|] == p;
    assert t[|p|..] == s[k + |p|..];
  }

  // ---------------------------------------------------------------------------
  // `s.strip()` with Python's notion of whitespace
  // ---------------------------------------------------------------------------

  /** Python's `str.isspace()` for a single character. */
  predicate IsSpace(c: char) {
    || c == ' '
    || ('\t' <= c <= '\r')
    || ('\U{1C}' <= c <= '\U{1F}')
    || c == '\U{85}' || c == '\U{A0}' || c == '\U{1680}'
    || ('\U{2000}' <= c <= '\U{200A}')
    || c == '\U{2028}' || c == '\U{2029}' || c == '\U{202F}' || c == '\U{205F}' || c == '\U{3000}'
  }

  /** The first index at or after `i` that is not whitespace (`|s|` when there is none). */
  function SpanStart(s: string, i: nat): (n: nat)
    requires i <= |s|
    ensures i <= n <= |s|
    ensures forall j :: i <= j < n ==> IsSpace(s[j])
    ensures n < |s| ==> !IsSpace(s[n])
    decreases |s| - i
  {
    if i < |s| && IsSpace(s[i]) then SpanStart(s, i + 1) else i
  }

  /** The end of `s[lo..e]` once its trailing whitespace is dropped. */
  function SpanEnd(s: string, lo: nat, e: nat): (n: nat)
    requires lo <= e <= |s|
    ensures lo <= n <= e
    ensures forall j :: n <= j < e ==> IsSpace(s[j])
    ensures n > lo ==> !IsSpace(s[n - 1])
    decreases e
  {
    if e > lo && IsSpace(s[e - 1]) then SpanEnd(s, lo, e - 1) else e
  }

  /** Python's `s.strip()`. */
  function Strip(s: string): (r: string)
    ensures |r| <= |s|
  {
    var i := SpanStart(s, 0);
    s[i..SpanEnd(s, i, |s|)]
  }

  /** `strip` keeps the slice `s[i..j]`: everything before `i` and from `j` on is whitespace,
      and the slice neither starts nor ends with whitespace. */
  lemma StripSlice(s: string) returns (i: nat, j: nat)
    ensures i <= j <= |s| && Strip(s) == s[i..j]
    ensures forall k :: 0 <= k < i ==> IsSpace(s[k])
    ensures forall k :: j <= k < |s| ==> IsSpace(s[k])
    ensures i < j ==> !IsSpace(s[i]) && !IsSpace(s[j - 1])
  {
    i := SpanStart(s, 0);
    j := SpanEnd(s, i, |s|);
  }

  // ---------------------------------------------------------------------------
  // `s.lower()` (ASCII letters)
  // ---------------------------------------------------------------------------

  function LowerChar(c: char): char {
    if 'A' <= c <= 'Z' then (c as int + 32) as char else c
  }

  function Lower(s: string): (r: string)
    ensures |r| == |s|
    ensures forall i :: 0 <= i < |s| ==> r[i] == LowerChar(s[i])
  {
    seq(|s|, i requires 0 <= i < |s| => LowerChar(s[i]))
  }

  lemma LowerIdempotent(s: string)
    ensures Lower(Lower(s)) == Lower(s)
  {
  }

  /** Lower-casing never creates or removes whitespace, so it commutes with stripping. */
  lemma StripLowerCommute(s: string)
    ensures Strip(Lower(s)) == Lower(Strip(s))
  {
    var l := Lower(s);
    SpanStartLower(s, 0);
    var i := SpanStart(s, 0);
    SpanEndLower(s, i, |s|);
    var j := SpanEnd(s, i, |s|);
    assert Strip(l) == l[i..j];
    LowerSlice(s, i, j);
  }

  lemma LowerSlice(s: string, i: nat, j: nat)
    requires i <= j <= |s|
    ensures Lower(s[i..j]) == Lower(s)[i..j]
  {
    var a := Lower(s[i..j]);
    var b := Lower(s)[i..j];
    forall k | 0 <= k < j - i ensures a[k] == b[k] {
      assert s[i..j][k] == s[i + k];
    }
  }

  /** Lower-casing only touches ASCII capitals, none of which is whitespace. */
  lemma LowerKeepsSpace(c: char)
    ensures IsSpace(LowerChar(c)) == IsSpace(c)
  {
  }

  lemma {:induction false} SpanStartLower(s: string, i: nat)
    requires i <= |s|
    ensures SpanStart(Lower(s), i) == SpanStart(s, i)
    decreases |s| - i
  {
    if i < |s| {
      LowerKeepsSpace(s[i]);
      if IsSpace(s[i]) {
        SpanStartLower(s, i + 1);
      }
    }
  }

  lemma {:induction false} SpanEndLower(s: string, lo: nat, e: nat)
    requires lo <= e <= |s|
    ensures SpanEnd(Lower(s), lo, e) == SpanEnd(s, lo, e)
    decreases e
  {
    if e > lo {
      LowerKeepsSpace(s[e - 1]);
      if IsSpace(s[e - 1]) {
        SpanEndLower(s, lo, e - 1);
      }
    }
  }

  // ---------------------------------------------------------------------------
  // `sep.join(parts)`
  // ---------------------------------------------------------------------------

  function Join(parts: seq<string>, sep: string): string {
    if |parts| == 0 then ""
    else if |parts| == 1 then parts[0]
    else parts[0] + sep + Join(parts[1..], sep)
  }

  // ---------------------------------------------------------------------------
  // Decimal rendering of integers (`str(n)`, `f"{n}"`, `f"{n:02d}"`)
  // ---------------------------------------------------------------------------

  predicate IsDigit(c: char) {
    '0' as int <= c as int <= '9' as int
  }

  function DigitChar(d: nat): (c: char)
    requires d < 10
    ensures IsDigit(c) && DigitValue(c) == d
  {
    ('0' as int + d) as char
  }

  function NatToString(n: nat): (r: string)
    ensures |r| >= 1
    ensures forall i :: 0 <= i < |r| ==> IsDigit(r[i])
    decreases n
  {
    if n < 10 then [DigitChar(n)] else NatToString(n / 10) + [DigitChar(n % 10)]
  }

  function DigitValue(c: char): (d: nat)
    requires IsDigit(c)
    ensures d < 10
  {
    c as int - '0' as int
  }

  /** The number a string of decimal digits denotes. */
  function DigitsValue(s: string): nat
    requires forall i :: 0 <= i < |s| ==> IsDigit(s[i])
  {
    if s == [] then 0
    else
      assert IsDigit(s[|s| - 1]);
      DigitsValue(s[..|s| - 1]) * 10 + DigitValue(s[|s| - 1])
  }

  lemma {:induction false} NatToStringRoundTrip(n: nat)
    ensures DigitsValue(NatToString(n)) == n
    decreases n
  {
    var s := NatToString(n);
    if n >= 10 {
      NatToStringRoundTrip(n / 10);
      assert s[..|s| - 1] == NatToString(n / 10);
    } else {
      assert s[..|s| - 1] == [];
    }
  }

  lemma NatToStringInjective(a: nat, b: nat)
    ensures NatToString(a) == NatToString(b) ==> a == b
  {
    NatToStringRoundTrip(a);
    NatToStringRoundTrip(b);
  }

  /** Python's `str(n)` for an int. */
  function IntToString(n: int): (r: string)
    ensures |r| >= 1
    ensures forall i :: 0 <= i < |r| ==> IsDigit(r[i]) || r[i] == '-'
    ensures (r[0] == '-') <==> n < 0
  {
    if n < 0 then "-" + NatToString(-n) else NatToString(n)
  }

  /** Distinct integers render differently, so the rendering can be read back. */
  lemma IntToStringInjective(a: int, b: int)
    ensures IntToString(a) == IntToString(b) ==> a == b
  {
    if IntToString(a) == IntToString(b) {
      if a < 0 && b < 0 {
        assert NatToString(-a) == IntToString(a)[1..];
        assert NatToString(-b) == IntToString(b)[1..];
        NatToStringInjective(-a, -b);
      } else if a >= 0 && b >= 0 {
        NatToStringInjective(a, b);
      }
    }
  }

  /** A rendered integer followed by text that does not start with a digit or a sign can be
      split back into the integer and the text. */
  lemma {:induction false} IntToStringPrefixUnique(a: int, x: string, b: int, y: string)
    requires IntToString(a) + x == IntToString(b) + y
    requires x != [] && !IsDigit(x[0]) && x[0] != '-'
    requires y != [] && !IsDigit(y[0]) && y[0] != '-'
    ensures a == b && x == y
  {
    var da, db := IntToString(a), IntToString(b);
    var s := da + x;
    assert da == s[..|da|];
    assert db == s[..|db|];
    IntToStringInjective(a, b);
    assert x == s[|da|..];
    assert y == s[|db|..];
  }

  /** Python's `f"{n:02d}"`: zero-padded to width two; a sign counts towards the width. */
  function Pad2(n: int): (r: string)
    ensures 0 <= n < 10 ==> r == "0" + [DigitChar(n)]
    ensures !(0 <= n < 10) ==> r == IntToString(n)
  {
    if 0 <= n < 10 then "0" + IntToString(n) else IntToString(n)
  }
}
