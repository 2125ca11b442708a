/**
 * The JavaScript string operations that the service code relies on, written
 * out over `seq<char>`: trimming with the ECMAScript whitespace set, ASCII
 * upper-casing, decimal rendering and `parseInt(s, 10)`, `padStart`/`padEnd`
 * with a one-character filler, and `join`/`split`.
 */
module Strings {

  import opened Wrappers

  // ---------------------------------------------------------------------
  // Characters
  // ---------------------------------------------------------------------

  /** ECMAScript WhiteSpace and LineTerminator code points (what `trim` removes). */
  predicate IsJsWhitespace(c: char) {
    || c == '\t' || c == '\n' || c == '\U{000B}' || c == '\U{000C}' || c == '\r'
    || c == ' ' || c == '\U{00A0}' || c == '\U{1680}'
    || ('\U{2000}' <= c <= '\U{200A}')
    || c == '\U{2028}' || c == '\U{2029}' || c == '\U{202F}' || c == '\U{205F}'
    || c == '\U{3000}' || c == '\U{FEFF}'
  }

  /** The characters regular-expression `.` refuses to match. */
  predicate IsLineTerminator(c: char) {
    c == '\n' || c == '\r' || c == '\U{2028}' || c == '\U{2029}'
  }

  predicate IsDigit(c: char) { '0' <= c <= '9' }

  predicate AllDigits(s: string) { forall i :: 0 <= i < |s| ==> IsDigit(s[i]) }

  function DigitChar(d: nat): (c: char)
    requires d < 10
    ensures IsDigit(c)
  {
    "0123456789"[d]
  }

  function DigitValue(c: char): (d: nat)
    requires IsDigit(c)
    ensures d < 10
  {
    (c as int) - ('0' as int)
  }

  lemma DigitRoundTrip(d: nat)
    requires d < 10
    ensures DigitValue(DigitChar(d)) == d
  {
  }

  /** `toUpperCase` restricted to the ASCII letters. */
  function AsciiUpper(c: char): (u: char)
    ensures 'a' <= c <= 'z' ==> u as int == c as int - 32
    ensures !('a' <= c <= 'z') ==> u == c
  {
    if 'a' <= c <= 'z' then (c as int - 32) as char else c
  }

  function ToUpper(s: string): (r: string)
    ensures |r| == |s|
    ensures forall i :: 0 <= i < |s| ==> r[i] == AsciiUpper(s[i])
  {
    if s == [] then [] else [AsciiUpper(s[0])] + ToUpper(s[1..])
  }

  lemma {:induction false} ToUpperAppend(a: string, b: string)
    ensures ToUpper(a + b) == ToUpper(a) + ToUpper(b)
  {
    if a == [] {
      assert a + b == b;
    } else {
      assert (a + b)[0] == a[0];
      assert (a + b)[1..] == a[1..] + b;
      ToUpperAppend(a[1..], b);
    }
  }

  // ---------------------------------------------------------------------
  // Prefixes, filtering, repetition
  // ---------------------------------------------------------------------

  predicate StartsWith(s: string, p: string) { |p| <= |s| && s[..|p|] == p }

  /** `s.replace(/[set]/g, '')`: every character for which `drop` holds is removed. */
  function Remove(s: string, drop: char -> bool): (r: string)
    ensures |r| <= |s|
    ensures forall i :: 0 <= i < |r| ==> !drop(r[i])
  {
    if s == [] then []
    else if drop(s[0]) then Remove(s[1..], drop)
    else [s[0]] + Remove(s[1..], drop)
  }

  lemma {:induction false} RemoveNothing(s: string, drop: char -> bool)
    requires forall i :: 0 <= i < |s| ==> !drop(s[i])
    ensures Remove(s, drop) == s
  {
    if s != [] {
      RemoveNothing(s[1..], drop);
    }
  }

  /** A single character is kept exactly when it is not dropped. */
  lemma RemoveOne(c: char, drop: char -> bool)
    ensures Remove([c], drop) == if drop(c) then [] else [c]
  {
    assert [c][1..] == [];
  }

  lemma {:induction false} RemoveAppend(a: string, b: string, drop: char -> bool)
    ensures Remove(a + b, drop) == Remove(a, drop) + Remove(b, drop)
  {
    if a == [] {
      assert a + b == b;
    } else {
      assert (a + b)[1..] == a[1..] + b;
      RemoveAppend(a[1..], b, drop);
    }
  }

  function Repeat(c: char, n: nat): (r: string)
    ensures |r| == n
    ensures forall i :: 0 <= i < n ==> r[i] == c
  {
    if n == 0 then [] else [c] + Repeat(c, n - 1)
  }

  /** `s.padStart(target, fill)` for a one-character `fill`: never truncates. */
  function PadStart(s: string, target: int, fill: char): (r: string)
    ensures |r| == if target <= |s| then |s| else target
    ensures StartsWith(r, Repeat(fill, |r| - |s|))
    ensures r[|r| - |s|..] == s
  {
    if target <= |s| then s else Repeat(fill, target - |s|) + s
  }

  /** `s.padEnd(target, fill)` for a one-character `fill`: never truncates. */
  function PadEnd(s: string, target: int, fill: char): (r: string)
    ensures |r| == if target <= |s| then |s| else target
    ensures r[..|s|] == s
    ensures forall i :: |s| <= i < |r| ==> r[i] == fill
  {
    if target <= |s| then s else s + Repeat(fill, target - |s|)
  }

  // ---------------------------------------------------------------------
  // Trimming
  // ---------------------------------------------------------------------

  function TrimStart(s: string): (r: string)
    ensures |r| <= |s| && r == s[|s| - |r|..]
    ensures r == [] || !IsJsWhitespace(r[0])
    ensures forall i :: 0 <= i < |s| - |r| ==> IsJsWhitespace(s[i])
  {
    if s != [] && IsJsWhitespace(s[0]) then
      var r := TrimStart(s[1..]);
      assert forall i :: 1 <= i < |s| ==> s[i] == s[1..][i - 1];
      r
    else s
  }

  function TrimEnd(s: string): (r: string)
    ensures |r| <= |s| && r == s[..|r|]
    ensures r == [] || !IsJsWhitespace(r[|r| - 1])
    ensures forall i :: |r| <= i < |s| ==> IsJsWhitespace(s[i])
  {
    if s != [] && IsJsWhitespace(s[|s| - 1]) then
      var r := TrimEnd(s[..|s| - 1]);
      assert forall i :: 0 <= i < |s| - 1 ==> s[i] == s[..|s| - 1][i];
      r
    else s
  }

  /**
   * `r` is `s` with its outer whitespace cut: a slice of `s` with only
   * whitespace before and after it, and no whitespace at either of its ends.
   */
  ghost predicate TrimmedFrom(s: string, r: string) {
    && (r == [] || (!IsJsWhitespace(r[0]) && !IsJsWhitespace(r[|r| - 1])))
    && exists lo :: 0 <= lo <= |s| - |r| && SliceAround(s, lo, r)
  }

  ghost predicate SliceAround(s: string, lo: int, r: string)
    requires 0 <= lo <= |s| - |r|
  {
    && r == s[lo..lo + |r|]
    && (forall i :: 0 <= i < lo ==> IsJsWhitespace(s[i]))
    && (forall i :: lo + |r| <= i < |s| ==> IsJsWhitespace(s[i]))
  }

  /** `String.prototype.trim`. */
  function Trim(s: string): (r: string)
    ensures |r| <= |s|
    ensures r == [] || (!IsJsWhitespace(r[0]) && !IsJsWhitespace(r[|r| - 1]))
  {
    TrimEnd(TrimStart(s))
  }

  /** Trimming cuts exactly the outer whitespace. */
  lemma TrimCutsOuterWhitespace(s: string)
    ensures TrimmedFrom(s, Trim(s))
  {
    var t := TrimStart(s);
    var r := TrimEnd(t);
    var lo := |s| - |t|;
    assert r == s[lo..lo + |r|];
    assert SliceAround(s, lo, r);
  }

  /** A string is blank when it is empty or consists of whitespace only. */
  lemma {:induction false} BlankIffAllWhitespace(s: string)
    ensures Trim(s) == [] <==> forall i :: 0 <= i < |s| ==> IsJsWhitespace(s[i])
  {
    var t := TrimStart(s);
    if forall i :: 0 <= i < |s| ==> IsJsWhitespace(s[i]) {
      assert t == s[|s| - |t|..];
    } else {
      var k :| 0 <= k < |s| && !IsJsWhitespace(s[k]);
      assert k >= |s| - |t|;
      assert t[k - (|s| - |t|)] == s[k];
      var r := TrimEnd(t);
      assert k - (|s| - |t|) < |r|;
    }
  }

  /** Trimming only removes characters, so a string free of some characters stays free of them. */
  lemma TrimPreserves(s: string, drop: char -> bool)
    requires forall i :: 0 <= i < |s| ==> !drop(s[i])
    ensures forall i :: 0 <= i < |Trim(s)| ==> !drop(Trim(s)[i])
  {
    var t := TrimStart(s);
    SliceFree(s, |s| - |t|, |s|, drop);
    var r := TrimEnd(t);
    SliceFree(t, 0, |r|, drop);
  }

  lemma SliceFree(s: string, lo: nat, hi: nat, drop: char -> bool)
    requires lo <= hi <= |s|
    requires forall i :: 0 <= i < |s| ==> !drop(s[i])
    ensures forall i :: 0 <= i < hi - lo ==> !drop(s[lo..hi][i])
  {
    forall i | 0 <= i < hi - lo
      ensures !drop(s[lo..hi][i])
    {
      assert s[lo..hi][i] == s[lo + i];
    }
  }

  lemma TrimKeepsTrimmed(s: string)
    requires s == [] || (!IsJsWhitespace(s[0]) && !IsJsWhitespace(s[|s| - 1]))
    ensures Trim(s) == s
  {
  }

  // ---------------------------------------------------------------------
  // Decimal numerals
  // ---------------------------------------------------------------------

  /** `n.toString()` for a whole number: decimal digits, no leading zero. */
  function NatToString(n: nat): (r: string)
    ensures |r| >= 1 && AllDigits(r)
    ensures |r| > 1 ==> r[0] != '0'
    decreases n
  {
    if n < 10 then [DigitChar(n)] else NatToString(n / 10) + [DigitChar(n % 10)]
  }

  /** `i.toString()` for an integer. */
  function IntToString(i: int): (r: string)
    ensures |r| >= 1
    ensures i >= 0 ==> r == NatToString(i)
    ensures i < 0 ==> r == "-" + NatToString(-i)
  {
    if i < 0 then "-" + NatToString(-i) else NatToString(i)
  }

  /** The value of a string of decimal digits. */
  function DigitsValue(s: string): nat
    requires AllDigits(s)
  {
    if s == [] then 0 else 10 * DigitsValue(s[..|s| - 1]) + DigitValue(s[|s| - 1])
  }

  lemma {:induction false} NatToStringRoundTrip(n: nat)
    ensures DigitsValue(NatToString(n)) == n
    decreases n
  {
    var r := NatToString(n);
    if n >= 10 {
      NatToStringRoundTrip(n / 10);
      assert r[..|r| - 1] == NatToString(n / 10);
    }
  }

  lemma {:induction false} NatToStringInjective(a: nat, b: nat)
    requires NatToString(a) == NatToString(b)
    ensures a == b
  {
    NatToStringRoundTrip(a);
    NatToStringRoundTrip(b);
  }

  lemma {:induction false} LeadingZerosKeepValue(k: nat, s: string)
    requires AllDigits(s)
    ensures AllDigits(Repeat('0', k) + s)
    ensures DigitsValue(Repeat('0', k) + s) == DigitsValue(s)
    decreases |s|
  {
    var z := Repeat('0', k) + s;
    if s == [] {
      assert z == Repeat('0', k);
      ZerosValue(k);
    } else {
      assert z[..|z| - 1] == Repeat('0', k) + s[..|s| - 1];
      LeadingZerosKeepValue(k, s[..|s| - 1]);
    }
  }

  lemma {:induction false} ZerosValue(k: nat)
    ensures AllDigits(Repeat('0', k)) && DigitsValue(Repeat('0', k)) == 0
  {
    if k > 0 {
      var z := Repeat('0', k);
      assert z[..k - 1] == Repeat('0', k - 1);
      ZerosValue(k - 1);
    }
  }

  /** The longest prefix of `s` made of decimal digits. */
  function DigitPrefix(s: string): (r: string)
    ensures AllDigits(r) && StartsWith(s, r)
    ensures |r| == |s| || !IsDigit(s[|r|])
  {
    if s != [] && IsDigit(s[0]) then [s[0]] + DigitPrefix(s[1..]) else []
  }

  lemma {:induction false} DigitPrefixOfDigits(s: string)
    requires AllDigits(s)
    ensures DigitPrefix(s) == s
  {
    if s != [] {
      DigitPrefixOfDigits(s[1..]);
    }
  }

  /**
   * `parseInt(s, 10)`: leading whitespace is skipped, one optional sign is
   * read, then the longest run of digits; `None` stands for `NaN`.
   */
  function ParseInt(s: string): (r: Option<int>)
    ensures r.None? <==> DigitPrefix(SignStripped(TrimStart(s))) == []
  {
    var t := TrimStart(s);
    var z := DigitPrefix(SignStripped(t));
    if z == [] then None
    else if |t| > 0 && t[0] == '-' then Some(0 - DigitsValue(z) as int)
    else Some(DigitsValue(z))
  }

  function SignStripped(t: string): string {
    if |t| > 0 && (t[0] == '-' || t[0] == '+') then t[1..] else t
  }

  /** Text that starts with a letter has no number in front, so it parses to NaN. */
  lemma LetterStartIsNaN(s: string)
    requires s != [] && 'a' <= s[0] <= 'z'
    ensures ParseInt(s).None?
  {
    assert !IsJsWhitespace(s[0]);
    assert TrimStart(s) == s;
    assert SignStripped(s) == s;
  }

  /** A zero-padded numeral parses back to its value. */
  lemma PaddedNumeralParses(n: nat, width: int)
    ensures ParseInt(PadStart(NatToString(n), width, '0')) == Some(n)
  {
    var d := NatToString(n);
    var p := PadStart(d, width, '0');
    var k := |p| - |d|;
    assert p == Repeat('0', k) + d;
    LeadingZerosKeepValue(k, d);
    NatToStringRoundTrip(n);
    DigitsParse(p);
  }

  /** A non-empty run of digits parses to its value. */
  lemma DigitsParse(p: string)
    requires p != [] && AllDigits(p)
    ensures ParseInt(p) == Some(DigitsValue(p))
  {
    assert !IsJsWhitespace(p[0]);
    assert TrimStart(p) == p;
    assert SignStripped(p) == p;
    DigitPrefixOfDigits(p);
  }

  // ---------------------------------------------------------------------
  // join / split
  // ---------------------------------------------------------------------

  /** `xs.join(sep)`. */
  function Join(xs: seq<string>, sep: string): (r: string)
    ensures xs == [] ==> r == ""
    ensures |xs| == 1 ==> r == xs[0]
  {
    if xs == [] then ""
    else if |xs| == 1 then xs[0]
    else xs[0] + sep + Join(xs[1..], sep)
  }

  /** `s.split(c)` for a one-character separator. */
  function Split(s: string, c: char): (r: seq<string>)
    ensures |r| >= 1
  {
    if s == [] then [""]
    else
      var rest := Split(s[1..], c);
      if s[0] == c then [""] + rest else [[s[0]] + rest[0]] + rest[1..]
  }

  lemma {:induction false} SplitNoSeparator(s: string, c: char)
    requires c !in s
    ensures Split(s, c) == [s]
  {
    if s != [] {
      SplitNoSeparator(s[1..], c);
      assert [s[0]] + s[1..] == s;
    }
  }

  lemma {:induction false} SplitAtFirst(x: string, c: char, rest: string)
    requires c !in x
    ensures Split(x + [c] + rest, c) == [x] + Split(rest, c)
  {
    if x == [] {
      assert x + [c] + rest == [c] + rest;
      assert ([c] + rest)[1..] == rest;
    } else {
      assert (x + [c] + rest)[1..] == x[1..] + [c] + rest;
      SplitAtFirst(x[1..], c, rest);
      assert [x[0]] + x[1..] == x;
    }
  }

  /** Joining with a one-character separator that no part contains is undone by `split`. */
  lemma {:induction false} SplitJoinRoundTrip(xs: seq<string>, c: char)
    requires |xs| >= 1
    requires forall i :: 0 <= i < |xs| ==> c !in xs[i]
    ensures Split(Join(xs, [c]), c) == xs
  {
    if |xs| == 1 {
      SplitNoSeparator(xs[0], c);
    } else {
      SplitJoinRoundTrip(xs[1..], c);
      SplitAtFirst(xs[0], c, Join(xs[1..], [c]));
      assert [xs[0]] + xs[1..] == xs;
    }
  }

  /** A joined string is empty only when every part is empty and there is at most one part. */
  lemma {:induction false} JoinEmptyIff(xs: seq<string>, sep: string)
    requires sep != ""
    ensures Join(xs, sep) == "" <==> (xs == [] || xs == [""])
  {
    if |xs| >= 2 {
      assert |Join(xs, sep)| >= |sep|;
    }
  }
}
