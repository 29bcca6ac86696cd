/** The handful of Python string builtins the travel planner relies on,
    over ASCII text: character classes of `re` (`\w`, `\s`, `\d`),
    `str.lower`, `in`, `str.replace(p, '')`, `str.strip`, `str.join`,
    and decimal digits (`float('123')`, `str(123)`, `%d` padding). */
module Strings {

  /** `c.isspace()`, which is also what `\s` matches: space, `\t` `\n`
      `\v` `\f` `\r` and the separators 0x1C-0x1F. */
  predicate IsSpace(c: char) {
    var n := c as int;
    n == 32 || 9 <= n <= 13 || 28 <= n <= 31
  }

  predicate IsDigit(c: char) {
    '0' <= c <= '9'
  }

  predicate IsLetter(c: char) {
    'a' <= c <= 'z' || 'A' <= c <= 'Z'
  }

  /** What `\w` matches. */
  predicate IsWordChar(c: char) {
    IsLetter(c) || IsDigit(c) || c == '_'
  }

  function LowerChar(c: char): char {
    if 'A' <= c <= 'Z' then (c as int - 'A' as int + 'a' as int) as char else c
  }

  /** `s.lower()` */
  function Lower(s: string): string {
    seq(|s|, i requires 0 <= i < |s| => LowerChar(s[i]))
  }

  /** Lower-casing works character by character. */
  lemma LowerAppend(a: string, b: string)
    ensures Lower(a + b) == Lower(a) + Lower(b)
  {
  }

  predicate StartsWith(s: string, p: string) {
    |p| <= |s| && s[..|p|] == p
  }

  /** `s.endswith(p)` */
  predicate EndsWith(s: string, p: string) {
    |p| <= |s| && s[|s| - |p|..] == p
  }

  /** `p in s`, scanning s from the left. */
  predicate Contains(s: string, p: string)
    decreases |s|
  {
    StartsWith(s, p) || (s != [] && Contains(s[1..], p))
  }

  /** A text lacking one character of p does not contain p: the cheap
      way to rule an occurrence out. */
  lemma NotContainsChar(s: string, p: string, c: char)
    requires c in p && c !in s
    ensures !Contains(s, p)
  {
    if Contains(s, p) {
      var i := ContainsWitness(s, p);
    }
  }

  /** A text in which two adjacent characters of p never occur side by
      side does not contain p, even when it has every character of p. */
  lemma NotContainsPair(s: string, p: string, j: nat)
    requires j + 1 < |p|
    requires forall i | 0 <= i < |s| - 1 :: !(s[i] == p[j] && s[i + 1] == p[j + 1])
    ensures !Contains(s, p)
  {
    if Contains(s, p) {
      var i := ContainsWitness(s, p);
    }
  }

  /** An occurrence at any position makes `p in s` true. */
  lemma {:induction false} ContainsAt(s: string, p: string, i: nat)
    requires i + |p| <= |s| && s[i..i + |p|] == p
    ensures Contains(s, p)
    decreases i
  {
    if i > 0 {
      assert s[1..][i - 1..i - 1 + |p|] == s[i..i + |p|];
      ContainsAt(s[1..], p, i - 1);
    }
  }

  /** What occurs in the middle part occurs in the whole. */
  lemma ContainsInside(a: string, m: string, b: string, p: string, k: nat)
    requires k + |p| <= |m| && m[k..k + |p|] == p
    ensures Contains(a + m + b, p)
  {
    assert (a + m + b)[|a| + k..|a| + k + |p|] == m[k..k + |p|];
    ContainsAt(a + m + b, p, |a| + k);
  }

  /** `p in s` holds only where p occurs at some position. */
  lemma {:induction false} ContainsWitness(s: string, p: string) returns (i: nat)
    requires Contains(s, p)
    ensures i + |p| <= |s| && s[i..i + |p|] == p
    decreases |s|
  {
    if StartsWith(s, p) {
      i := 0;
    } else {
      var k := ContainsWitness(s[1..], p);
      assert s[1..][k..k + |p|] == s[k + 1..k + 1 + |p|];
      i := k + 1;
    }
  }

  predicate AllDigits(s: string) {
    forall i | 0 <= i < |s| :: IsDigit(s[i])
  }

  function DigitValue(c: char): nat
    requires IsDigit(c)
  {
    c as int - '0' as int
  }

  function DigitChar(d: nat): (c: char)
    requires d < 10
    ensures IsDigit(c) && DigitValue(c) == d
  {
    ('0' as int + d) as char
  }

  /** The number a run of decimal digits denotes, leading zeros allowed. */
  function DecimalValue(ds: string): nat
    requires AllDigits(ds)
  {
    if ds == [] then 0 else DecimalValue(ds[..|ds| - 1]) * 10 + DigitValue(ds[|ds| - 1])
  }

  function Pow10(n: nat): nat {
    if n == 0 then 1 else 10 * Pow10(n - 1)
  }

  /** The last `width` decimal digits of n, zero-padded (`%02d`, `%04d`). */
  function PadDecimal(n: nat, width: nat): string {
    if width == 0 then [] else PadDecimal(n / 10, width - 1) + [DigitChar(n % 10)]
  }

  /** Zero-padded rendering is read back exactly when the number fits. */
  lemma {:induction false} PadDecimalRoundTrip(n: nat, width: nat)
    requires n < Pow10(width)
    ensures |PadDecimal(n, width)| == width
    ensures AllDigits(PadDecimal(n, width))
    ensures DecimalValue(PadDecimal(n, width)) == n
  {
    if width > 0 {
      PadDecimalRoundTrip(n / 10, width - 1);
      var s := PadDecimal(n, width);
      assert s[..|s| - 1] == PadDecimal(n / 10, width - 1);
    }
  }

  /** `str(n)` for a natural number: no leading zeros. */
  function NatToDecimal(n: nat): string {
    if n < 10 then [DigitChar(n)] else NatToDecimal(n / 10) + [DigitChar(n % 10)]
  }

  /** `str(i)` */
  function IntToDecimal(i: int): string {
    if i < 0 then "-" + NatToDecimal(-i) else NatToDecimal(i)
  }

  /** `str(n)` is read back as n, and never has a superfluous leading zero. */
  lemma {:induction false} NatToDecimalRoundTrip(n: nat)
    ensures AllDigits(NatToDecimal(n))
    ensures DecimalValue(NatToDecimal(n)) == n
    ensures NatToDecimal(n) != [] && (NatToDecimal(n)[0] == '0' ==> n == 0)
  {
    if n >= 10 {
      NatToDecimalRoundTrip(n / 10);
      var s := NatToDecimal(n);
      assert s[..|s| - 1] == NatToDecimal(n / 10);
    }
  }

  /** `sep.join(items)` */
  function Join(items: seq<string>, sep: string): string {
    if items == [] then []
    else if |items| == 1 then items[0]
    else items[0] + sep + Join(items[1..], sep)
  }

  /** Each item occurs in the joined text, at a position this lemma names. */
  lemma {:induction false} JoinOffset(items: seq<string>, sep: string, i: nat) returns (k: nat)
    requires i < |items|
    ensures k + |items[i]| <= |Join(items, sep)|
    ensures Join(items, sep)[k..k + |items[i]|] == items[i]
  {
    if i == 0 {
      k := 0;
      if |items| > 1 {
        assert Join(items, sep) == items[0] + (sep + Join(items[1..], sep));
      }
    } else {
      var k' := JoinOffset(items[1..], sep, i - 1);
      var rest := Join(items[1..], sep);
      var prefix := items[0] + sep;
      assert Join(items, sep) == prefix + rest;
      k := |prefix| + k';
      assert Join(items, sep)[k..k + |items[i]|] == rest[k'..k' + |items[i]|];
    }
  }

  /** The lists of `ss`, concatenated in order. */
  function Flatten<T>(ss: seq<seq<T>>): seq<T> {
    if ss == [] then [] else ss[0] + Flatten(ss[1..])
  }

  lemma {:induction false} FlattenAppend<T>(a: seq<seq<T>>, b: seq<seq<T>>)
    ensures Flatten(a + b) == Flatten(a) + Flatten(b)
  {
    if a != [] {
      assert (a + b)[1..] == a[1..] + b;
      FlattenAppend(a[1..], b);
    } else {
      assert a + b == b;
    }
  }

  /** An element of the flattening comes from one of the lists, and every
      element of every list is in it. */
  lemma {:induction false} FlattenMembers<T>(ss: seq<seq<T>>, x: T)
    ensures x in Flatten(ss) <==> exists i :: 0 <= i < |ss| && x in ss[i]
  {
    if ss != [] {
      FlattenMembers(ss[1..], x);
      if x in Flatten(ss[1..]) {
        var i :| 0 <= i < |ss[1..]| && x in ss[1..][i];
        assert x in ss[i + 1];
      }
      if exists i :: 0 <= i < |ss| && x in ss[i] {
        var i :| 0 <= i < |ss| && x in ss[i];
        if i > 0 {
          assert x in ss[1..][i - 1];
        }
      }
    }
  }

  /** Every element of every list is in the flattening, and nothing else is. */
  lemma FlattenAll<T>(ss: seq<seq<T>>)
    ensures forall i, x | 0 <= i < |ss| && x in ss[i] :: x in Flatten(ss)
    ensures forall x | x in Flatten(ss) :: exists i | 0 <= i < |ss| :: x in ss[i]
  {
    forall x {
      FlattenMembers(ss, x);
    }
  }

  /** `s.replace(p, '')`: the non-overlapping occurrences of p found by a
      left-to-right scan are removed, wherever they are; an empty p leaves
      s as it is. */
  function RemoveAll(s: string, p: string): string
    decreases |s|
  {
    if p == [] then s
    else if StartsWith(s, p) then RemoveAll(s[|p|..], p)
    else if s == [] then []
    else [s[0]] + RemoveAll(s[1..], p)
  }

  /** Text in which p does not occur comes through unchanged. */
  lemma {:induction false} RemoveAllAbsent(s: string, p: string)
    requires !Contains(s, p)
    ensures RemoveAll(s, p) == s
    decreases |s|
  {
    if p != [] && s != [] {
      RemoveAllAbsent(s[1..], p);
      assert [s[0]] + s[1..] == s;
    }
  }

  /** A leading occurrence is removed and the scan resumes right after it. */
  lemma RemoveAllLeading(p: string, t: string)
    requires p != []
    ensures RemoveAll(p + t, p) == RemoveAll(t, p)
  {
    assert StartsWith(p + t, p);
    assert (p + t)[|p|..] == t;
  }

  /** An occurrence of p after text that does not run into p is removed
      in place: what comes before it is kept as it is. */
  lemma {:induction false} RemoveAllMiddle(a: string, p: string, b: string)
    requires p != [] && !Contains(a + p[..|p| - 1], p)
    ensures RemoveAll(a + p + b, p) == a + RemoveAll(b, p)
    decreases |a|
  {
    if a == [] {
      assert a + p + b == p + b;
      RemoveAllLeading(p, b);
    } else {
      var s := a + p + b;
      var q := a + p[..|p| - 1];
      assert s[..|p|] == q[..|p|];
      assert !StartsWith(q, p) && !Contains(q[1..], p);
      assert q[1..] == a[1..] + p[..|p| - 1];
      assert s[1..] == a[1..] + p + b;
      calc {
        RemoveAll(s, p);
        [s[0]] + RemoveAll(s[1..], p);
        { RemoveAllMiddle(a[1..], p, b); }
        [a[0]] + (a[1..] + RemoveAll(b, p));
        { assert [a[0]] + a[1..] == a; }
        a + RemoveAll(b, p);
      }
    }
  }

  /** `s.lstrip()` */
  function LStrip(s: string): (r: string)
    ensures |r| <= |s| && r == s[|s| - |r|..]
    ensures forall i :: 0 <= i < |s| - |r| ==> IsSpace(s[i])
    ensures r == [] || !IsSpace(r[0])
  {
    if s != [] && IsSpace(s[0]) then LStrip(s[1..]) else s
  }

  /** `s.rstrip()` */
  function RStrip(s: string): (r: string)
    ensures |r| <= |s| && r == s[..|r|]
    ensures forall i :: |r| <= i < |s| ==> IsSpace(s[i])
    ensures r == [] || !IsSpace(r[|r| - 1])
  {
    if s != [] && IsSpace(s[|s| - 1]) then RStrip(s[..|s| - 1]) else s
  }

  /** `s.strip()` */
  function Strip(s: string): string {
    RStrip(LStrip(s))
  }

  /** `s.strip()` is the slice of s between its leading and trailing runs
      of whitespace: what is cut off is whitespace, and what remains neither
      begins nor ends with whitespace. */
  lemma StripSlice(s: string) returns (i: nat, j: nat)
    ensures i <= j <= |s| && Strip(s) == s[i..j]
    ensures forall k :: 0 <= k < i || j <= k < |s| ==> IsSpace(s[k])
    ensures Strip(s) == [] || (!IsSpace(Strip(s)[0]) && !IsSpace(Strip(s)[|Strip(s)| - 1]))
  {
    var l := LStrip(s);
    var r := RStrip(l);
    i := |s| - |l|;
    j := i + |r|;
    assert s[i..j] == l[..|r|];
    forall k | 0 <= k < i || j <= k < |s| ensures IsSpace(s[k]) {
      if j <= k {
        assert s[k] == l[k - i];
      }
    }
  }

  /** Stripping twice changes nothing more. */
  lemma StripIdempotent(s: string)
    ensures Strip(Strip(s)) == Strip(s)
  {
    var t := Strip(s);
    if t != [] {
      assert LStrip(t) == t;
      assert RStrip(t) == t;
    }
  }
}
