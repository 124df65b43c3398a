/**
 * The handful of Python string operations the core relies on: `str.strip`,
 * `str.lstrip(c)`, `str.rstrip(c)`, `str.lower`, `int(str)` and `str(int)`.
 */
module PyText {
  import opened Wrappers

  /** The characters `str.isspace()` accepts; `strip()` and `int()` remove them. */
  predicate IsSpace(c: char) {
    c == ' ' || ('\t' <= c <= '\r') || ('\U{1C}' <= c <= '\U{1F}')
    || c == '\U{85}' || c == '\U{A0}' || c == '\U{1680}'
    || ('\U{2000}' <= c <= '\U{200A}') || c == '\U{2028}' || c == '\U{2029}'
    || c == '\U{202F}' || c == '\U{205F}' || c == '\U{3000}'
  }

  predicate IsSlash(c: char) {
    c == '/'
  }

  /** `s.lstrip(...)`: drops the longest prefix of characters satisfying `drop`. */
  function LStrip(s: string, drop: char -> bool): (r: string)
    ensures |r| <= |s| && r == s[|s| - |r|..]
    ensures forall i :: 0 <= i < |s| - |r| ==> drop(s[i])
    ensures r == [] || !drop(r[0])
    decreases |s|
  {
    if s != [] && drop(s[0]) then LStrip(s[1..], drop) else s
  }

  /** `s.rstrip(...)`: drops the longest suffix of characters satisfying `drop`. */
  function RStrip(s: string, drop: char -> bool): (r: string)
    ensures |r| <= |s| && r == s[..|r|]
    ensures forall i :: |r| <= i < |s| ==> drop(s[i])
    ensures r == [] || !drop(r[|r| - 1])
    decreases |s|
  {
    if s != [] && drop(s[|s| - 1]) then RStrip(s[..|s| - 1], drop) else s
  }

  /** `s.strip()` */
  function Strip(s: string): string {
    RStrip(LStrip(s, IsSpace), IsSpace)
  }

  /** A string of `k` slashes. */
  function Slashes(k: nat): (r: string)
    ensures |r| == k && forall i :: 0 <= i < k ==> r[i] == '/'
  {
    seq(k, _ => '/')
  }

  /** Appending characters that `drop` removes does not change `rstrip`. */
  lemma {:induction false} RStripPadding(s: string, k: nat)
    ensures RStrip(s + Slashes(k), IsSlash) == RStrip(s, IsSlash)
  {
    if k > 0 {
      var t := s + Slashes(k);
      assert t[..|t| - 1] == s + Slashes(k - 1);
      RStripPadding(s, k - 1);
    } else {
      assert s + Slashes(0) == s;
    }
  }

  /** Prepending characters that `drop` removes does not change `lstrip`. */
  lemma {:induction false} LStripPadding(s: string, k: nat)
    ensures LStrip(Slashes(k) + s, IsSlash) == LStrip(s, IsSlash)
  {
    if k > 0 {
      var t := Slashes(k) + s;
      assert t[1..] == Slashes(k - 1) + s;
      LStripPadding(s, k - 1);
    } else {
      assert Slashes(0) + s == s;
    }
  }

  /** `str.lower()` on one character (ASCII letters only). */
  function LowerChar(c: char): char {
    if 'A' <= c <= 'Z' then (c as int + 32) as char else c
  }

  /** `str.lower()` */
  function Lower(s: string): (r: string)
    ensures |r| == |s| && forall i :: 0 <= i < |s| ==> r[i] == LowerChar(s[i])
  {
    seq(|s|, i requires 0 <= i < |s| => LowerChar(s[i]))
  }

  predicate IsDigit(c: char) {
    '0' <= c <= '9'
  }

  function DigitValue(c: char): nat
    requires IsDigit(c)
  {
    c as int - '0' as int
  }

  function DigitChar(d: nat): (c: char)
    requires d < 10
    ensures IsDigit(c) && DigitValue(c) == d
  {
    ('0' as int + d) as char
  }

  /** The digits of an integer literal as `int()` accepts them: digits, with single
      underscores allowed between two digits. */
  predicate IsDigitRun(s: string) {
    && |s| > 0 && IsDigit(s[0]) && IsDigit(s[|s| - 1])
    && (forall i :: 0 <= i < |s| ==> IsDigit(s[i]) || s[i] == '_')
    && (forall i :: 0 <= i < |s| - 1 ==> s[i] == '_' ==> s[i + 1] != '_')
  }

  /** The value of a run of digits and underscores (underscores are ignored). */
  function DigitsValue(s: string): nat
    requires forall i :: 0 <= i < |s| ==> IsDigit(s[i]) || s[i] == '_'
  {
    if s == [] then 0
    else if s[|s| - 1] == '_' then DigitsValue(s[..|s| - 1])
    else DigitsValue(s[..|s| - 1]) * 10 + DigitValue(s[|s| - 1])
  }

  /** `int(s)`: `None` where Python raises ValueError. */
  function ParseInt(s: string): Option<int> {
    var t := Strip(s);
    if t != [] && (t[0] == '+' || t[0] == '-') then
      if IsDigitRun(t[1..]) then
        Some(if t[0] == '-' then -(DigitsValue(t[1..]) as int) else DigitsValue(t[1..]))
      else None
    else if IsDigitRun(t) then Some(DigitsValue(t))
    else None
  }

  /** `str(n)` for a natural number. */
  function NatToString(n: nat): (r: string)
    ensures r != [] && forall i :: 0 <= i < |r| ==> IsDigit(r[i])
  {
    if n < 10 then [DigitChar(n)] else NatToString(n / 10) + [DigitChar(n % 10)]
  }

  /** `str(i)` */
  function IntToString(i: int): (r: string)
    ensures r != [] && (forall k :: 1 <= k < |r| ==> IsDigit(r[k]))
    ensures r[0] == '-' || IsDigit(r[0])
  {
    if i < 0 then "-" + NatToString(-i) else NatToString(i)
  }

  lemma {:induction false} NatToStringValue(n: nat)
    ensures DigitsValue(NatToString(n)) == n
  {
    if n >= 10 {
      var s := NatToString(n);
      assert s[..|s| - 1] == NatToString(n / 10);
      NatToStringValue(n / 10);
    }
  }

  /** A string that neither starts nor ends with white space is its own `strip()`. */
  lemma StripUnpadded(s: string)
    requires s != [] && !IsSpace(s[0]) && !IsSpace(s[|s| - 1])
    ensures Strip(s) == s
  {
  }

  /** `int(str(i)) == i` */
  lemma ParseIntToString(i: int)
    ensures ParseInt(IntToString(i)) == Some(i)
  {
    var s := IntToString(i);
    StripUnpadded(s);
    if i < 0 {
      assert s[1..] == NatToString(-i);
      NatToStringValue(-i);
    } else {
      NatToStringValue(i);
    }
  }
}
