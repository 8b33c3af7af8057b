/** The parts of Python's `str` that the model relies on: whitespace as
    `str.isspace` and the `\s` class of `re` see it, `strip`, `lstrip(c)`,
    `rstrip(c)`, `lower`, `int(s)` and the decimal rendering of an `int`. */
module Strings {
  import opened Wrappers

  /** A character is whitespace for `str.isspace`, `str.strip()` and `\s`. */
  predicate IsSpace(c: char) {
    ('\t' <= c <= '\r') || ('\U{1C}' <= c <= '\U{1F}') || c == ' '
    || c == '\U{85}' || c == '\U{A0}' || c == '\U{1680}'
    || ('\U{2000}' <= c <= '\U{200A}') || c == '\U{2028}' || c == '\U{2029}'
    || c == '\U{202F}' || c == '\U{205F}' || c == '\U{3000}'
  }

  /** Python truthiness of an optional string: present and not empty. */
  predicate Truthy(s: Option<string>) {
    s.Some? && s.value != ""
  }

  predicate AllSpace(s: string) {
    forall i :: 0 <= i < |s| ==> IsSpace(s[i])
  }

  /** Neither end of `s` is whitespace. */
  predicate Trimmed(s: string) {
    s == [] || (!IsSpace(s[0]) && !IsSpace(s[|s| - 1]))
  }

  /** `s.lstrip()`: the suffix that starts at the first non-whitespace character. */
  function LStrip(s: string): (r: string)
    ensures |r| <= |s| && r == s[|s| - |r|..]
    ensures AllSpace(s[..|s| - |r|])
    ensures r == [] || !IsSpace(r[0])
  {
    if s != [] && IsSpace(s[0]) then
      var r := LStrip(s[1..]);
      LStripStep(s, r);
      r
    else s
  }

  lemma LStripStep(s: string, r: string)
    requires s != [] && IsSpace(s[0])
    requires |r| <= |s| - 1 && AllSpace(s[1..][..|s| - 1 - |r|])
    ensures AllSpace(s[..|s| - |r|])
  {
    forall i | 1 <= i < |s| - |r| ensures IsSpace(s[i]) {
      assert s[i] == s[1..][..|s| - 1 - |r|][i - 1];
    }
  }

  /** `s.rstrip()`: the prefix that ends at the last non-whitespace character. */
  function RStrip(s: string): (r: string)
    ensures |r| <= |s| && r == s[..|r|]
    ensures AllSpace(s[|r|..])
    ensures r == [] || !IsSpace(r[|r| - 1])
  {
    if s != [] && IsSpace(s[|s| - 1]) then
      var r := RStrip(s[..|s| - 1]);
      RStripStep(s, r);
      r
    else s
  }

  lemma RStripStep(s: string, r: string)
    requires s != [] && IsSpace(s[|s| - 1])
    requires |r| <= |s| - 1 && AllSpace(s[..|s| - 1][|r|..])
    ensures AllSpace(s[|r|..])
  {
    forall i | 0 <= i < |s| - |r| - 1 ensures IsSpace(s[|r|..][i]) {
      assert s[|r|..][i] == s[..|s| - 1][|r|..][i];
    }
  }

  /** Where `s.strip()` starts inside `s`. */
  function StripStart(s: string): nat
  {
    |s| - |LStrip(s)|
  }

  /** `s.strip()`: `s` without its leading and trailing whitespace; all that is
      cut off is whitespace, and what remains is a contiguous piece of `s`. */
  function Strip(s: string): (r: string)
    ensures Trimmed(r)
    ensures StripStart(s) + |r| <= |s|
    ensures r == s[StripStart(s)..StripStart(s) + |r|]
    ensures AllSpace(s[..StripStart(s)]) && AllSpace(s[StripStart(s) + |r|..])
  {
    var l := LStrip(s);
    var r := RStrip(l);
    StripShape(s, l, r);
    r
  }

  lemma StripShape(s: string, l: string, r: string)
    requires |l| <= |s| && l == s[|s| - |l|..] && AllSpace(s[..|s| - |l|])
    requires l == [] || !IsSpace(l[0])
    requires |r| <= |l| && r == l[..|r|] && AllSpace(l[|r|..])
    requires r == [] || !IsSpace(r[|r| - 1])
    ensures Trimmed(r)
    ensures |s| - |l| + |r| <= |s|
    ensures r == s[|s| - |l|..|s| - |l| + |r|]
    ensures AllSpace(s[..|s| - |l|]) && AllSpace(s[|s| - |l| + |r|..])
  {
    var a := |s| - |l|;
    if r != [] {
      assert r[0] == l[0];
    }
    forall i | a + |r| <= i < |s| ensures IsSpace(s[i]) {
      assert s[i] == l[|r|..][i - a - |r|];
    }
    forall i | 0 <= i < |r| ensures r[i] == s[a..][i] {
      assert r[i] == l[i];
    }
  }

  lemma LStripAfterSpaces(p: string, y: string)
    requires AllSpace(p)
    requires y == [] || !IsSpace(y[0])
    ensures LStrip(p + y) == y
  {
    var s := p + y;
    var r := LStrip(s);
    assert r == s[|p|..] == y;
  }

  lemma RStripBeforeSpaces(y: string, q: string)
    requires AllSpace(q)
    requires y == [] || !IsSpace(y[|y| - 1])
    ensures RStrip(y + q) == y
  {
    var s := y + q;
    var r := RStrip(s);
    assert r == s[..|y|] == y;
  }

  /** Whatever whitespace surrounds a trimmed string, `strip` gives that string back. */
  lemma {:induction false} StripUnique(p: string, x: string, q: string)
    requires AllSpace(p) && AllSpace(q) && Trimmed(x)
    ensures Strip(p + x + q) == x
  {
    assert p + x + q == p + (x + q);
    if x == [] {
      assert AllSpace(p + q) by {
        forall i | 0 <= i < |p + q| ensures IsSpace((p + q)[i]) {
          if i >= |p| { assert (p + q)[i] == q[i - |p|]; }
        }
      }
      assert p + x + q == p + q;
      LStripAfterSpaces(p + q, []);
      assert p + q + [] == p + q;
    } else {
      LStripAfterSpaces(p, x + q);
      RStripBeforeSpaces(x, q);
    }
  }

  /** `s` is its leading whitespace, its stripped form and its trailing
      whitespace, one after another. */
  lemma StripParts(s: string) returns (p: string, q: string)
    ensures AllSpace(p) && AllSpace(q)
    ensures s == p + Strip(s) + q
  {
    var a := StripStart(s);
    var r := Strip(s);
    p, q := s[..a], s[a + |r|..];
    SliceThree(s, a, a + |r|);
  }

  lemma SliceThree(s: string, i: nat, j: nat)
    requires i <= j <= |s|
    ensures s == s[..i] + s[i..j] + s[j..]
  {
    assert s[..i] + s[i..j] == s[..j];
  }

  /** `s.strip()` is empty exactly when `s` is all whitespace. */
  lemma StripEmpty(s: string)
    ensures Strip(s) == [] <==> AllSpace(s)
  {
    var p, q := StripParts(s);
    if Strip(s) == [] {
      assert s == p + q;
      forall i | 0 <= i < |s| ensures IsSpace(s[i]) {
        if i >= |p| { assert s[i] == q[i - |p|]; }
      }
    } else {
      var r := Strip(s);
      assert s[|p|] == r[0];
    }
  }

  /** Stripping a string whose ends are not whitespace changes nothing. */
  lemma StripTrimmed(x: string)
    requires Trimmed(x)
    ensures Strip(x) == x
  {
    StripUnique([], x, []);
    assert [] + x + [] == x;
  }

  /** Stripping keeps every character that is not whitespace. */
  lemma StripKeeps(s: string, c: char)
    requires !IsSpace(c)
    ensures c in Strip(s) <==> c in s
  {
    if c in s {
      var i :| 0 <= i < |s| && s[i] == c;
      StripKeepsAt(s, i);
    }
    if c in Strip(s) {
      StripInside(s, c);
    }
  }

  lemma StripInside(s: string, c: char)
    requires c in Strip(s)
    ensures c in s
  {
    var a := StripStart(s);
    var r := Strip(s);
    var j :| 0 <= j < |r| && r[j] == c;
    assert r[j] == s[a + j];
  }

  /** A character that is not whitespace lies inside the stripped part. */
  lemma StripKeepsAt(s: string, i: int)
    requires 0 <= i < |s| && !IsSpace(s[i])
    ensures StripStart(s) <= i < StripStart(s) + |Strip(s)|
    ensures s[i] in Strip(s)
  {
    InsideCut(s, StripStart(s), Strip(s), i);
  }

  /** If `r` is the piece of `s` at `a` and everything around it is
      whitespace, a non-whitespace character of `s` lies in `r`. */
  lemma InsideCut(s: string, a: nat, r: string, i: int)
    requires a + |r| <= |s| && r == s[a..a + |r|]
    requires AllSpace(s[..a]) && AllSpace(s[a + |r|..])
    requires 0 <= i < |s| && !IsSpace(s[i])
    ensures a <= i < a + |r| && s[i] in r
  {
    forall j | 0 <= j < a ensures IsSpace(s[j]) {
      assert s[..a][j] == s[j];
    }
    forall j | a + |r| <= j < |s| ensures IsSpace(s[j]) {
      assert s[a + |r|..][j - a - |r|] == s[j];
    }
    assert r[i - a] == s[i];
  }

  /** `s.rstrip(c)`: `s` without its trailing run of `c`. */
  function RStripChar(s: string, c: char): (r: string)
    ensures |r| <= |s| && r == s[..|r|]
    ensures forall i :: |r| <= i < |s| ==> s[i] == c
    ensures r == [] || r[|r| - 1] != c
  {
    if s != [] && s[|s| - 1] == c then RStripChar(s[..|s| - 1], c) else s
  }

  /** `s.lstrip(c)`: `s` without its leading run of `c`. */
  function LStripChar(s: string, c: char): (r: string)
    ensures |r| <= |s| && r == s[|s| - |r|..]
    ensures forall i :: 0 <= i < |s| - |r| ==> s[i] == c
    ensures r == [] || r[0] != c
  {
    if s != [] && s[0] == c then LStripChar(s[1..], c) else s
  }

  function LowerChar(c: char): char
  {
    if 'A' <= c <= 'Z' then (c as int + 32) as char else c
  }

  /** `s.lower()` on ASCII letters; every other character is kept. */
  function Lower(s: string): (r: string)
    ensures |r| == |s|
    ensures forall i :: 0 <= i < |s| ==> r[i] == LowerChar(s[i])
  {
    if s == [] then [] else [LowerChar(s[0])] + Lower(s[1..])
  }

/** Lowering twice is lowering once. */
  lemma LowerIdempotent(s: string)
    ensures Lower(Lower(s)) == Lower(s)
  {
    assert forall i :: 0 <= i < |s| ==> Lower(Lower(s))[i] == Lower(s)[i];
  }

  /** Lowering changes no whitespace character into another kind of character
      and keeps every character that is not an ASCII capital. */
  lemma LowerTrimmed(s: string)
    requires Trimmed(s)
    ensures Trimmed(Lower(s))
  {
  }

  lemma LowerKeeps(s: string, c: char)
    requires !('A' <= c <= 'Z') && !('a' <= c <= 'z')
    ensures c in Lower(s) <==> c in s
  {
    if c in s {
      var i :| 0 <= i < |s| && s[i] == c;
      assert Lower(s)[i] == c;
    }
  }

  predicate IsDigit(c: char) {
    '0' <= c <= '9'
  }

  function DigitChar(d: nat): (c: char)
    requires d < 10
    ensures IsDigit(c)
  {
    ('0' as int + d) as char
  }

  function DigitValue(c: char): (d: nat)
    requires IsDigit(c)
    ensures d < 10 && DigitChar(d) == c
  {
    c as int - '0' as int
  }

  predicate AllDigits(s: string) {
    forall i :: 0 <= i < |s| ==> IsDigit(s[i])
  }

  /** The number a string of decimal digits denotes. */
  function DigitsValue(s: string): nat
    requires AllDigits(s)
  {
    if s == [] then 0 else DigitsValue(s[..|s| - 1]) * 10 + DigitValue(s[|s| - 1])
  }

  /** `str(n)` for `n >= 0`: the shortest decimal numeral of `n`. */
  function NatToString(n: nat): (r: string)
    ensures r != [] && AllDigits(r)
    ensures r[0] == '0' ==> n == 0
  {
    if n < 10 then [DigitChar(n)] else NatToString(n / 10) + [DigitChar(n % 10)]
  }

  /** `str(i)` for a Python `int`. */
  function IntToString(i: int): (r: string)
    ensures r != [] && (r[0] == '-' <==> i < 0)
  {
    if i < 0 then "-" + NatToString(-i) else NatToString(i)
  }

  /** Digits with single underscores between them, as `int()` accepts. */
  predicate DigitGroups(s: string) {
    && s != []
    && IsDigit(s[0])
    && IsDigit(s[|s| - 1])
    && forall i :: 0 <= i < |s| ==> IsDigit(s[i]) || (s[i] == '_' && i + 1 < |s| && IsDigit(s[i + 1]))
  }

  function DropUnderscores(s: string): (r: string)
    requires forall i :: 0 <= i < |s| ==> IsDigit(s[i]) || s[i] == '_'
    ensures AllDigits(r)
  {
    if s == [] then []
    else if s[0] == '_' then DropUnderscores(s[1..])
    else [s[0]] + DropUnderscores(s[1..])
  }

  /** The value of digits written in groups. */
  function GroupsValue(s: string): nat
    requires DigitGroups(s)
  {
    forall i | 0 <= i < |s| ensures IsDigit(s[i]) || s[i] == '_' {
      assert IsDigit(s[i]) || (s[i] == '_' && i + 1 < |s| && IsDigit(s[i + 1]));
    }
    DigitsValue(DropUnderscores(s))
  }

  /** `int(s)` in base 10: surrounding whitespace, an optional sign, digits in
      groups; `None` where Python raises `ValueError`. */
  function ParseInt(s: string): (r: Option<int>)
    ensures r.Some? ==> s != []
  {
    var t := Strip(s);
    if t != [] && (t[0] == '+' || t[0] == '-') then
      var body := t[1..];
      if DigitGroups(body) then
        var v: int := GroupsValue(body);
        Some(if t[0] == '-' then -v else v)
      else None
    else if DigitGroups(t) then Some(GroupsValue(t))
    else None
  }

  lemma {:induction false} NatToStringValue(n: nat)
    ensures DigitsValue(NatToString(n)) == n
  {
    var r := NatToString(n);
    if n < 10 {
      assert r[..0] == [];
    } else {
      NatToStringValue(n / 10);
      assert r[..|r| - 1] == NatToString(n / 10);
    }
  }

  lemma {:induction false} DropUnderscoresOfDigits(s: string)
    requires AllDigits(s)
    ensures DropUnderscores(s) == s
  {
    if s != [] {
      DropUnderscoresOfDigits(s[1..]);
    }
  }

  lemma NatToStringGroups(n: nat)
    ensures DigitGroups(NatToString(n)) && GroupsValue(NatToString(n)) == n
  {
    NatToStringValue(n);
    DropUnderscoresOfDigits(NatToString(n));
  }

  /** `int()` accepts only a text that, once stripped, ends in a digit, and
      reads a negative number only after a minus sign. */
  lemma ParseIntNeedsDigit(s: string)
    requires ParseInt(s).Some?
    ensures Strip(s) != [] && IsDigit(Strip(s)[|Strip(s)| - 1])
    ensures ParseInt(s).value < 0 ==> Strip(s)[0] == '-'
  {
  }

  lemma IntToStringTrimmed(i: int)
    ensures Strip(IntToString(i)) == IntToString(i)
  {
    var s := IntToString(i);
    assert IsDigit(s[|s| - 1]);
    assert s[0] == '-' || IsDigit(s[0]);
    StripUnique([], s, []);
    assert [] + s + [] == s;
  }

  /** Rendering an integer and reading it back with `int()` gives the integer. */
  lemma ParseIntToString(i: int)
    ensures ParseInt(IntToString(i)) == Some(i)
  {
    IntToStringTrimmed(i);
    if i < 0 {
      NatToStringGroups(-i);
      assert IntToString(i)[1..] == NatToString(-i);
    } else {
      NatToStringGroups(i);
    }
  }
}
