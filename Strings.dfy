/** The few JavaScript string operations the dashboard relies on:
    `toLowerCase`, `includes`, `replace` with a string pattern, `String(n)`
    for a non-negative integer and `Number(s)` on the digit strings `String(n)` writes. */
module Strings {
  import opened Seqs

  /** `toLowerCase` on one character, for the capitals whose lower case is a
      single character of the same length: Latin (A–Z, the Latin-1 capitals
      À–Þ and the paired capitals of Latin Extended-A), Greek (Α–Ω), Cyrillic
      (А–Я and Ѐ–Џ) and the Kelvin and Ångström signs. Σ becomes σ wherever it
      stands. Every other character is left as it is. */
  function LowerChar(c: char): (r: char)
  {
    var n := c as int;
    if 'A' <= c <= 'Z' then (n + 32) as char
    else if 0xC0 <= n <= 0xDE && n != 0xD7 then (n + 32) as char
    else if ExtendedAPaired(n) then (n + 1) as char
    else if n == 0x178 then 0xFF as char
    else if 0x391 <= n <= 0x3A9 && n != 0x3A2 then (n + 32) as char
    else if 0x410 <= n <= 0x42F then (n + 32) as char
    else if 0x400 <= n <= 0x40F then (n + 80) as char
    else if n == 0x212A then 'k'
    else if n == 0x212B then 0xE5 as char
    else c
  }

  /** The capitals of Latin Extended-A whose lower case is the next code
      point. İ (U+0130) is not among them: its lower case is two characters. */
  predicate ExtendedAPaired(n: int)
  {
    (0x100 <= n <= 0x12F && n % 2 == 0) ||
    (0x132 <= n <= 0x137 && n % 2 == 0) ||
    (0x139 <= n <= 0x148 && n % 2 == 1) ||
    (0x14A <= n <= 0x177 && n % 2 == 0) ||
    (0x179 <= n <= 0x17E && n % 2 == 1)
  }

  function Lower(s: string): (r: string)
    ensures |r| == |s|
    ensures forall i :: 0 <= i < |s| ==> r[i] == LowerChar(s[i])
  {
    seq(|s|, i requires 0 <= i < |s| => LowerChar(s[i]))
  }

  /** A lower-cased character is not lowered again. */
  lemma LowerCharIdempotent(c: char)
    ensures LowerChar(LowerChar(c)) == LowerChar(c)
  {
  }

  /** Accented and Cyrillic capitals meet their small letters: "é" occurs in
      "École" and "ё" in "Ёлка" once both are lower-cased. */
  lemma LowerMatchesAccents()
    ensures Includes(Lower("École"), Lower("é"))
    ensures Includes(Lower("Ёлка"), Lower("ё"))
  {
    assert OccursAt(Lower("École"), Lower("é"), 0);
    assert OccursAt(Lower("Ёлка"), Lower("ё"), 0);
  }

  /** Lower-casing twice is lower-casing once. */
  lemma LowerIdempotent(s: string)
    ensures Lower(Lower(s)) == Lower(s)
  {
    forall i | 0 <= i < |s|
      ensures Lower(Lower(s))[i] == Lower(s)[i]
    {
      LowerCharIdempotent(s[i]);
    }
  }

  /** `hay.includes(needle)`. */
  predicate Includes(hay: string, needle: string)
  {
    exists i: nat :: i <= |hay| && OccursAt(hay, needle, i)
  }

  /** Every string includes the empty string, so an empty query matches all. */
  lemma IncludesEmpty(hay: string)
    ensures Includes(hay, "")
  {
    assert OccursAt(hay, "", 0);
  }

  predicate OccursAt(s: string, pat: string, i: nat)
  {
    i + |pat| <= |s| && s[i..i + |pat|] == pat
  }

  /** The first index at or after `from` where `pat` occurs in `s`. */
  function IndexOfFrom(s: string, pat: string, from: nat): (r: Option<nat>)
    ensures r.Some? ==> from <= r.value && OccursAt(s, pat, r.value)
    ensures r.Some? ==> forall j :: from <= j < r.value ==> !OccursAt(s, pat, j)
    ensures r.None? ==> forall j :: from <= j ==> !OccursAt(s, pat, j)
    decreases |s| - from
  {
    if from + |pat| > |s| then None
    else if s[from..from + |pat|] == pat then Some(from)
    else IndexOfFrom(s, pat, from + 1)
  }

  /** `s.indexOf(pat)`, with `None` for JavaScript's -1. */
  function IndexOf(s: string, pat: string): Option<nat>
  {
    IndexOfFrom(s, pat, 0)
  }

  /** `s.replace(pat, rep)` with a string pattern: only the FIRST occurrence is replaced. */
  function ReplaceFirst(s: string, pat: string, rep: string): (r: string)
    ensures IndexOf(s, pat).None? ==> r == s
    ensures IndexOf(s, pat).Some? ==>
      var i := IndexOf(s, pat).value;
      r == s[..i] + rep + s[i + |pat|..]
  {
    match IndexOf(s, pat)
    case None => s
    case Some(i) => s[..i] + rep + s[i + |pat|..]
  }

  /** Replacing a pattern that `s` starts with by the empty string strips that prefix. */
  lemma ReplaceLeadingPrefix(pat: string, rest: string)
    ensures ReplaceFirst(pat + rest, pat, "") == rest
  {
    var s := pat + rest;
    assert s[0..|pat|] == pat;
    assert s[|pat|..] == rest;
  }

  function DigitChar(d: nat): (c: char)
    requires d < 10
    ensures '0' <= c <= '9'
  {
    ('0' as int + d) as char
  }

  predicate IsDigit(c: char)
  {
    '0' <= c <= '9'
  }

  /** `String(n)` for a non-negative integer: its decimal digits, no leading zeros. */
  function NatToString(n: nat): (s: string)
    ensures |s| > 0
    ensures forall i :: 0 <= i < |s| ==> IsDigit(s[i])
    decreases n
  {
    if n < 10 then [DigitChar(n)] else NatToString(n / 10) + [DigitChar(n % 10)]
  }

  function DigitsValue(s: string): nat
    requires forall i :: 0 <= i < |s| ==> IsDigit(s[i])
    decreases |s|
  {
    if s == [] then 0
    else
      assert IsDigit(s[|s| - 1]);
      DigitsValue(s[..|s| - 1]) * 10 + (s[|s| - 1] as int - '0' as int)
  }

  /** `Number(s)` on a non-empty string of decimal digits, the form `String(n)`
      writes. Every other string gives `None`, including forms `Number` reads
      as an integer (surrounding blanks, a leading `+`, a zero fraction, an
      exponent, a `0x` prefix). */
  function ParseNat(s: string): (r: Option<nat>)
    ensures r.Some? <==> |s| > 0 && forall i :: 0 <= i < |s| ==> IsDigit(s[i])
  {
    if |s| > 0 && forall i :: 0 <= i < |s| ==> IsDigit(s[i]) then Some(DigitsValue(s)) else None
  }

  /** Reading back what `String(n)` wrote gives `n` again. */
  lemma {:induction false} ParseNatToString(n: nat)
    ensures ParseNat(NatToString(n)) == Some(n)
  {
    DigitsValueOfNatToString(n);
  }

  lemma {:induction false} DigitsValueOfNatToString(n: nat)
    ensures DigitsValue(NatToString(n)) == n
    decreases n
  {
    var s := NatToString(n);
    if n < 10 {
      assert s[..0] == [];
    } else {
      DigitsValueOfNatToString(n / 10);
      assert s[..|s| - 1] == NatToString(n / 10);
    }
  }

  /** Distinct numbers are written as distinct strings. */
  lemma NatToStringInjective(m: nat, n: nat)
    requires NatToString(m) == NatToString(n)
    ensures m == n
  {
    ParseNatToString(m);
    ParseNatToString(n);
  }
}
