/**
 * String helpers shared by the front ends and the server: decimal rendering of
 * naturals (template literals `${n}` and `String(n)` / `str(n)`), `padStart`,
 * substring search (`includes` / Python `in`), `endswith`, `strip` and `join`.
 */
module Strings {

  // ---------------------------------------------------------------------------
  // Decimal rendering of natural numbers
  // ---------------------------------------------------------------------------

  function DigitChar(d: nat): (c: char)
    requires d < 10
    ensures '0' <= c <= '9'
  {
    ('0' as int + d) as char
  }

  function DigitValue(c: char): nat
  {
    if '0' <= c <= '9' then c as int - '0' as int else 0
  }

  /** Decimal digits of `n`, most significant first, with no leading zeros. */
  function NatToString(n: nat): (s: string)
    ensures 1 <= |s|
    ensures forall i :: 0 <= i < |s| ==> '0' <= s[i] <= '9'
    ensures n < 10 <==> |s| == 1
    ensures |s| > 1 ==> s[0] != '0'
    decreases n
  {
    if n < 10 then [DigitChar(n)] else NatToString(n / 10) + [DigitChar(n % 10)]
  }

  /** Reads a string of decimal digits back as a number (most significant first). */
  function DigitsValue(s: string): nat
  {
    if s == [] then 0 else DigitsValue(s[..|s| - 1]) * 10 + DigitValue(s[|s| - 1])
  }

  /** Reading back a rendered number gives the number: rendering loses nothing. */
  lemma {:induction false} DigitsValueOfNatToString(n: nat)
    ensures DigitsValue(NatToString(n)) == n
    decreases n
  {
    if n >= 10 {
      var s := NatToString(n);
      assert s[..|s| - 1] == NatToString(n / 10);
      DigitsValueOfNatToString(n / 10);
    }
  }

  /** Distinct numbers render as distinct strings. */
  lemma NatToStringDistinct(a: nat, b: nat)
    requires a != b
    ensures NatToString(a) != NatToString(b)
  {
    DigitsValueOfNatToString(a);
    DigitsValueOfNatToString(b);
  }

  function Repeat(c: char, k: nat): (r: string)
    ensures |r| == k
    ensures forall i :: 0 <= i < k ==> r[i] == c
  {
    seq(k, _ => c)
  }

  /** Leading zeros do not change the value that a digit string denotes. */
  lemma {:induction false} LeadingZerosValue(k: nat, s: string)
    ensures DigitsValue(Repeat('0', k) + s) == DigitsValue(s)
    decreases |s|
  {
    var z := Repeat('0', k);
    if s == [] {
      assert z + s == z;
      ZerosValue(k);
    } else {
      var w := z + s;
      assert w[..|w| - 1] == z + s[..|s| - 1];
      assert w[|w| - 1] == s[|s| - 1];
      LeadingZerosValue(k, s[..|s| - 1]);
    }
  }

  lemma {:induction false} ZerosValue(k: nat)
    ensures DigitsValue(Repeat('0', k)) == 0
  {
    if k > 0 {
      assert Repeat('0', k)[..k - 1] == Repeat('0', k - 1);
      ZerosValue(k - 1);
    }
  }

  /** `s.padStart(width, c)`: `c` repeated in front of `s` up to `width` characters. */
  function PadStart(s: string, width: nat, c: char): (r: string)
    ensures |r| == if |s| >= width then |s| else width
    ensures r[|r| - |s|..] == s
    ensures forall i :: 0 <= i < |r| - |s| ==> r[i] == c
  {
    if |s| >= width then s else Repeat(c, width - |s|) + s
  }

  /** `String(n).padStart(3, '0')`. */
  function Pad3(n: nat): string
  {
    PadStart(NatToString(n), 3, '0')
  }

  lemma NatToStringBelow1000(n: nat)
    requires n < 1000
    ensures |NatToString(n)| <= 3
  {
    if n >= 10 {
      assert |NatToString(n)| == |NatToString(n / 10)| + 1;
      if n / 10 >= 10 {
        assert |NatToString(n / 10)| == |NatToString(n / 100)| + 1;
      }
    }
  }

  /** Below 1000 the padded rendering has exactly three digits and denotes `n`. */
  lemma Pad3Value(n: nat)
    requires n < 1000
    ensures |Pad3(n)| == 3
    ensures DigitsValue(Pad3(n)) == n
  {
    NatToStringBelow1000(n);
    var s := NatToString(n);
    DigitsValueOfNatToString(n);
    assert Pad3(n) == Repeat('0', 3 - |s|) + s;
    LeadingZerosValue(3 - |s|, s);
  }

  /** Padded indices below 1000 are pairwise distinct. */
  lemma Pad3Distinct(a: nat, b: nat)
    requires a < 1000 && b < 1000 && a != b
    ensures Pad3(a) != Pad3(b)
  {
    Pad3Value(a);
    Pad3Value(b);
  }

  // ---------------------------------------------------------------------------
  // Prefixes, suffixes, substrings
  // ---------------------------------------------------------------------------

  predicate IsPrefix(p: string, s: string)
  {
    |p| <= |s| && s[..|p|] == p
  }

  /** `s.endswith(suffix)` (case-sensitive). */
  predicate EndsWith(s: string, suffix: string)
  {
    |suffix| <= |s| && s[|s| - |suffix|..] == suffix
  }

  /** `s.includes(sub)` / Python `sub in s`: `sub` occurs somewhere in `s`. */
  predicate Contains(s: string, sub: string)
    decreases |s|
  {
    IsPrefix(sub, s) || (s != [] && Contains(s[1..], sub))
  }

  /** `sub` occurs in `s` starting at offset `i`. */
  predicate OccursAt(s: string, sub: string, i: nat)
  {
    i + |sub| <= |s| && s[i..i + |sub|] == sub
  }

  /** `Contains` holds exactly when `sub` occurs at some offset of `s`. */
  lemma {:induction false} ContainsAt(s: string, sub: string)
    ensures Contains(s, sub) <==> exists i: nat :: OccursAt(s, sub, i)
    decreases |s|
  {
    if s != [] {
      ContainsAt(s[1..], sub);
      if Contains(s[1..], sub) {
        var i: nat :| OccursAt(s[1..], sub, i);
        assert OccursAt(s, sub, i + 1);
      }
      if IsPrefix(sub, s) {
        assert OccursAt(s, sub, 0);
      }
      if exists i: nat :: OccursAt(s, sub, i) {
        var i: nat :| OccursAt(s, sub, i);
        if i > 0 {
          assert OccursAt(s[1..], sub, i - 1);
        }
      }
    } else {
      if IsPrefix(sub, s) {
        assert OccursAt(s, sub, 0);
      }
    }
  }

  /** Every string contains itself and the empty string. */
  lemma ContainsTrivial(s: string)
    ensures Contains(s, s)
    ensures Contains(s, "")
  {
    assert IsPrefix(s, s);
    assert IsPrefix("", s);
  }

  // ---------------------------------------------------------------------------
  // strip and join
  // ---------------------------------------------------------------------------

  /** The characters for which Python's `str.isspace` holds (what `strip()` removes). */
  predicate IsSpace(c: char)
  {
    c == ' ' || c == '\t' || c == '\n' || c == '\r' || c == '\U{B}' || c == '\U{C}'
    || ('\U{1C}' <= c <= '\U{1F}')
    || c == '\U{85}' || c == '\U{A0}' || c == '\U{1680}'
    || ('\U{2000}' <= c <= '\U{200A}')
    || c == '\U{2028}' || c == '\U{2029}' || c == '\U{202F}' || c == '\U{205F}' || c == '\U{3000}'
  }

  /** How many whitespace characters `s` starts with. */
  function LeadingSpaces(s: string): (k: nat)
    ensures k <= |s|
    ensures forall i :: 0 <= i < k ==> IsSpace(s[i])
    ensures k < |s| ==> !IsSpace(s[k])
    decreases |s|
  {
    if s != [] && IsSpace(s[0]) then 1 + LeadingSpaces(s[1..]) else 0
  }

  /** How many whitespace characters `s` ends with. */
  function TrailingSpaces(s: string): (k: nat)
    ensures k <= |s|
    ensures forall i :: |s| - k <= i < |s| ==> IsSpace(s[i])
    ensures k < |s| ==> !IsSpace(s[|s| - k - 1])
    decreases |s|
  {
    if s != [] && IsSpace(s[|s| - 1]) then 1 + TrailingSpaces(s[..|s| - 1]) else 0
  }

  /** Python `s.strip()`. */
  function Strip(s: string): string
  {
    var t := s[LeadingSpaces(s)..];
    t[..|t| - TrailingSpaces(t)]
  }

  /**
   * `strip` removes the leading and trailing whitespace and keeps the middle:
   * the result occurs in `s` right after the leading whitespace, everything
   * around it is whitespace, and it neither starts nor ends with whitespace.
   */
  lemma StripSpec(s: string)
    ensures var r := Strip(s);
      && (r != [] ==> !IsSpace(r[0]) && !IsSpace(r[|r| - 1]))
      && OccursAt(s, r, LeadingSpaces(s))
      && (forall i :: 0 <= i < LeadingSpaces(s) ==> IsSpace(s[i]))
      && (forall i :: LeadingSpaces(s) + |r| <= i < |s| ==> IsSpace(s[i]))
  {
    var t := s[LeadingSpaces(s)..];
    var k := TrailingSpaces(t);
    forall i | LeadingSpaces(s) + |Strip(s)| <= i < |s| ensures IsSpace(s[i]) {
      assert s[i] == t[i - LeadingSpaces(s)];
    }
  }

  /** A string with no whitespace at either end is its own `strip`. */
  lemma StripUnchanged(s: string)
    requires s != [] && !IsSpace(s[0]) && !IsSpace(s[|s| - 1])
    ensures Strip(s) == s
  {
    assert LeadingSpaces(s) == 0;
    assert s[0..] == s;
    assert TrailingSpaces(s) == 0;
  }

  /** Non-ASCII whitespace is stripped too: a no-break space before a header goes. */
  lemma StripNoBreakSpace()
    ensures Strip("\U{A0}Type") == "Type"
  {
    var s := "\U{A0}Type";
    assert LeadingSpaces(s[1..]) == 0;
    assert LeadingSpaces(s) == 1;
    var t := s[1..];
    assert t == "Type";
    assert TrailingSpaces(t) == 0;
  }

  /** Python `sep.join(parts)`. */
  function Join(parts: seq<string>, sep: string): string
  {
    if |parts| == 0 then ""
    else if |parts| == 1 then parts[0]
    else parts[0] + sep + Join(parts[1..], sep)
  }
}
