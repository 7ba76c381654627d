/** Character and string helpers the dashboard script relies on:
    `charAt(0).toUpperCase() + slice(1)`, `String.prototype.includes`
    and the decimal form JavaScript gives an integral number. */
module Text {

  predicate IsLowerAscii(c: char)
  {
    'a' <= c <= 'z'
  }

  /** `toUpperCase` on one character, for the ASCII letters; every other
      character is left as it is. */
  function UpperChar(c: char): (r: char)
    ensures IsLowerAscii(c) ==> r as int == c as int - 32 && 'A' <= r <= 'Z'
    ensures !IsLowerAscii(c) ==> r == c
    ensures !IsLowerAscii(r)
  {
    if IsLowerAscii(c) then (c as int - 32) as char else c
  }

  /** `s.charAt(0).toUpperCase() + s.slice(1)`: the first character
      upper-cased, the rest unchanged; the empty string stays empty. */
  function Capitalize(s: string): (r: string)
    ensures |r| == |s|
    ensures |s| > 0 ==> !IsLowerAscii(r[0]) && r[1..] == s[1..]
    ensures |s| > 0 && IsLowerAscii(s[0]) ==> r[0] as int == s[0] as int - 32
    ensures r == s <==> (s == [] || !IsLowerAscii(s[0]))
  {
    if s == [] then [] else [UpperChar(s[0])] + s[1..]
  }

  /** Capitalising an already capitalised string changes nothing. */
  lemma CapitalizeIdempotent(s: string)
    ensures Capitalize(Capitalize(s)) == Capitalize(s)
  {
  }

  /** `p` occurs in `s` starting at index `i`. */
  predicate OccursAt(s: string, p: string, i: nat)
  {
    i + |p| <= |s| && s[i..i + |p|] == p
  }

  /** `s.includes(p)`, scanning from the left. */
  function Contains(s: string, p: string): (b: bool)
    ensures b <==> exists i: nat :: OccursAt(s, p, i)
    decreases |s|
  {
    if |s| < |p| then false
    else if s[..|p|] == p then assert OccursAt(s, p, 0); true
    else
      var b := Contains(s[1..], p);
      assert b ==> exists i: nat :: OccursAt(s, p, i) by {
        if b {
          var j: nat :| OccursAt(s[1..], p, j);
          assert s[j + 1..j + 1 + |p|] == s[1..][j..j + |p|];
          assert OccursAt(s, p, j + 1);
        }
      }
      assert (exists i: nat :: OccursAt(s, p, i)) ==> b by {
        if exists i: nat :: OccursAt(s, p, i) {
          var i: nat :| OccursAt(s, p, i);
          assert i != 0;
          assert s[1..][i - 1..i - 1 + |p|] == s[i..i + |p|];
          assert OccursAt(s[1..], p, i - 1);
        }
      }
      b
  }

  /** A string none of whose characters is `c` contains no pattern that
      starts with `c`. */
  lemma NotContainsWithoutHead(s: string, p: string, c: char)
    requires |p| > 0 && p[0] == c
    requires forall i :: 0 <= i < |s| ==> s[i] != c
    ensures !Contains(s, p)
  {
  }

  function DigitChar(d: nat): (c: char)
    requires d < 10
    ensures '0' <= c <= '9' && c as int - '0' as int == d
  {
    (('0' as int) + d) as char
  }

  /** The number a string of decimal digits denotes, most significant
      digit first. */
  ghost function DigitsValue(s: string): int
    decreases |s|
  {
    if s == [] then 0 else DigitsValue(s[..|s| - 1]) * 10 + (s[|s| - 1] as int - '0' as int)
  }

  /** A canonical decimal numeral: at least one digit, only digits, and
      no leading zero unless the numeral is "0" itself. */
  predicate IsDecimal(s: string)
  {
    && |s| > 0
    && (forall i :: 0 <= i < |s| ==> '0' <= s[i] <= '9')
    && (|s| > 1 ==> s[0] != '0')
  }

  /** A digit string that does not start with '0' denotes at least 1, and
      at least 10 when it has more than one digit. */
  lemma {:induction false} DigitsValueLower(s: string)
    requires |s| > 0 && s[0] != '0'
    requires forall i :: 0 <= i < |s| ==> '0' <= s[i] <= '9'
    ensures DigitsValue(s) >= 1
    ensures |s| > 1 ==> DigitsValue(s) >= 10
    decreases |s|
  {
    if |s| > 1 {
      var p := s[..|s| - 1];
      assert p[0] == s[0];
      DigitsValueLower(p);
    }
  }

  /** A single digit denotes at most 9. */
  lemma DigitsValueOneDigit(s: string)
    requires |s| == 1 && '0' <= s[0] <= '9'
    ensures DigitsValue(s) == s[0] as int - '0' as int
  {
    assert s[..0] == [];
  }

  /** Two canonical numerals that denote the same number are the same
      string: a decimal form is fixed by its value. */
  lemma {:induction false} DecimalUnique(a: string, b: string)
    requires IsDecimal(a) && IsDecimal(b)
    requires DigitsValue(a) == DigitsValue(b)
    ensures a == b
    decreases |a|
  {
    if |a| == 1 && |b| == 1 {
      DigitsValueOneDigit(a);
      DigitsValueOneDigit(b);
    } else if |a| == 1 {
      DigitsValueOneDigit(a);
      DigitsValueLower(b);
    } else if |b| == 1 {
      DigitsValueOneDigit(b);
      DigitsValueLower(a);
    } else {
      var pa, pb := a[..|a| - 1], b[..|b| - 1];
      var da, db := a[|a| - 1] as int - '0' as int, b[|b| - 1] as int - '0' as int;
      assert DigitsValue(pa) * 10 + da == DigitsValue(pb) * 10 + db;
      assert da == db && DigitsValue(pa) == DigitsValue(pb);
      assert pa[0] == a[0] && pb[0] == b[0];
      DecimalUnique(pa, pb);
      assert a == pa + [a[|a| - 1]] && b == pb + [b[|b| - 1]];
    }
  }

  /** Decimal digits of a natural number, most significant first, without
      leading zeros. */
  function NatToString(n: nat): (r: string)
    ensures IsDecimal(r)
    ensures DigitsValue(r) == n
    decreases n
  {
    if n < 10 then
      var r := [DigitChar(n)];
      assert r[..0] == [];
      r
    else
      var h := NatToString(n / 10);
      var r := h + [DigitChar(n % 10)];
      assert r[..|r| - 1] == h;
      r
  }

  /** `String(n)` for an integral number within the range JavaScript
      prints without an exponent: a minus sign exactly for a negative
      number, followed by the digits of its magnitude. */
  function IntToString(n: int): (r: string)
    ensures forall i :: 0 <= i < |r| ==> r[i] == '-' || '0' <= r[i] <= '9'
    ensures (|r| > 0 && r[0] == '-') <==> n < 0
    ensures n < 0 ==> |r| > 1 && IsDecimal(r[1..]) && DigitsValue(r[1..]) == -n
    ensures n >= 0 ==> IsDecimal(r) && DigitsValue(r) == n
  {
    if n < 0 then
      var d := NatToString(-n);
      assert ("-" + d)[1..] == d;
      "-" + d
    else NatToString(n)
  }

  /** The decimal form of a number is the only string that is a minus sign
      exactly for a negative number followed by a canonical numeral for its
      magnitude: "07" and "1-" are not forms of 7. */
  lemma IntToStringUnique(n: int, s: string)
    requires n >= 0 ==> IsDecimal(s) && DigitsValue(s) == n
    requires n < 0 ==> |s| > 1 && s[0] == '-' && IsDecimal(s[1..]) && DigitsValue(s[1..]) == -n
    ensures s == IntToString(n)
  {
    var r := IntToString(n);
    if n >= 0 {
      DecimalUnique(s, r);
    } else {
      DecimalUnique(s[1..], r[1..]);
      assert s == [s[0]] + s[1..] && r == [r[0]] + r[1..];
    }
  }
}
