/** String helpers shared by the front-end models: the ASCII part of JavaScript's
    `toLowerCase`, `includes`/`indexOf` on strings, and decimal rendering as done
    by `String(n)` and `padStart(2, '0')`. */
module Text {

  /** `toLowerCase` on one character, restricted to ASCII letters. */
  function LowerChar(c: char): char
  {
    if 'A' <= c <= 'Z' then (c as int + 32) as char else c
  }

  function Lower(s: string): (r: string)
    ensures |r| == |s|
    ensures forall i :: 0 <= i < |s| ==> r[i] == LowerChar(s[i])
  {
    if s == [] then [] else [LowerChar(s[0])] + Lower(s[1..])
  }

  /** `Lower(s)` is `t` when they agree character by character. */
  lemma LowerWord(s: string, t: string)
    requires |s| == |t| && forall i :: 0 <= i < |s| ==> LowerChar(s[i]) == t[i]
    ensures Lower(s) == t
  {
  }

  /** `p` occurs in `s` starting at index `i`. */
  predicate OccursAt(s: string, p: string, i: nat)
  {
    i + |p| <= |s| && s[i..i + |p|] == p
  }

  /** `s.indexOf(p, from)`: the first index at or after `from` where `p` occurs, or -1. */
  function IndexFrom(s: string, p: string, from: nat): (r: int)
    decreases |s| - from
    ensures r == -1 || (from <= r && OccursAt(s, p, r))
    ensures r == -1 ==> forall j :: from <= j ==> !OccursAt(s, p, j)
    ensures r >= 0 ==> forall j :: from <= j < r ==> !OccursAt(s, p, j)
  {
    if from + |p| > |s| then -1
    else if s[from..from + |p|] == p then from
    else IndexFrom(s, p, from + 1)
  }

  /** `s.indexOf(p)`. */
  function IndexOf(s: string, p: string): int
  {
    IndexFrom(s, p, 0)
  }

  /** `s.includes(p)`. */
  predicate Contains(s: string, p: string)
  {
    IndexOf(s, p) >= 0
  }

  lemma ContainsIff(s: string, p: string)
    ensures Contains(s, p) <==> exists i: nat :: OccursAt(s, p, i)
  {
    if !Contains(s, p) {
      assert forall j: nat :: !OccursAt(s, p, j);
    }
  }

  /** The empty string is included in every string, as in JavaScript. */
  lemma ContainsEmpty(s: string)
    ensures Contains(s, "")
  {
    assert OccursAt(s, "", 0);
  }

  predicate IsDigit(c: char)
  {
    '0' <= c <= '9'
  }

  function DigitChar(d: nat): char
    requires d < 10
  {
    ('0' as int + d) as char
  }

  /** `String(n)` for a non-negative integer. */
  function NatToString(n: nat): (r: string)
    ensures |r| >= 1
    ensures forall i :: 0 <= i < |r| ==> IsDigit(r[i])
  {
    if n < 10 then [DigitChar(n)] else NatToString(n / 10) + [DigitChar(n % 10)]
  }

  /** `String(n)` for any integer. */
  function IntToString(n: int): string
  {
    if n < 0 then "-" + NatToString(-n) else NatToString(n)
  }

  /** The value of a string of decimal digits. */
  function ParseNat(s: string): nat
  {
    if s == [] then 0
    else
      var d := s[|s| - 1] as int - '0' as int;
      ParseNat(s[..|s| - 1]) * 10 + (if 0 <= d < 10 then d else 0)
  }

  lemma {:induction false} ParseNatToString(n: nat)
    ensures ParseNat(NatToString(n)) == n
  {
    if n >= 10 {
      var s := NatToString(n);
      assert s[..|s| - 1] == NatToString(n / 10);
      ParseNatToString(n / 10);
    }
  }

  /** `s.padStart(2, '0')`. */
  function PadStart2(s: string): string
  {
    if |s| == 0 then "00" else if |s| == 1 then "0" + s else s
  }

  /** A leading zero does not change the value of a digit string. */
  lemma ParseNatLeadingZero(s: string)
    ensures ParseNat("0" + s) == ParseNat(s)
    decreases |s|
  {
    if s != [] {
      assert ("0" + s)[..|"0" + s| - 1] == "0" + s[..|s| - 1];
      ParseNatLeadingZero(s[..|s| - 1]);
    }
  }

  /** A number below 100 padded to two digits is two digits long and reads back as itself. */
  lemma Pad2RoundTrip(n: nat)
    requires n < 100
    ensures |PadStart2(NatToString(n))| == 2
    ensures ParseNat(PadStart2(NatToString(n))) == n
  {
    ParseNatToString(n);
    if n < 10 {
      ParseNatLeadingZero(NatToString(n));
    } else {
      assert NatToString(n) == NatToString(n / 10) + [DigitChar(n % 10)];
    }
  }

  /** `s.slice(-2)`: the last two characters, or the whole string when it is shorter. */
  function LastTwo(s: string): (r: string)
    ensures |r| == if |s| < 2 then |s| else 2
  {
    if |s| < 2 then s else s[|s| - 2..]
  }

  /** The last two characters of `String(n)`, for `n >= 10`, spell `n % 100`. */
  lemma {:induction false} LastTwoDigits(n: nat)
    requires n >= 10
    ensures |LastTwo(NatToString(n))| == 2
    ensures ParseNat(LastTwo(NatToString(n))) == n % 100
  {
    var s := NatToString(n);
    var t := NatToString(n / 10);
    assert s == t + [DigitChar(n % 10)];
    LastDigit(n / 10);
    assert LastTwo(s) == [DigitChar((n / 10) % 10), DigitChar(n % 10)];
    TwoDigits((n / 10) % 10, n % 10);
    HundredSplit(n);
  }

  /** The last character of `String(m)` is the digit `m % 10`. */
  lemma LastDigit(m: nat)
    ensures NatToString(m)[|NatToString(m)| - 1] == DigitChar(m % 10)
  {
  }

  /** Two digit characters read back as a two-digit number. */
  lemma TwoDigits(a: nat, b: nat)
    requires a < 10 && b < 10
    ensures ParseNat([DigitChar(a), DigitChar(b)]) == 10 * a + b
  {
    var u := [DigitChar(a)];
    assert u[..0] == [];
    assert ParseNat(u) == a;
    var s := u + [DigitChar(b)];
    assert s[..1] == u;
    assert ParseNat(s) == ParseNat(u) * 10 + b;
    assert s == [DigitChar(a), DigitChar(b)];
  }

  /** The tens digit and the units digit make up `n % 100`. */
  lemma HundredSplit(n: nat)
    ensures 10 * ((n / 10) % 10) + n % 10 == n % 100
  {
    var q, r := n / 10, n % 10;
    var p, t := q / 10, q % 10;
    assert n == 100 * p + (10 * t + r);
    assert 0 <= 10 * t + r < 100;
  }
}
