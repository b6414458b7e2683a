/** String helpers the components rely on: JavaScript's rendering of an integer in a
    template literal, `String.prototype.includes`, `toLowerCase`, and the `m:ss` clock
    format shared by the code editor's countdown and the duel's duration. */
module Text {
  import JsMath

  predicate IsDigit(c: char)
  {
    '0' <= c <= '9'
  }

  predicate AllDigits(s: string)
  {
    forall i :: 0 <= i < |s| ==> IsDigit(s[i])
  }

  function DigitChar(d: nat): (c: char)
    requires d < 10
    ensures IsDigit(c) && c as int - '0' as int == d
  {
    (d + '0' as int) as char
  }

  /** Decimal digits of `n`, without leading zeros, as `${n}` prints a non-negative integer. */
  function NatToString(n: nat): (s: string)
    ensures |s| >= 1 && AllDigits(s)
    ensures |s| == 1 <==> n < 10
    ensures n < 100 ==> |s| <= 2
  {
    if n < 10 then [DigitChar(n)] else NatToString(n / 10) + [DigitChar(n % 10)]
  }

  /** The number a string of decimal digits denotes. */
  function DigitsValue(s: string): nat
    requires AllDigits(s)
  {
    if s == [] then 0 else DigitsValue(s[..|s| - 1]) * 10 + (s[|s| - 1] as int - '0' as int)
  }

  /** Reading back the printed digits gives the number that was printed. */
  lemma {:induction false} NatToStringRoundTrip(n: nat)
    ensures DigitsValue(NatToString(n)) == n
  {
    if n >= 10 {
      var s := NatToString(n);
      NatToStringRoundTrip(n / 10);
      assert s[..|s| - 1] == NatToString(n / 10);
    }
  }

  /** `${i}` for an integer `i`: a minus sign before the digits of a negative number. */
  function IntToString(i: int): (s: string)
    ensures i >= 0 ==> AllDigits(s) && DigitsValue(s) == i
    ensures i < 0 ==> |s| >= 2 && s[0] == '-' && AllDigits(s[1..]) && DigitsValue(s[1..]) == -i
  {
    NatToStringRoundTrip(if i < 0 then -i else i);
    if i < 0 then "-" + NatToString(-i) else NatToString(i)
  }

  /** `${Math.floor(s / 60)}:${s % 60 < 10 ? '0' : ''}${s % 60}`, written out for any integer
      `s`. For `s / 60` with a positive divisor, Dafny's `/` is already the floor. */
  function Clock(s: int): string
  {
    var minutes := s / 60;
    var seconds := JsMath.JsRem(s, 60);
    IntToString(minutes) + ":" + (if seconds < 10 then "0" else "") + IntToString(seconds)
  }

  /** For a non-negative count of seconds the clock reads back exactly: the last three
      characters are ':' and two digits, the digits before the colon are the minutes, the two
      after it are the seconds (below 60, zero-padded exactly when below 10), and
      minutes * 60 + seconds is the count. */
  lemma ClockReadBack(s: nat)
    ensures var r := Clock(s);
      && |r| >= 4
      && r[|r| - 3] == ':'
      && AllDigits(r[..|r| - 3]) && AllDigits(r[|r| - 2..])
      && r[..|r| - 3] == NatToString(s / 60)
      && DigitsValue(r[|r| - 2..]) < 60
      && (r[|r| - 2] == '0' <==> s % 60 < 10)
      && DigitsValue(r[..|r| - 3]) * 60 + DigitsValue(r[|r| - 2..]) == s
  {
    var r := Clock(s);
    var m, sec := NatToString(s / 60), s % 60;
    var tail := (if sec < 10 then "0" else "") + NatToString(sec);
    assert r == m + ":" + tail;
    PaddedSeconds(sec);
    assert r[..|r| - 3] == m;
    assert r[|r| - 2..] == tail;
    NatToStringRoundTrip(s / 60);
  }

  /** The seconds field: two digits, a leading '0' exactly below ten, reading back as `sec`. */
  lemma PaddedSeconds(sec: nat)
    requires sec < 60
    ensures var t := (if sec < 10 then "0" else "") + NatToString(sec);
      |t| == 2 && AllDigits(t) && DigitsValue(t) == sec && (t[0] == '0' <==> sec < 10)
  {
    var digits := NatToString(sec);
    var t := (if sec < 10 then "0" else "") + digits;
    NatToStringRoundTrip(sec);
    if sec < 10 {
      assert t[..1] == "0";
      assert t[..1][..0] == [];
      assert DigitsValue(t) == DigitsValue(t[..1]) * 10 + sec;
    } else {
      assert t == digits;
      assert digits[0] != '0' by {
        assert digits[..1] == NatToString(sec / 10);
      }
    }
  }

  /** `haystack.includes(needle)`: the needle occurs as a contiguous run. */
  predicate Contains(haystack: string, needle: string)
  {
    exists i :: 0 <= i <= |haystack| && OccursAt(haystack, needle, i)
  }

  /** The needle occurs in the haystack starting at index `i`. */
  predicate OccursAt(haystack: string, needle: string, i: nat)
  {
    i + |needle| <= |haystack| && haystack[i..i + |needle|] == needle
  }

  /** Lower-casing of one character: the ASCII letters A-Z map to a-z, every other character is
      kept. */
  function LowerChar(c: char): (l: char)
    ensures 'A' <= c <= 'Z' ==> 'a' <= l <= 'z'
    ensures !('A' <= c <= 'Z') ==> l == c
  {
    if 'A' <= c <= 'Z' then (c as int - 'A' as int + 'a' as int) as char else c
  }

  /** `s.toLowerCase()`, character by character. */
  function Lower(s: string): (l: string)
    ensures |l| == |s|
    ensures forall i :: 0 <= i < |s| ==> l[i] == LowerChar(s[i])
  {
    seq(|s|, i requires 0 <= i < |s| => LowerChar(s[i]))
  }

  /** `haystack.toLowerCase().includes(needle.toLowerCase())`. */
  predicate ContainsIgnoringCase(haystack: string, needle: string)
  {
    Contains(Lower(haystack), Lower(needle))
  }

  /** The empty needle occurs in every string, which is why the pages test the query
      for emptiness before they search. */
  lemma EmptyNeedleOccurs(haystack: string)
    ensures ContainsIgnoringCase(haystack, "")
  {
    assert Lower("") == [];
    assert OccursAt(Lower(haystack), Lower(""), 0);
  }
}
