/** String helpers with the meaning Java's and Python's string methods give
    them: substring search, prefix and suffix tests, decimal rendering,
    joining, and character counting. */
module Text {

  import opened Results

  /** `w` occurs in `s` at position `i`. */
  predicate OccursAt(s: string, w: string, i: int)
  {
    0 <= i && i + |w| <= |s| && s[i..i + |w|] == w
  }

  /** Java's `String.contains`. */
  predicate Contains(s: string, w: string)
  {
    exists i | 0 <= i <= |s| - |w| :: OccursAt(s, w, i)
  }

  /** Java's `String.startsWith`. */
  predicate StartsWith(s: string, prefix: string)
  {
    |prefix| <= |s| && s[..|prefix|] == prefix
  }

  /** Java's `String.endsWith`. */
  predicate EndsWith(s: string, suffix: string)
  {
    |suffix| <= |s| && s[|s| - |suffix|..] == suffix
  }

  /** Decimal digits of a natural number, most significant first. */
  function NatToText(n: nat): (r: string)
    ensures |r| > 0
    ensures forall k :: 0 <= k < |r| ==> '0' <= r[k] <= '9'
    decreases n
  {
    var d := [(n % 10) as char + '0' as char];
    if n < 10 then d else NatToText(n / 10) + d
  }

  /** Java's decimal rendering of an `int` (`"" + i`). */
  function IntToText(i: int): string
  {
    if i < 0 then "-" + NatToText(-i) else NatToText(i)
  }

  /** Java's `String.join(sep, xs)`. */
  function Join(sep: string, xs: seq<string>): string
  {
    if |xs| == 0 then ""
    else if |xs| == 1 then xs[0]
    else xs[0] + sep + Join(sep, xs[1..])
  }

  /** Number of occurrences of character `c` in `s`. */
  function Count(c: char, s: string): nat
  {
    if |s| == 0 then 0 else (if s[0] == c then 1 else 0) + Count(c, s[1..])
  }

  lemma {:induction false} CountAppend(c: char, a: string, b: string)
    ensures Count(c, a + b) == Count(c, a) + Count(c, b)
  {
    if |a| == 0 {
      assert a + b == b;
    } else {
      assert (a + b)[1..] == a[1..] + b;
      CountAppend(c, a[1..], b);
    }
  }

  /** An occurrence of `w` inside `a` is an occurrence inside `a + b` and `b + a`. */
  lemma OccursInConcat(a: string, b: string, w: string, i: int)
    requires OccursAt(a, w, i)
    ensures OccursAt(a + b, w, i) && OccursAt(b + a, w, |b| + i)
  {
    assert (a + b)[i..i + |w|] == a[i..i + |w|];
    assert (b + a)[|b| + i..|b| + i + |w|] == a[i..i + |w|];
  }

  predicate IsDigit(c: char) { '0' <= c <= '9' }

  /** The value of a string of decimal digits. */
  function DigitsValue(s: string): nat
    requires forall k | 0 <= k < |s| :: IsDigit(s[k])
  {
    if |s| == 0 then 0
    else
      assert IsDigit(s[|s| - 1]);
      DigitsValue(s[..|s| - 1]) * 10 + (s[|s| - 1] as int - '0' as int)
  }

  /** An optional sign followed by at least one decimal digit. */
  function ParseInt(s: string): Option<int>
  {
    var signed := |s| > 0 && (s[0] == '-' || s[0] == '+');
    var sign := if signed && s[0] == '-' then -1 else 1;
    var digits := if signed then s[1..] else s;
    if |digits| > 0 && forall k | 0 <= k < |digits| :: IsDigit(digits[k]) then Some(sign * DigitsValue(digits)) else None
  }

  /** Rendering a number and parsing it back gives the number. */
  lemma {:induction false} ParseNatToText(n: nat)
    ensures ParseInt(NatToText(n)) == Some(n)
  {
    var r := NatToText(n);
    assert IsDigit(r[0]);
    assert forall k | 0 <= k < |r| :: IsDigit(r[k]);
    NatToTextValue(n);
  }

  lemma {:induction false} NatToTextValue(n: nat)
    ensures DigitsValue(NatToText(n)) == n
    decreases n
  {
    var r := NatToText(n);
    if n >= 10 {
      NatToTextValue(n / 10);
      assert r[..|r| - 1] == NatToText(n / 10);
    }
  }
}
