// Text helpers standing in for Python's `str(int)` and the substring test `p in s`,
// both used when the turret software builds and filters its "{name}_{track_id}" labels.
module Text {

  predicate IsDigit(c: char) {
    '0' <= c <= '9'
  }

  predicate AllDigits(s: string) {
    forall i :: 0 <= i < |s| ==> IsDigit(s[i])
  }

  function DigitChar(d: nat): (c: char)
    requires d < 10
    ensures IsDigit(c) && (c as int) - ('0' as int) == d
  {
    ('0' as int + d) as char
  }

  /** Decimal rendering of a natural number, as Python's `str(n)` prints it. */
  function NatToString(n: nat): (s: string)
    ensures |s| >= 1 && AllDigits(s)
    ensures |s| > 1 ==> s[0] != '0'
    decreases n
  {
    if n < 10 then [DigitChar(n)] else NatToString(n / 10) + [DigitChar(n % 10)]
  }

  /** Reads a string of decimal digits back as a number; the inverse of NatToString. */
  function DecimalValue(s: string): nat
    requires AllDigits(s)
  {
    if s == [] then 0
    else DecimalValue(s[..|s| - 1]) * 10 + ((s[|s| - 1] as int) - ('0' as int))
  }

  lemma {:induction false} NatToStringRoundTrip(n: nat)
    ensures DecimalValue(NatToString(n)) == n
    decreases n
  {
    if n >= 10 {
      var s := NatToString(n);
      assert s[..|s| - 1] == NatToString(n / 10);
      NatToStringRoundTrip(n / 10);
    }
  }

  /** `str(i)` for any integer: a minus sign before the digits of a negative number. */
  function IntToString(i: int): (s: string)
    ensures forall k :: 0 <= k < |s| ==> IsDigit(s[k]) || s[k] == '-'
  {
    if i < 0 then "-" + NatToString(-i) else NatToString(i)
  }

  predicate OccursAt(s: string, p: string, i: nat) {
    i + |p| <= |s| && s[i..i + |p|] == p
  }

  /** Python's `p in s` on strings. */
  predicate Contains(s: string, p: string) {
    exists i: nat | i <= |s| :: OccursAt(s, p, i)
  }

  /** A suffix none of whose characters equals the last character of `p` cannot take part
      in an occurrence of `p`: the occurrences in `a + r` are exactly those in `a`. */
  lemma ContainsIgnoresSuffix(a: string, r: string, p: string)
    requires |p| > 0
    requires forall k :: 0 <= k < |r| ==> r[k] != p[|p| - 1]
    ensures Contains(a + r, p) <==> Contains(a, p)
  {
    if Contains(a, p) {
      var i: nat :| i <= |a| && OccursAt(a, p, i);
      assert (a + r)[i..i + |p|] == a[i..i + |p|];
      assert OccursAt(a + r, p, i);
    }
    if Contains(a + r, p) {
      var i: nat :| i <= |a + r| && OccursAt(a + r, p, i);
      assert forall k :: |a| <= k < |a + r| ==> (a + r)[k] == r[k - |a|];
      assert (a + r)[i + |p| - 1] == p[|p| - 1];
      assert (a + r)[i..i + |p|] == a[i..i + |p|];
      assert OccursAt(a, p, i);
    }
  }
}
