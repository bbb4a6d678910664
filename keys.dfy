/**
 * Decimal text of call ids and listener keys. The client stores pending calls and
 * listeners in plain objects under the key `id + ''`, and looks replies up with the
 * string form of whatever callback the frame carried; this module gives that text and
 * its exact inverse.
 */
module Keys {
  import opened Options

  function Digit(d: nat): char
    requires d < 10
  {
    ('0' as int + d) as char
  }

  predicate IsDigit(c: char) {
    '0' <= c <= '9'
  }

  predicate AllDigits(s: string) {
    forall i | 0 <= i < |s| :: IsDigit(s[i])
  }

  /** The text JavaScript gives a non-negative integer: `n + ''`. */
  function Decimal(n: nat): (s: string)
    ensures |s| >= 1 && AllDigits(s)
    ensures (|s| == 1) == (n < 10)
    ensures n > 0 ==> s[0] != '0'
  {
    if n < 10 then [Digit(n)] else Decimal(n / 10) + [Digit(n % 10)]
  }

  /** The text of any integer, with a leading minus sign when negative. */
  function IntText(i: int): string {
    if i < 0 then "-" + Decimal(-i) else Decimal(i)
  }

  /** A text `n + ''` can produce: digits only, no leading zero except "0" itself. */
  predicate Canonical(s: string) {
    |s| >= 1 && AllDigits(s) && (|s| == 1 || s[0] != '0')
  }

  function DigitsValue(s: string): nat
    requires AllDigits(s)
  {
    if s == [] then 0 else 10 * DigitsValue(s[..|s| - 1]) + (s[|s| - 1] as int - '0' as int)
  }

  /** The id whose decimal text is `s`, if there is one. */
  function KeyToId(s: string): Option<nat> {
    if Canonical(s) then Some(DigitsValue(s)) else None
  }

  lemma {:induction false} DecimalValue(n: nat)
    ensures DigitsValue(Decimal(n)) == n
  {
    if n >= 10 {
      var p := Decimal(n / 10);
      assert Decimal(n)[..|Decimal(n)| - 1] == p;
      DecimalValue(n / 10);
    }
  }

  /** Every id's key reads back as that id. */
  lemma KeyRoundTrip(n: nat)
    ensures KeyToId(Decimal(n)) == Some(n)
  {
    DecimalValue(n);
  }

  /** A key that reads back as an id is exactly that id's key. */
  lemma {:induction false} KeyToIdExact(s: string, n: nat)
    requires KeyToId(s) == Some(n)
    ensures Decimal(n) == s
  {
    if |s| >= 2 {
      var p := s[..|s| - 1];
      var m := DigitsValue(p);
      assert Canonical(p);
      KeyToIdExact(p, m);
      assert p[0] != '0' && Decimal(0) == "0";
      assert n == 10 * m + (s[|s| - 1] as int - '0' as int);
      assert n / 10 == m && Digit(n % 10) == s[|s| - 1];
      assert s == p + [s[|s| - 1]];
    }
  }

  /** Key lookup is exact in both directions: `s` is the key of `n` iff it reads back as `n`. */
  lemma KeyMatches(s: string, n: nat)
    ensures KeyToId(s) == Some(n) <==> s == Decimal(n)
  {
    if KeyToId(s) == Some(n) { KeyToIdExact(s, n); }
    if s == Decimal(n) { KeyRoundTrip(n); }
  }

  /** Distinct ids never share a key. */
  lemma DecimalInjective(a: nat, b: nat)
    requires Decimal(a) == Decimal(b)
    ensures a == b
  {
    KeyRoundTrip(a);
    KeyRoundTrip(b);
  }
}
