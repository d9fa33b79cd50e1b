/** Shared vocabulary of the grapple model: optional values, entity identifiers,
    the float helpers the system calls (MathF.Max / MathF.Min, over reals) and the
    decimal rendering an entity identifier gets when it is spliced into a string. */
module Base {

  /** A nullable reference or value (`T?` in the source). */
  datatype Option<+T> = None | Some(value: T)

  /** An `EntityUid`: entities are numbered from zero upwards. */
  type Uid = nat

  function Max(a: real, b: real): (r: real)
    ensures r >= a && r >= b
    ensures r == a || r == b
  {
    if a >= b then a else b
  }

  function Min(a: real, b: real): (r: real)
    ensures r <= a && r <= b
    ensures r == a || r == b
  {
    if a <= b then a else b
  }

  function DigitChar(d: nat): (c: char)
    requires d < 10
    ensures '0' <= c <= '9'
  {
    "0123456789"[d]
  }

  lemma DigitCharInjective(a: nat, b: nat)
    requires a < 10 && b < 10
    ensures DigitChar(a) == DigitChar(b) ==> a == b
  {
  }

  /** The text of an entity identifier: its number in decimal, most significant digit first. */
  function Decimal(n: nat): (s: string)
    ensures |s| >= 1
    ensures n < 10 <==> |s| == 1
    ensures forall i :: 0 <= i < |s| ==> '0' <= s[i] <= '9'
  {
    if n < 10 then [DigitChar(n)] else Decimal(n / 10) + [DigitChar(n % 10)]
  }

  /** Distinct entities have distinct texts. */
  lemma {:induction false} DecimalInjective(a: nat, b: nat)
    ensures Decimal(a) == Decimal(b) ==> a == b
  {
    if Decimal(a) == Decimal(b) {
      var s := Decimal(a);
      if a < 10 && b < 10 {
        DigitCharInjective(a, b);
      } else if a >= 10 && b >= 10 {
        assert s[..|s| - 1] == Decimal(a / 10) == Decimal(b / 10);
        assert s[|s| - 1] == DigitChar(a % 10) == DigitChar(b % 10);
        DecimalInjective(a / 10, b / 10);
        DigitCharInjective(a % 10, b % 10);
      }
    }
  }
}
