/** Call-id generation: the counter value written in base 36 (digits 0-9 then a-z,
    as JavaScript's Number.prototype.toString(36) writes a non-negative integer)
    and left-padded with '0' to width 16, as String.prototype.padStart does. */
module CallIds {

  /** The width every call id is padded to. */
  const Width: nat := 16

  predicate IsDigit(c: char) {
    '0' <= c <= '9' || 'a' <= c <= 'z'
  }

  predicate AllDigits(s: string) {
    forall i :: 0 <= i < |s| ==> IsDigit(s[i])
  }

  /** The base-36 digit for a value below 36. */
  function DigitChar(d: nat): (c: char)
    requires d < 36
    ensures IsDigit(c)
    ensures (c == '0') == (d == 0)
  {
    if d < 10 then ('0' as int + d) as char else ('a' as int + (d - 10)) as char
  }

  /** The value of a base-36 digit. */
  function DigitValue(c: char): (d: nat)
    requires IsDigit(c)
    ensures d < 36
  {
    if c <= '9' then c as int - '0' as int else c as int - 'a' as int + 10
  }

  function Pow36(k: nat): (p: nat)
    ensures p >= 1
  {
    if k == 0 then 1 else 36 * Pow36(k - 1)
  }

  /** Number.prototype.toString(36) on a non-negative integer: the shortest
      base-36 numeral, so there is a leading '0' only for zero itself. */
  function ToBase36(n: nat): (s: string)
    ensures |s| >= 1 && (|s| == 1 <==> n < 36)
    decreases n
  {
    if n < 36 then [DigitChar(n)] else ToBase36(n / 36) + [DigitChar(n % 36)]
  }

  /** The numeral has at least one digit, all from 0-9a-z, and starts with
      '0' exactly when the value is zero. */
  lemma {:induction false} ToBase36Digits(n: nat)
    ensures |ToBase36(n)| >= 1 && AllDigits(ToBase36(n))
    ensures (ToBase36(n)[0] == '0') == (n == 0)
    decreases n
  {
    if n >= 36 {
      ToBase36Digits(n / 36);
      assert ToBase36(n)[0] == ToBase36(n / 36)[0];
    }
  }

  /** The value of a base-36 numeral, most significant digit first
      (what parseInt(s, 36) returns for such a string). */
  function FromBase36(s: string): nat
    requires AllDigits(s)
  {
    if s == [] then 0 else FromBase36(s[..|s| - 1]) * 36 + DigitValue(s[|s| - 1])
  }

  /** k copies of c. */
  function Repeat(c: char, k: nat): string {
    seq(k, _ => c)
  }

  /** String.prototype.padStart(width, fill): a string already as long as the
      width is returned unchanged, never truncated. */
  function PadStart(s: string, width: nat, fill: char): (r: string)
    ensures |r| == if |s| >= width then |s| else width
  {
    if |s| >= width then s else Repeat(fill, width - |s|) + s
  }

  /** The padded string has length max(|s|, width), ends with s unchanged and
      holds only the fill character before it. */
  lemma PadStartShape(s: string, width: nat, fill: char)
    ensures |PadStart(s, width, fill)| == if |s| >= width then |s| else width
    ensures PadStart(s, width, fill)[|PadStart(s, width, fill)| - |s|..] == s
    ensures forall i :: 0 <= i < |PadStart(s, width, fill)| - |s| ==> PadStart(s, width, fill)[i] == fill
  {
  }

  /** The id generateCallId returns when the counter holds n. */
  function CallIdOf(n: nat): (id: string)
    ensures |id| >= Width
  {
    PadStart(ToBase36(n), Width, '0')
  }

  lemma DigitRoundTrip(d: nat)
    requires d < 36
    ensures DigitValue(DigitChar(d)) == d
  {
  }

  /** Decoding the base-36 numeral of n gives n back. */
  lemma {:induction false} FromToBase36(n: nat)
    ensures AllDigits(ToBase36(n)) && FromBase36(ToBase36(n)) == n
    decreases n
  {
    var s := ToBase36(n);
    ToBase36Digits(n);
    if n < 36 {
      assert s[..|s| - 1] == [];
      DigitRoundTrip(n);
    } else {
      assert s[..|s| - 1] == ToBase36(n / 36);
      FromToBase36(n / 36);
      DigitRoundTrip(n % 36);
    }
  }

  /** Leading zeros do not change the value of a numeral. */
  lemma {:induction false} LeadingZeros(k: nat, s: string)
    requires AllDigits(s)
    ensures AllDigits(Repeat('0', k) + s)
    ensures FromBase36(Repeat('0', k) + s) == FromBase36(s)
    decreases |s|
  {
    var z := Repeat('0', k) + s;
    if s == [] {
      assert z == Repeat('0', k);
      ZerosValue(k);
    } else {
      assert z[..|z| - 1] == Repeat('0', k) + s[..|s| - 1];
      LeadingZeros(k, s[..|s| - 1]);
    }
  }

  lemma {:induction false} ZerosValue(k: nat)
    ensures AllDigits(Repeat('0', k))
    ensures FromBase36(Repeat('0', k)) == 0
  {
    if k > 0 {
      var z := Repeat('0', k);
      assert z[..k - 1] == Repeat('0', k - 1);
      ZerosValue(k - 1);
    }
  }

  /** A numeral of k digits denotes a value below 36^k. */
  lemma {:induction false} FromBase36Bound(s: string)
    requires AllDigits(s)
    ensures FromBase36(s) < Pow36(|s|)
  {
    if s != [] {
      var t := s[..|s| - 1];
      FromBase36Bound(t);
      assert FromBase36(t) + 1 <= Pow36(|t|);
      assert FromBase36(s) < (FromBase36(t) + 1) * 36;
    }
  }

  /** A value below 36^k (k >= 1) needs at most k base-36 digits. */
  lemma {:induction false} ToBase36Length(n: nat, k: nat)
    requires k >= 1 && n < Pow36(k)
    ensures |ToBase36(n)| <= k
    decreases n
  {
    if n >= 36 {
      assert k != 1;
      assert n / 36 < Pow36(k - 1);
      ToBase36Length(n / 36, k - 1);
    }
  }

  /** Every call id consists of base-36 digits and denotes its counter value. */
  lemma CallIdDecodes(n: nat)
    ensures AllDigits(CallIdOf(n))
    ensures FromBase36(CallIdOf(n)) == n
  {
    var s := ToBase36(n);
    FromToBase36(n);
    if |s| < Width {
      assert CallIdOf(n) == Repeat('0', Width - |s|) + s;
      LeadingZeros(Width - |s|, s);
    }
  }

  /** Distinct counter values give distinct call ids. */
  lemma CallIdInjective(m: nat, n: nat)
    ensures CallIdOf(m) == CallIdOf(n) ==> m == n
  {
    CallIdDecodes(m);
    CallIdDecodes(n);
  }

  /** A call id is exactly 16 characters long if and only if the counter is
      below 36^16; a larger counter gives a longer id, never a truncated one. */
  lemma CallIdWidth(n: nat)
    ensures |CallIdOf(n)| >= Width
    ensures |CallIdOf(n)| == Width <==> n < Pow36(Width)
  {
    PadStartShape(ToBase36(n), Width, '0');
    if n < Pow36(Width) {
      ToBase36Length(n, Width);
    }
    if |CallIdOf(n)| == Width {
      CallIdDecodes(n);
      FromBase36Bound(CallIdOf(n));
    }
  }
}
