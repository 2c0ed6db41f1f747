/** Number-to-text conversions the front-end performs: `Number.prototype.toString(base)`
    (base 10 for chain ids and token ids, base 16 for the chain id sent to the wallet) and
    `parseInt(s)` on a decimal string. */
module Numerals {

  /** The lower-case digit JavaScript prints for a digit value below 16. */
  function DigitChar(d: nat): (c: char)
    requires d < 16
    ensures DigitValue(c) == d
  {
    if d < 10 then ('0' as int + d) as char else ('a' as int + d - 10) as char
  }

  /** The value of a digit character; 16 for anything that is not a lower-case digit. */
  function DigitValue(c: char): (d: nat)
    ensures d <= 16
  {
    if '0' <= c <= '9' then c as int - '0' as int
    else if 'a' <= c <= 'f' then c as int - 'a' as int + 10
    else 16
  }

  /** Every character of `s` is a digit of base `base`. */
  predicate IsNumeral(s: string, base: nat) {
    forall i :: 0 <= i < |s| ==> DigitValue(s[i]) < base
  }

  /** `n.toString(base)`: the shortest digit string, most significant digit first. */
  function ToBase(n: nat, base: nat): (r: string)
    requires 2 <= base <= 16
    ensures r != [] && IsNumeral(r, base)
    ensures r[0] == '0' ==> n == 0 && r == "0"
    decreases n
  {
    if n < base then [DigitChar(n)]
    else
      DivideByBase(n, base);
      ToBase(n / base, base) + [DigitChar(n % base)]
  }

  /** Euclidean division by the base, for a number of at least two digits. */
  lemma DivideByBase(n: nat, base: nat)
    requires 2 <= base <= n
    ensures 1 <= n / base < n && n % base < base && n / base * base + n % base == n
  {
  }

  /** The value of a digit string: `parseInt(s, base)` on a string of digits only. */
  function FromBase(s: string, base: nat): nat
    requires IsNumeral(s, base)
  {
    if s == [] then 0 else FromBase(s[..|s| - 1], base) * base + DigitValue(s[|s| - 1])
  }

  /** Reading back what `ToBase` printed gives the number: the printed form loses nothing. */
  lemma {:induction false} FromBaseToBase(n: nat, base: nat)
    requires 2 <= base <= 16
    ensures FromBase(ToBase(n, base), base) == n
    decreases n
  {
    var r := ToBase(n, base);
    if n < base {
      assert r[..0] == [];
    } else {
      DivideByBase(n, base);
      var p := ToBase(n / base, base);
      assert r == p + [DigitChar(n % base)];
      assert r[..|r| - 1] == p;
      FromBaseToBase(n / base, base);
    }
  }

  /** Two numbers print alike only if they are equal. */
  lemma ToBaseInjective(n: nat, m: nat, base: nat)
    requires 2 <= base <= 16
    ensures ToBase(n, base) == ToBase(m, base) <==> n == m
  {
    FromBaseToBase(n, base);
    FromBaseToBase(m, base);
  }

  /** `n.toString()`. */
  function Decimal(n: nat): string {
    ToBase(n, 10)
  }

  /** `n.toString(16)`. */
  function Hex(n: nat): string {
    ToBase(n, 16)
  }

  /** `parseInt(s)` for a string of decimal digits. */
  function ParseDecimal(s: string): nat
    requires IsNumeral(s, 10)
  {
    FromBase(s, 10)
  }

  /** Decimal text and its value determine each other. */
  lemma DecimalRoundTrip(n: nat)
    ensures IsNumeral(Decimal(n), 10) && ParseDecimal(Decimal(n)) == n
  {
    FromBaseToBase(n, 10);
  }
}
