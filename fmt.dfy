/** Rust's `format!` rendering of unsigned integers: `{}` is decimal and `{:x}`
    is lower-case hexadecimal, both without leading zeros. */
module Fmt {

  /** The digit character for `d`: '0'..'9' then 'a'..'f'. */
  function Digit(d: nat): (c: char)
    requires d < 16
    ensures IsDigit(c, 16) && DigitValue(c) == d
    ensures d < 10 ==> IsDigit(c, 10)
  {
    if d < 10 then ('0' as int + d) as char else ('a' as int + d - 10) as char
  }

  predicate IsDigit(c: char, base: nat) {
    ('0' <= c <= '9' && (c as int) - ('0' as int) < base)
    || ('a' <= c <= 'f' && (c as int) - ('a' as int) + 10 < base)
  }

  function DigitValue(c: char): nat {
    if '0' <= c <= '9' then (c as int) - ('0' as int)
    else if 'a' <= c <= 'f' then (c as int) - ('a' as int) + 10
    else 0
  }

  /** `n` written in `base` (10 or 16 in the sources), most significant digit first. */
  function ToBase(n: nat, base: nat): (s: string)
    requires 2 <= base <= 16
    ensures |s| >= 1
    ensures forall i :: 0 <= i < |s| ==> IsDigit(s[i], base)
    ensures s[0] == '0' ==> n == 0
  {
    if n < base then [Digit(n)]
    else
      DivFacts(n, base);
      ToBase(n / base, base) + [Digit(n % base)]
  }

  lemma DivFacts(n: nat, base: nat)
    requires 2 <= base <= n
    ensures 1 <= n / base < n && n % base < base
    ensures n == (n / base) * base + n % base
  {
    var q, r := n / base, n % base;
    assert n == q * base + r;
    var k: nat := base - 2;
    assert q * base == q * 2 + q * k;
    assert q * k >= 0;
  }

  /** The number a string of digits in `base` denotes. */
  function Parse(s: string, base: nat): nat {
    if s == [] then 0 else Parse(s[..|s| - 1], base) * base + DigitValue(s[|s| - 1])
  }

  /** Formatting is injective: the digits determine the number. */
  lemma {:induction false} ParseToBase(n: nat, base: nat)
    requires 2 <= base <= 16
    ensures Parse(ToBase(n, base), base) == n
  {
    var s := ToBase(n, base);
    if n >= base {
      DivFacts(n, base);
      ParseToBase(n / base, base);
      assert s[..|s| - 1] == ToBase(n / base, base);
    }
  }

  /** `format!("{}", n)`. */
  function Decimal(n: nat): string {
    ToBase(n, 10)
  }

  /** `format!("{:x}", n)`. */
  function Hex(n: nat): string {
    ToBase(n, 16)
  }
}
