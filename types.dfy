/** The fixed-width integer types of the Rust sources, as subsets of `int`,
    and `std::time::Duration`. */
module Types {

  type u8 = x: int | 0 <= x < 0x100
  type u16 = x: int | 0 <= x < 0x1_0000
  type u32 = x: int | 0 <= x < 0x1_0000_0000
  type u64 = x: int | 0 <= x < 0x1_0000_0000_0000_0000
  type i32 = x: int | -0x8000_0000 <= x < 0x8000_0000

  const NANOS_PER_SEC: nat := 1_000_000_000

  /** `std::time::Duration`: whole seconds plus a sub-second part in nanoseconds. */
  datatype Duration = Duration(secs: u64, nanos: nat)
  {
    ghost predicate Valid() { nanos < NANOS_PER_SEC }

    /** `Duration::subsec_micros`: the sub-second part in whole microseconds. */
    function SubsecMicros(): (r: u32)
      requires Valid()
      ensures r < 1_000_000
      ensures r * 1000 <= nanos < (r + 1) * 1000
    {
      nanos / 1000
    }
  }

  /** Rust's `as u8` cast of an unsigned value: keeps the low eight bits. */
  function AsU8(x: nat): (r: u8)
    ensures x < 0x100 ==> r == x
    ensures exists q: nat {:trigger q * 0x100} :: x == q * 0x100 + r
  {
    var q := x / 0x100;
    assert x == q * 0x100 + x % 0x100;
    x % 0x100
  }

  function Min(a: int, b: int): (r: int)
    ensures r <= a && r <= b && (r == a || r == b)
  {
    if a <= b then a else b
  }
}
