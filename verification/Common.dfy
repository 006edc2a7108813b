/** Small value types shared by every model in this project. */
module Common {

  datatype Option<+T> = None | Some(value: T)

  const U64_MAX: nat := 0xFFFF_FFFF_FFFF_FFFF
  const I64_MAX: nat := 0x7FFF_FFFF_FFFF_FFFF

  type U64 = x: int | 0 <= x <= U64_MAX

  /** `u64::saturating_add`. */
  function SaturatingAdd(a: nat, b: nat): (r: U64) {
    if a + b > U64_MAX then U64_MAX else a + b
  }

  function Min(a: int, b: int): int {
    if a <= b then a else b
  }

  function Max(a: int, b: int): int {
    if a <= b then b else a
  }

  /** The multiples of `n` are at least `n` apart. */
  lemma {:induction false} MultiplesAreApart(a: nat, b: nat, n: nat)
    ensures a < b ==> a * n + n <= b * n
    decreases b
  {
    if a < b {
      MultiplesAreApart(a, b - 1, n);
      assert b * n == (b - 1) * n + n;
    }
  }
}
