/** Vocabulary shared by every module: simulated time, positive numbers, options. */
module Base {

  /** Microseconds of simulated time (`include/neurostream/time.hpp`). */
  type Time = int

  type pos = x: int | 0 < x witness 1

  /** The values of a `std::uint32_t`. */
  type Word = n: nat | n < 0x1_0000_0000

  datatype Option<+T> = None | Some(value: T)

  function Min(a: int, b: int): int {
    if a <= b then a else b
  }

  function Max(a: int, b: int): int {
    if a <= b then b else a
  }

  function RMin(a: real, b: real): real {
    if a <= b then a else b
  }

  /** Reinterpretation of an unsigned quantity as a `std::uint32_t`. */
  function U32(n: int): nat {
    n % 0x1_0000_0000
  }

  function CeilDiv(n: nat, d: pos): nat {
    (n + d - 1) / d
  }

  lemma DivPositive(n: nat, d: pos)
    ensures n / d > 0 <==> n >= d
  {
  }
}
