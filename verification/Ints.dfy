/** The source's 32-bit integers. */
module Ints {
  /** The value a 32-bit int is left with. */
  function Int32(v: int): int {
    (v + 0x8000_0000) % 0x1_0000_0000 - 0x8000_0000
  }

  /** It fits, and differs from the value by a multiple of 2^32. */
  lemma {:induction false} Int32IsCongruent(v: int)
    ensures IsInt32(Int32(v)) && (v - Int32(v)) % 0x1_0000_0000 == 0
  {
    var w := v + 0x8000_0000;
    assert v - Int32(v) == 0x1_0000_0000 * (w / 0x1_0000_0000);
  }

  predicate IsInt32(v: int) {
    -0x8000_0000 <= v < 0x8000_0000
  }
}
