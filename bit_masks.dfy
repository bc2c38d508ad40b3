/** Read-modify-write updates of a 32-bit register by a bit mask, as the
    SPIM accessors perform them with `|=` and `&= ~`. */
module BitMasks {

  /** `reg | mask`: every bit of `mask` is set afterwards, every other bit
      keeps its old value. */
  function WithBitsSet(reg: bv32, mask: bv32): (r: bv32)
    ensures r & mask == mask
    ensures r & !mask == reg & !mask
  {
    reg | mask
  }

  /** `reg & ~mask`: no bit of `mask` is set afterwards, every other bit
      keeps its old value. */
  function WithBitsCleared(reg: bv32, mask: bv32): (r: bv32)
    ensures r & mask == 0
    ensures r & !mask == reg & !mask
  {
    reg & !mask
  }

  /** The two properties above determine a register value completely: a
      value that agrees with `reg` outside `mask` and has `mask` all set (or
      all clear) is the result of the update. */
  lemma UpdateIsUnique(reg: bv32, mask: bv32, r: bv32)
    requires r & !mask == reg & !mask
    ensures r & mask == mask ==> r == WithBitsSet(reg, mask)
    ensures r & mask == 0 ==> r == WithBitsCleared(reg, mask)
  {
  }

  /** Setting and then clearing the same mask leaves the bits outside the
      mask as they were and the bits of the mask clear. */
  lemma SetThenClear(reg: bv32, mask: bv32)
    ensures WithBitsCleared(WithBitsSet(reg, mask), mask) == WithBitsCleared(reg, mask)
  {
  }

  /** Setting and then clearing a mask restores the register exactly when
      none of the mask's bits was set before. */
  lemma SetThenClearRestores(reg: bv32, mask: bv32)
    ensures WithBitsCleared(WithBitsSet(reg, mask), mask) == reg <==> reg & mask == 0
  {
  }

  /** A register value and mask for which setting and clearing the mask does
      not give the register back. */
  lemma SetThenClearCounterexample()
    ensures WithBitsCleared(WithBitsSet(1, 1), 1) != 1
  {
  }

  /** Both updates are idempotent. */
  lemma UpdatesIdempotent(reg: bv32, mask: bv32)
    ensures WithBitsSet(WithBitsSet(reg, mask), mask) == WithBitsSet(reg, mask)
    ensures WithBitsCleared(WithBitsCleared(reg, mask), mask) == WithBitsCleared(reg, mask)
  {
  }

  /** `a | b`, for words assembled from parts (the CONFIG word). As a
      function of its own, two words built from the same parts are equal
      without any reasoning about their bits. */
  function Or(a: bv32, b: bv32): bv32
  {
    a | b
  }

  /** The bits of `w` that lie within `mask`, `w & mask`. */
  function Field(w: bv32, mask: bv32): bv32
  {
    w & mask
  }

  /** Every bit of `x` lies within `mask`. */
  predicate Within(x: bv32, mask: bv32)
  {
    x & mask == x
  }

  /** No bit lies in both masks. */
  predicate Disjoint(m: bv32, n: bv32)
  {
    m & n == 0
  }

  /** Three parts, each within its own mask, the masks pairwise disjoint. */
  predicate FieldsLayout(a: bv32, b: bv32, c: bv32, ma: bv32, mb: bv32, mc: bv32)
  {
    Within(a, ma) && Within(b, mb) && Within(c, mc) &&
    Disjoint(ma, mb) && Disjoint(ma, mc) && Disjoint(mb, mc)
  }

  /** With that layout, masking the OR of the parts with one mask gives the
      part within it. */
  lemma FirstField(a: bv32, b: bv32, c: bv32, ma: bv32, mb: bv32, mc: bv32)
    ensures FieldsLayout(a, b, c, ma, mb, mc) ==> Field(Or(a, Or(b, c)), ma) == a
  {
  }

  lemma SecondField(a: bv32, b: bv32, c: bv32, ma: bv32, mb: bv32, mc: bv32)
    ensures FieldsLayout(a, b, c, ma, mb, mc) ==> Field(Or(a, Or(b, c)), mb) == b
  {
  }

  lemma ThirdField(a: bv32, b: bv32, c: bv32, ma: bv32, mb: bv32, mc: bv32)
    ensures FieldsLayout(a, b, c, ma, mb, mc) ==> Field(Or(a, Or(b, c)), mc) == c
  {
  }

  /** `(bool)(w & mask)`: some bit of `mask` is set in `w`. */
  predicate AnyBitsSet(w: bv32, mask: bv32)
  {
    w & mask != 0
  }

  /** `x << n` for a constant bit position `n`, as `n` shifts by one place;
      positions of 32 and more shift every bit out. */
  function ShiftLeft(x: bv32, n: nat): bv32
    decreases n
  {
    if n == 0 then x else ShiftLeft(x << 1, n - 1)
  }

  /** Shifting zero gives zero, at every position. */
  lemma {:induction false} ShiftZero(n: nat)
    ensures ShiftLeft(0, n) == 0
  {
    if n > 0 {
      ShiftZero(n - 1);
    }
  }

  lemma WithinShiftedOnce(x: bv32, m: bv32)
    ensures Within(x, m) ==> Within(x << 1, m << 1)
  {
  }

  /** A value within a mask stays within the mask when both are shifted by
      the same number of places. */
  lemma {:induction false} ShiftWithin(x: bv32, m: bv32, n: nat)
    ensures Within(x, m) ==> Within(ShiftLeft(x, n), ShiftLeft(m, n))
    decreases n
  {
    if n > 0 {
      WithinShiftedOnce(x, m);
      ShiftWithin(x << 1, m << 1, n - 1);
    }
  }

  /** Two different one-bit codes stay different when shifted to a position
      that the bit 1 reaches without being shifted out. */
  lemma OneBitShiftsDiffer(x: bv32, y: bv32, n: nat)
    ensures Within(x, 1) && Within(y, 1) && x != y && ShiftLeft(1, n) != 0 ==>
            ShiftLeft(x, n) != ShiftLeft(y, n)
  {
    ShiftZero(n);
  }
}
