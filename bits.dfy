/**
 * Single-bit operations on a 32-bit register word: bit n of a register
 * belongs to line n, and its mask is `1 << n`.
 *
 * Each fact about masks is stated once here, in a lemma of its own, and
 * the rest of the model uses these lemmas rather than bit-level reasoning.
 */
module Bits {

  /** The mask of bit n. */
  function Mask(n: bv32): bv32
    requires n < 32
  {
    1 << n
  }

  /** Whether bit n of `w` is set (the C test `w & mask`). */
  predicate TestBit(w: bv32, n: bv32)
    requires n < 32
  {
    w & Mask(n) != 0
  }

  /**
   * `a` and `b` agree on every bit except possibly bit n, stated on whole
   * words: masking bit n out of both leaves equal words (`SameExceptAgrees`
   * gives the bit-by-bit reading).
   */
  predicate SameExcept(a: bv32, b: bv32, n: bv32)
    requires n < 32
  {
    a & !Mask(n) == b & !Mask(n)
  }

  /** The read-modify-write `w |= mask` (its meaning: `SetBitSpec`). */
  function SetBit(w: bv32, n: bv32): bv32
    requires n < 32
  {
    w | Mask(n)
  }

  /** The read-modify-write `w &= ~mask` (its meaning: `ClearBitSpec`). */
  function ClearBit(w: bv32, n: bv32): bv32
    requires n < 32
  {
    w & !Mask(n)
  }

  /** `SetBit` sets bit n and keeps every other bit. */
  lemma SetBitSpec(w: bv32, n: bv32)
    requires n < 32
    ensures TestBit(SetBit(w, n), n)
    ensures SameExcept(SetBit(w, n), w, n)
  {
  }

  /** `ClearBit` clears bit n and keeps every other bit. */
  lemma ClearBitSpec(w: bv32, n: bv32)
    requires n < 32
    ensures !TestBit(ClearBit(w, n), n)
    ensures SameExcept(ClearBit(w, n), w, n)
  {
  }

  /** Words that agree outside bit n agree on every bit k other than n. */
  lemma SameExceptAgrees(a: bv32, b: bv32, n: bv32, k: bv32)
    requires n < 32 && k < 32 && k != n
    requires SameExcept(a, b, n)
    ensures TestBit(a, k) == TestBit(b, k)
  {
  }

  lemma OrAfterAndNot(a: bv32, b: bv32)
    ensures (a & !b) | b == a | b
  {
  }

  /** Setting a bit twice is setting it once. */
  lemma SetBitIdempotent(w: bv32, n: bv32)
    requires n < 32
    ensures SetBit(SetBit(w, n), n) == SetBit(w, n)
  {
  }

  /** Clearing a bit twice is clearing it once. */
  lemma ClearBitIdempotent(w: bv32, n: bv32)
    requires n < 32
    ensures ClearBit(ClearBit(w, n), n) == ClearBit(w, n)
  {
  }

  /** Clearing a bit that was just set gives the word with that bit cleared. */
  lemma ClearAfterSet(w: bv32, n: bv32)
    requires n < 32
    ensures ClearBit(SetBit(w, n), n) == ClearBit(w, n)
  {
  }

  /** Setting a bit that was just cleared gives the word with that bit set. */
  lemma SetAfterClear(w: bv32, n: bv32)
    requires n < 32
    ensures SetBit(ClearBit(w, n), n) == SetBit(w, n)
  {
    calc {
      SetBit(ClearBit(w, n), n);
      (w & !Mask(n)) | Mask(n);
      { OrAfterAndNot(w, Mask(n)); }
      w | Mask(n);
    }
  }
}
