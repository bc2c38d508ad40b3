/** The C integer conversion the SPIM accessors rely on for their `uint8_t`
    parameters (ISO/IEC 9899:2011, section 6.3.1.3: paragraph 1 for the
    widening into a register, paragraph 2 for the narrowing back). */
module CTypes {

  /** A `uint8_t` assigned to a `uint32_t` register is zero-extended: the
      value is representable, so the register holds the same number
      (paragraph 1), at most 255. */
  function ZeroExtend(b: bv8): (x: bv32)
    ensures x as int == b as int
    ensures x <= 0xFF
  {
    b as bv32
  }

  /** Truncating the register back to eight bits, reduction modulo 256
      (paragraph 2), gives the byte again. */
  lemma ZeroExtendTruncate(b: bv8)
    ensures (ZeroExtend(b) & 0xFF) as bv8 == b
  {
  }
}
