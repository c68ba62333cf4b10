/** Arithmetic on 32-bit unsigned words. */
module Words {

  /** Number of values of a uint32_t. */
  const WORD: nat := 0x1_0000_0000

  /** `x--` on a uint32_t. */
  function Dec32(x: nat): nat {
    if x == 0 then WORD - 1 else x - 1
  }

  /** The value of an unsigned 32-bit counter that has counted to n. */
  function Wrapped(n: nat): nat {
    n % WORD
  }

  /** An unsigned 32-bit increment. */
  function Inc32(x: nat): nat {
    (x + 1) % WORD
  }

  lemma IncWrapped(n: nat)
    ensures Inc32(Wrapped(n)) == Wrapped(n + 1)
  {
  }
}
