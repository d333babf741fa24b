/**
  The boolean functions the gates compute. Each one is stated against an
  independent reading of a signal as the digit 0 or 1, so that the truth
  table of a gate is fixed by arithmetic rather than by its own body.
 */
module Logic {

  /** A signal read as a binary digit. */
  function Bit(b: bool): (d: nat)
    ensures d <= 1
    ensures d == 1 <==> b
  {
    if b then 1 else 0
  }

  /** NotGate: the output is 1 exactly when the input is 0. */
  function Not(a: bool): (r: bool)
    ensures Bit(r) == 1 - Bit(a)
  {
    !a
  }

  /** AndGate: the product of the two digits. */
  function And(a: bool, b: bool): (r: bool)
    ensures Bit(r) == Bit(a) * Bit(b)
  {
    a && b
  }

  /** OrGate: the digits' sum less their product (inclusive or). */
  function Or(a: bool, b: bool): (r: bool)
    ensures Bit(r) == Bit(a) + Bit(b) - Bit(a) * Bit(b)
  {
    a || b
  }

  /** XorGate: the sum of the two digits modulo 2. */
  function Xor(a: bool, b: bool): (r: bool)
    ensures Bit(r) == (Bit(a) + Bit(b)) % 2
  {
    a != b
  }

  /** What a NandGate is meant to compute: 1 less the product. */
  function Nand(a: bool, b: bool): (r: bool)
    ensures Bit(r) == 1 - Bit(a) * Bit(b)
  {
    !(a && b)
  }

  /** What a NorGate is meant to compute: 1 exactly when both digits are 0. */
  function Nor(a: bool, b: bool): (r: bool)
    ensures Bit(r) == (1 - Bit(a)) * (1 - Bit(b))
  {
    !(a || b)
  }

  /** What an NxorGate is meant to compute: 1 exactly when the digits agree. */
  function Nxor(a: bool, b: bool): (r: bool)
    ensures Bit(r) == 1 - (Bit(a) + Bit(b)) % 2
    ensures r <==> a == b
  {
    !(a != b)
  }
}
