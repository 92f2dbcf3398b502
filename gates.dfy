/**
 * The seven logic gates (src/computer/gates.py; solutions/gates.py holds the
 * same expressions line for line).
 *
 * The gates take Python ints, not booleans: AND and OR test for equality
 * with 1, NOT tests for equality with 0. So on inputs other than 0 and 1,
 * AND/OR read the input as 0 while NOT reads it as 1.
 */
module Gates {
  import opened Bits

  function Not(a: int): int { if a == 0 then 1 else 0 }

  function And(a: int, b: int): int { if a == 1 && b == 1 then 1 else 0 }

  function Or(a: int, b: int): int { if a == 1 || b == 1 then 1 else 0 }

  function Nand(a: int, b: int): int { Not(And(a, b)) }

  function Nor(a: int, b: int): int { Not(Or(a, b)) }

  function Xor(a: int, b: int): int { Or(And(a, Not(b)), And(Not(a), b)) }

  function Xnor(a: int, b: int): int { Not(Xor(a, b)) }

  /** Every gate outputs a bit, whatever ints it is given. */
  lemma GatesOutputBits(a: int, b: int)
    ensures IsBit(Not(a)) && IsBit(And(a, b)) && IsBit(Or(a, b))
    ensures IsBit(Nand(a, b)) && IsBit(Nor(a, b)) && IsBit(Xor(a, b)) && IsBit(Xnor(a, b))
  {
  }

  /** On bits, NOT, AND and OR are the boolean operations. */
  lemma TruthTables(a: int, b: int)
    requires IsBit(a) && IsBit(b)
    ensures Not(a) == 1 - a
    ensures And(a, b) == a * b
    ensures Or(a, b) == a + b - a * b
  {
  }

  /** Outside {0, 1}: AND and OR treat the input as 0, NOT treats it as 1. */
  lemma NonBitInputs(a: int, b: int)
    requires !IsBit(a)
    ensures Not(a) == 0
    ensures And(a, b) == 0 && And(b, a) == 0
    ensures Or(a, b) == Or(0, b) && Or(b, a) == Or(b, 0)
  {
  }

  /** NOT is an involution on bits (and only there: NOT(NOT(2)) is 1). */
  lemma NotInvolution(a: int)
    ensures Not(Not(a)) == a <==> IsBit(a)
  {
  }

  lemma Commutative(a: int, b: int)
    ensures And(a, b) == And(b, a) && Or(a, b) == Or(b, a)
    ensures Nand(a, b) == Nand(b, a) && Nor(a, b) == Nor(b, a)
    ensures Xor(a, b) == Xor(b, a) && Xnor(a, b) == Xnor(b, a)
  {
  }

  lemma DeMorgan(a: int, b: int)
    requires IsBit(a) && IsBit(b)
    ensures Nand(a, b) == Or(Not(a), Not(b))
    ensures Nor(a, b) == And(Not(a), Not(b))
  {
  }

  /** XOR is 1 exactly when its bit inputs differ, XNOR exactly when they agree. */
  lemma XorDiffers(a: int, b: int)
    requires IsBit(a) && IsBit(b)
    ensures Xor(a, b) == 1 <==> a != b
    ensures Xnor(a, b) == 1 <==> a == b
  {
  }
}
