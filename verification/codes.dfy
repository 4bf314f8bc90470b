/** Nucleotides and their 2-bit codes.

    The packing layer stores every nucleotide as a 2-bit code chosen so that
    the exclusive or of two codes tells the kind of substitution: 00 for equal
    bases, 01 for a transition, 10 or 11 for a transversion. */
module Codes {

  /** One 2-bit block of a symbol or unknown-mask register. */
  type Code = bv2

  datatype Base = A | C | G | T

  /** The code table: A = 00, C = 11, G = 01, T = 10. */
  function Encode(b: Base): Code
  {
    match b
    case A => 0
    case C => 3
    case G => 1
    case T => 2
  }

  /** The base a code stands for; every 2-bit code stands for one base. */
  function Decode(c: Code): (b: Base)
    ensures Encode(b) == c
  {
    if c == 0 then A else if c == 3 then C else if c == 1 then G else T
  }

  predicate IsPurine(b: Base)
  {
    b == A || b == G
  }

  /** Kind of change between two bases: a transition exchanges two purines
      or two pyrimidines, a transversion a purine and a pyrimidine. */
  datatype Change = Same | Transition | Transversion

  function ChangeOf(x: Base, y: Base): Change
  {
    if x == y then Same
    else if IsPurine(x) == IsPurine(y) then Transition
    else Transversion
  }

  /** The exclusive or of two codes, read as the change it indicates: 00
      exactly for equal bases, 01 exactly for transitions (A/G and C/T), and
      the high bit set exactly for transversions. */
  function CodeXor(x: Base, y: Base): (d: Code)
    ensures d == 0 <==> ChangeOf(x, y) == Same
    ensures d == 1 <==> ChangeOf(x, y) == Transition
    ensures d >> 1 == 1 <==> ChangeOf(x, y) == Transversion
  {
    Encode(x) ^ Encode(y)
  }
}
