/** The alphabet of the link: a buffer holds `char`s, each of which selects one of four
    two-bit symbols, and a measurement yields two bits. */
module Symbols {
  type Byte = x: int | -128 <= x < 128
  type Symbol = x: int | 0 <= x < 4

  datatype Outcome = Outcome(m0: bool, m1: bool)

  /** The symbol a byte selects: 0..3 and '0'..'3' are taken at face value, every other
      byte acts as symbol 0. */
  function SymbolOf(b: Byte): Symbol {
    if 0 <= b < 4 then b else if 48 <= b < 52 then b - 48 else 0
  }

  /** The symbol a pair of measured bits stands for. */
  function Decoded(o: Outcome): Symbol {
    (if o.m0 then 2 else 0) + (if o.m1 then 1 else 0)
  }
}
