/** currency.go: the kinds of currency an account holds, and their names. */
module Currencies {

  /** `type Currency int`. */
  newtype Currency = x: int | -0x8000_0000_0000_0000 <= x <= 0x7fff_ffff_ffff_ffff

  /** The `iota` constants. */
  const Dollars: Currency := 0
  const Apples: Currency := 1

  /**
   * `Currency.String()`: the two declared currencies have their own names and
   * every other value is "unknown", so no value is left without a name.
   */
  function String(c: Currency): (name: string)
    ensures name == "dollars" <==> c == Dollars
    ensures name == "apples" <==> c == Apples
    ensures name == "unknown" <==> c != Dollars && c != Apples
  {
    match c
    case 0 => "dollars"
    case 1 => "apples"
    case _ => "unknown"
  }
}
