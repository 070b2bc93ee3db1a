/** The optional values of the program: Kotlin's nullable types (`T?`). */
module Wrappers {

  datatype Option<+T> = None | Some(value: T) {

    /** Kotlin's `x ?: default`. */
    function GetOr(default: T): T {
      match this
      case Some(v) => v
      case None => default
    }
  }

  /**
   * A Kotlin `Float` quotient kept exact: a numerator over a denominator.
   * The program only ever divides two `Int`s and converts the quotient, so
   * nothing is lost by keeping the two integers.
   */
  datatype Fraction = Fraction(num: int, den: int)
}
