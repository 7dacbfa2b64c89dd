/** Facts about products of reals. */
module RealArithmetic {

  lemma TimesNoLess(a: real, b: real, r: real)
    requires a >= b && r >= 0.0
    ensures a * r >= b * r
  {
  }
}
