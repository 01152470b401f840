/** Facts about products of reals, each small enough for the solver's non-linear reasoning. */
module Arithmetic {

  lemma ProductPositive(a: real, b: real, z: real)
    requires a > 0.0 && b > 0.0 && z == a * b
    ensures z > 0.0
  {}
}
