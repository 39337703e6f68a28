/**
 * Horizontal interpolation-factor tables at the three staggered horizontal
 * locations of the LES grid, and the rule that picks the table for a field.
 */
module Factors {

  /**
   * Bilinear interpolation factors for one staggered location: for every target
   * point the lower-left source indices (`il`, `jl`) and the fractional weights
   * (`fx`, `fy`). Built by a kernel that is not part of this model.
   */
  datatype FactorTable = FactorTable(
    il: seq<seq<int>>, jl: seq<seq<int>>,
    fx: seq<seq<real>>, fy: seq<seq<real>>)

  /**
   * The three tables of a run, at u, v and scalar locations. Interpolation is
   * horizontal only, so `w` shares the scalar table.
   */
  datatype InterpolationFactors = InterpolationFactors(u: FactorTable, v: FactorTable, s: FactorTable)

  /**
   * The table for field `name`: `u` and `v` have their own staggered
   * locations, every other name (including `w` and `s`) lies at the scalar
   * location.
   */
  function GetInterpolationFactors(factors: InterpolationFactors, name: string): (r: FactorTable)
    ensures name == "u" ==> r == factors.u
    ensures name == "v" ==> r == factors.v
    ensures name != "u" && name != "v" ==> r == factors.s
  {
    if name == "u" then factors.u
    else if name == "v" then factors.v
    else factors.s
  }

  /**
   * The driver asks for the scalar table with the literal name `s`; for any
   * field that is not a horizontal wind component this is the table the name
   * itself selects, so every scalar is interpolated at its own location.
   */
  lemma ScalarTableAgreesWithName(factors: InterpolationFactors, name: string)
    requires name != "u" && name != "v"
    ensures GetInterpolationFactors(factors, name) == GetInterpolationFactors(factors, "s")
  {
  }
}
