/**
 * The numerical kernels the pipelines call, as abstract operations. Their code
 * is not part of this model: each kernel is a parameter, and a kernel that
 * overwrites a buffer is described by the value it leaves in every cell as a
 * function of what it reads. The buffer's shape is therefore kept by
 * construction, which is all the pipelines rely on.
 */
module Kernels {
  import opened Fields
  import opened Factors

  /** Padded horizontal extents of the LES domain and its halo width. */
  datatype Domain = Domain(itot: nat, jtot: nat, nPad: nat)

  /**
   * The LES vertical grid and base state: full and half level heights, full
   * level spacing and its inverse, densities at full and half levels.
   */
  datatype Grid = Grid(
    z: seq<real>, zh: seq<real>, dz: seq<real>, dzi: seq<real>,
    rho: seq<real>, rhoh: seq<real>)

  /** `check_divergence`'s result: the largest residual and where it occurs. */
  datatype DivergenceReport = DivergenceReport(divMax: real, i: int, j: int, k: int)

  /**
   * One value per kernel; the trailing `(k, j, i)` arguments select the cell
   * whose new value is returned.
   * - `interpolate(fld_era, ip, z_target, z_era, k, j, i)`: `interpolate_rect_to_curv`
   * - `gaussianFilter(fld, sigma_n, k, j, i)`: `gaussian_filter_wrapper`
   * - `blendW(w, zh, zmax, k, j, i)`: `blend_w_to_zero_at_sfc`
   * - `correctU`, `correctV(u, v, w, grid, domain, k, j, i)`: `correct_div_uv`
   * - `calcW(w, u, v, grid, domain, k, j, i)`: `calc_w_from_uv`
   * - `checkDivergence(u, v, w, grid, domain)`: `check_divergence`
   */
  datatype Kernels = Kernels(
    interpolate: (Field, FactorTable, seq<real>, Field, int, int, int) -> real,
    gaussianFilter: (Field, int, int, int, int) -> real,
    blendW: (Field, seq<real>, real, int, int, int) -> real,
    correctU: (Field, Field, Field, Grid, Domain, int, int, int) -> real,
    correctV: (Field, Field, Field, Grid, Domain, int, int, int) -> real,
    calcW: (Field, Field, Field, Grid, Domain, int, int, int) -> real,
    checkDivergence: (Field, Field, Field, Grid, Domain) -> DivergenceReport)

  /** Height (in metres) below which w is blended linearly to zero at the surface. */
  const BlendHeight: real := 500.0

  /** A fresh `(|zTarget|, jtot, itot)` buffer filled by `interpolate_rect_to_curv`. */
  function Interpolate(kern: Kernels, fldEra: Field, ip: FactorTable, zTarget: seq<real>, zEra: Field, domain: Domain): (f: Field)
    ensures IsBox(f, |zTarget|, domain.jtot, domain.itot)
  {
    Tabulate(|zTarget|, domain.jtot, domain.itot, (k, j, i) => kern.interpolate(fldEra, ip, zTarget, zEra, k, j, i))
  }

  /** `gaussian_filter_wrapper(fld, sigma_n)`, in place. */
  function GaussianFilter(kern: Kernels, fld: Field, sigmaN: int): (r: Field)
    ensures SameShape(fld, r)
  {
    Overwrite(fld, (k, j, i) => kern.gaussianFilter(fld, sigmaN, k, j, i))
  }

  /** `blend_w_to_zero_at_sfc(w, zh, zmax=500)`, in place. */
  function BlendW(kern: Kernels, w: Field, zh: seq<real>): (r: Field)
    ensures SameShape(w, r)
  {
    Overwrite(w, (k, j, i) => kern.blendW(w, zh, BlendHeight, k, j, i))
  }

  /** `correct_div_uv(u, v, w, ...)`: the new u and v, both from the old u and v. */
  function CorrectDivUV(kern: Kernels, u: Field, v: Field, w: Field, grid: Grid, domain: Domain): (r: (Field, Field))
    ensures SameShape(u, r.0) && SameShape(v, r.1)
  {
    (Overwrite(u, (k, j, i) => kern.correctU(u, v, w, grid, domain, k, j, i)),
     Overwrite(v, (k, j, i) => kern.correctV(u, v, w, grid, domain, k, j, i)))
  }

  /** `calc_w_from_uv(w, u, v, ...)`, in place on w. */
  function CalcW(kern: Kernels, w: Field, u: Field, v: Field, grid: Grid, domain: Domain): (r: Field)
    ensures SameShape(w, r)
  {
    Overwrite(w, (k, j, i) => kern.calcW(w, u, v, grid, domain, k, j, i))
  }
}
