/**
 * Three-dimensional fields indexed (level, j, i), the shape of the numpy buffers
 * the pipeline allocates, and numpy's basic slicing of such a field.
 */
module Fields {
  import opened Slices

  /** A field for one variable at one time, indexed `f[k][j][i]`. */
  type Field = seq<seq<seq<real>>>

  /** `f` has shape `(nk, nj, ni)`. */
  predicate IsBox(f: Field, nk: nat, nj: nat, ni: nat) {
    && |f| == nk
    && (forall k :: 0 <= k < nk ==> |f[k]| == nj)
    && (forall k, j :: 0 <= k < nk && 0 <= j < nj ==> |f[k][j]| == ni)
  }

  /** `r` has the (possibly ragged) shape of `f`. */
  predicate SameShape(f: Field, r: Field) {
    && |r| == |f|
    && (forall k :: 0 <= k < |f| ==> |r[k]| == |f[k]|)
    && (forall k, j :: 0 <= k < |f| && 0 <= j < |f[k]| ==> |r[k][j]| == |f[k][j]|)
  }

  /**
   * A freshly allocated buffer of shape `(nk, nj, ni)` that a kernel fills
   * completely, leaving `g(k, j, i)` in every cell.
   */
  function Tabulate(nk: nat, nj: nat, ni: nat, g: (int, int, int) -> real): (f: Field)
    ensures IsBox(f, nk, nj, ni)
    ensures forall k, j, i :: 0 <= k < nk && 0 <= j < nj && 0 <= i < ni ==> f[k][j][i] == g(k, j, i)
  {
    seq(nk, k => seq(nj, j => seq(ni, i => g(k, j, i))))
  }

  /**
   * The buffer `f` after a kernel has overwritten it in place, leaving `g(k, j, i)`
   * in every cell; its shape does not change.
   */
  function Overwrite(f: Field, g: (int, int, int) -> real): (r: Field)
    ensures SameShape(f, r)
    ensures forall k, j, i :: 0 <= k < |f| && 0 <= j < |f[k]| && 0 <= i < |f[k][j]| ==> r[k][j][i] == g(k, j, i)
  {
    seq(|f|, k requires 0 <= k < |f| =>
      seq(|f[k]|, j requires 0 <= j < |f[k]| =>
        seq(|f[k][j]|, i => g(k, j, i))))
  }

  lemma SameShapeKeepsBox(f: Field, r: Field, nk: nat, nj: nat, ni: nat)
    requires IsBox(f, nk, nj, ni) && SameShape(f, r)
    ensures IsBox(r, nk, nj, ni)
  {
  }

  /** A numpy index tuple of three basic slices, `fld[sk, sj, si]`. */
  datatype Box = Box(k: Slice, j: Slice, i: Slice)

  /** `f[b.k, b.j, b.i]` on a field. */
  function Sub(f: Field, b: Box): Field {
    var planes := Take(f, b.k);
    seq(|planes|, k requires 0 <= k < |planes| =>
      var rows := Take(planes[k], b.j);
      seq(|rows|, j requires 0 <= j < |rows| => Take(rows[j], b.i)))
  }

  /**
   * On a field of shape `(nk, nj, ni)` a slice keeps exactly the selected index
   * ranges on each axis: the result has the ranges' extents and element
   * `(k, j, i)` is the element at the ranges' offsets.
   */
  lemma SubAt(f: Field, b: Box, nk: nat, nj: nat, ni: nat)
    requires IsBox(f, nk, nj, ni)
    ensures var rk, rj, ri := Range(b.k, nk), Range(b.j, nj), Range(b.i, ni);
      && IsBox(Sub(f, b), rk.1 - rk.0, rj.1 - rj.0, ri.1 - ri.0)
      && forall k, j, i :: 0 <= k < rk.1 - rk.0 && 0 <= j < rj.1 - rj.0 && 0 <= i < ri.1 - ri.0 ==>
           Sub(f, b)[k][j][i] == f[rk.0 + k][rj.0 + j][ri.0 + i]
  {
    var rk := Range(b.k, nk);
    forall k | 0 <= k < rk.1 - rk.0 {
      SubLevelAt(f, b, nk, nj, ni, k);
    }
  }

  /** Level k of `f[b.k, b.j, b.i]` is level `lo + k` of `f` cut to the selected rows and columns. */
  lemma SubLevelAt(f: Field, b: Box, nk: nat, nj: nat, ni: nat, k: nat)
    requires IsBox(f, nk, nj, ni)
    requires k < Range(b.k, nk).1 - Range(b.k, nk).0
    ensures var rk, rj, ri := Range(b.k, nk), Range(b.j, nj), Range(b.i, ni);
      && |Sub(f, b)| == rk.1 - rk.0
      && |Sub(f, b)[k]| == rj.1 - rj.0
      && (forall j :: 0 <= j < rj.1 - rj.0 ==> |Sub(f, b)[k][j]| == ri.1 - ri.0)
      && forall j, i :: 0 <= j < rj.1 - rj.0 && 0 <= i < ri.1 - ri.0 ==>
           Sub(f, b)[k][j][i] == f[rk.0 + k][rj.0 + j][ri.0 + i]
  {
    var rk := Range(b.k, nk);
    var planes := Take(f, b.k);
    assert planes[k] == f[rk.0 + k];
    SubPlaneAt(f[rk.0 + k], b, nj, ni, Sub(f, b)[k]);
  }

  /** One level of `f[b.k, b.j, b.i]`: the selected rows, each cut to the selected columns. */
  function SubPlane(plane: seq<seq<real>>, b: Box): seq<seq<real>> {
    var rows := Take(plane, b.j);
    seq(|rows|, j requires 0 <= j < |rows| => Take(rows[j], b.i))
  }

  lemma SubPlaneAt(plane: seq<seq<real>>, b: Box, nj: nat, ni: nat, sp: seq<seq<real>>)
    requires |plane| == nj && forall j :: 0 <= j < nj ==> |plane[j]| == ni
    requires sp == SubPlane(plane, b)
    ensures var rj, ri := Range(b.j, nj), Range(b.i, ni);
      && |sp| == rj.1 - rj.0
      && (forall j :: 0 <= j < rj.1 - rj.0 ==> |sp[j]| == ri.1 - ri.0)
      && forall j, i :: 0 <= j < rj.1 - rj.0 && 0 <= i < ri.1 - ri.0 ==> sp[j][i] == plane[rj.0 + j][ri.0 + i]
  {
    var rows := Take(plane, b.j);
    var rj := Range(b.j, nj);
    forall j | 0 <= j < rj.1 - rj.0
      ensures rows[j] == plane[rj.0 + j]
    {
    }
  }
}
