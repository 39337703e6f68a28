/**
 * Initial-condition files: the file name of a variable's snapshot and the
 * halo-stripped interior of its padded 3-D field.
 */
module Output {
  import opened Slices
  import opened Fields

  /** Extension of an initial/restart field file (iteration 0). */
  const Extension: string := ".0000000"

  /** A binary file written by the model: its path and the field it holds. */
  datatype OutputFile = OutputFile(path: string, data: Field)

  /**
   * `{output_dir}/{name}.0000000`, or `{output_dir}/{name}_{suffix}.0000000`
   * when a suffix is given.
   */
  function OutputPath(outputDir: string, name: string, suffix: string): (p: string)
    ensures |p| == |outputDir| + 1 + |name| + (if suffix == "" then 0 else 1 + |suffix|) + |Extension|
    ensures p[..|outputDir| + 1 + |name|] == outputDir + "/" + name
    ensures p[|p| - |Extension|..] == Extension
    ensures suffix != "" ==> p[|outputDir| + 1 + |name|..|p| - |Extension|] == "_" + suffix
  {
    if suffix == "" then outputDir + "/" + name + Extension
    else outputDir + "/" + name + "_" + suffix + Extension
  }

  /**
   * With the directory and suffix fixed, distinct variables get distinct
   * snapshot files, so no variable's initial field overwrites another's.
   */
  lemma {:induction false} OutputPathInjective(outputDir: string, suffix: string, a: string, b: string)
    requires OutputPath(outputDir, a, suffix) == OutputPath(outputDir, b, suffix)
    ensures a == b
  {
    var pa, pb := OutputPath(outputDir, a, suffix), OutputPath(outputDir, b, suffix);
    var tail := if suffix == "" then Extension else "_" + suffix + Extension;
    assert pa == outputDir + "/" + a + tail;
    assert pb == outputDir + "/" + b + tail;
    assert |a| == |b|;
    assert a == pa[|outputDir| + 1..|outputDir| + 1 + |a|];
    assert b == pb[|outputDir| + 1..|outputDir| + 1 + |b|];
  }

  /** The horizontal slice `n_pad:-n_pad` exactly as the source writes it. */
  function HaloSliceAsWritten(nPad: nat): Slice {
    Slice(Some(nPad), Some(-(nPad as int)))
  }

  /** `n_pad:-n_pad or None`: drops `n_pad` cells at each end, also when `n_pad` is 0. */
  function HaloSlice(nPad: nat): Slice {
    Slice(Some(nPad), if nPad == 0 then None else Some(-(nPad as int)))
  }

  /** `fld[:, n_pad:-n_pad, n_pad:-n_pad]`, as written in the source. */
  function InteriorAsWritten(fld: Field, nPad: nat): Field {
    Sub(fld, Box(All, HaloSliceAsWritten(nPad), HaloSliceAsWritten(nPad)))
  }

  /** The interior of a padded field, dropping `n_pad` halo cells on every horizontal side. */
  function Interior(fld: Field, nPad: nat): Field {
    Sub(fld, Box(All, HaloSlice(nPad), HaloSlice(nPad)))
  }

  /**
   * The interior keeps every level and the horizontal indices
   * `n_pad .. size - n_pad - 1` on both axes: its shape is
   * `(nk, nj - 2 n_pad, ni - 2 n_pad)` and element `(k, j, i)` is padded
   * element `(k, j + n_pad, i + n_pad)`.
   */
  lemma InteriorAt(fld: Field, nk: nat, nj: nat, ni: nat, nPad: nat)
    requires IsBox(fld, nk, nj, ni)
    requires 2 * nPad <= nj && 2 * nPad <= ni
    ensures IsBox(Interior(fld, nPad), nk, nj - 2 * nPad, ni - 2 * nPad)
    ensures forall k, j, i :: 0 <= k < nk && 0 <= j < nj - 2 * nPad && 0 <= i < ni - 2 * nPad ==>
              Interior(fld, nPad)[k][j][i] == fld[k][j + nPad][i + nPad]
  {
    var b := Box(All, HaloSlice(nPad), HaloSlice(nPad));
    assert Range(b.j, nj) == (nPad, nj - nPad);
    assert Range(b.i, ni) == (nPad, ni - nPad);
    SubAt(fld, b, nk, nj, ni);
  }

  /** Wherever there is a halo the source's slice is the intended one. */
  lemma InteriorAsWrittenWithHalo(fld: Field, nPad: nat)
    requires nPad > 0
    ensures InteriorAsWritten(fld, nPad) == Interior(fld, nPad)
  {
  }

  /**
   * Without a halo (`n_pad == 0`) the source's slice `0:-0` is `0:0`: every
   * level of the written snapshot is empty, although the whole field is the
   * interior.
   */
  lemma InteriorAsWrittenWithoutHalo(fld: Field, nk: nat, nj: nat, ni: nat)
    requires IsBox(fld, nk, nj, ni) && nj > 0 && ni > 0
    ensures IsBox(InteriorAsWritten(fld, 0), nk, 0, 0)
    ensures IsBox(Interior(fld, 0), nk, nj, ni)
  {
    SubAt(fld, Box(All, HaloSliceAsWritten(0), HaloSliceAsWritten(0)), nk, nj, ni);
    InteriorAt(fld, nk, nj, ni, 0);
  }

  /**
   * `save_3d_field`: the snapshot file of a padded field, holding its interior
   * in level-major, then row-major order. It keeps the intended interior also
   * when `n_pad == 0`, where the slice as written keeps no cell.
   */
  function SaveField(fld: Field, name: string, suffix: string, nPad: nat, outputDir: string): (f: OutputFile)
    ensures f.path == OutputPath(outputDir, name, suffix)
    ensures forall nk: nat, nj: nat, ni: nat ::
      IsBox(fld, nk, nj, ni) && 2 * nPad <= nj && 2 * nPad <= ni ==> StripsHalo(fld, f.data, nk, nj, ni, nPad)
    ensures nPad > 0 ==> f.data == InteriorAsWritten(fld, nPad)
  {
    var data := Interior(fld, nPad);
    assert nPad > 0 ==> data == InteriorAsWritten(fld, nPad) by {
      if nPad > 0 { InteriorAsWrittenWithHalo(fld, nPad); }
    }
    forall nk: nat, nj: nat, ni: nat | IsBox(fld, nk, nj, ni) && 2 * nPad <= nj && 2 * nPad <= ni
      ensures StripsHalo(fld, data, nk, nj, ni, nPad)
    {
      InteriorAt(fld, nk, nj, ni, nPad);
    }
    OutputFile(OutputPath(outputDir, name, suffix), data)
  }

  /** `data` is the padded field `fld` of shape `(nk, nj, ni)` without its `nPad` halo. */
  predicate StripsHalo(fld: Field, data: Field, nk: nat, nj: nat, ni: nat, nPad: nat)
    requires IsBox(fld, nk, nj, ni) && 2 * nPad <= nj && 2 * nPad <= ni
  {
    && IsBox(data, nk, nj - 2 * nPad, ni - 2 * nPad)
    && forall k, j, i :: 0 <= k < nk && 0 <= j < nj - 2 * nPad && 0 <= i < ni - 2 * nPad ==>
         data[k][j][i] == fld[k][j + nPad][i + nPad]
  }
}
