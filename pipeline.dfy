/**
 * The per-timestep pipelines: `parse_scalar` for one scalar at one time and
 * `parse_momentum` for the coupled wind components at one time. Each runs its
 * kernels on freshly allocated buffers, writes the initial-condition snapshot
 * at t == 0 only, and writes the four boundary bands of its variables into
 * record t of the LBC container.
 */
module Pipeline {
  import opened Slices
  import opened Fields
  import opened Factors
  import opened Output
  import opened Lbc
  import opened Kernels

  /**
   * The boundary slice map: for every key `{group}_{side}` (group `s` for
   * scalars, `u`, `v`, `w` for the wind components) the index tuple that
   * extracts that side's ghost and sponge band from a padded field.
   */
  type SliceMap = map<string, Box>

  /** The slice map has the four sides of `group`. */
  predicate HasSlices(slices: SliceMap, group: string) {
    forall s: Side :: SideKey(group, s) in slices
  }

  /** The container holds record `t` of the four boundary fields of `name`. */
  predicate HasRecord(recs: Records, name: string, t: nat) {
    forall s: Side :: SideKey(name, s) in recs && t < |recs[SideKey(name, s)]|
  }

  /** Writes never add or remove records, so a task finds the records it needs after any other task. */
  lemma ApplyWritesKeepsRecord(recs: Records, ws: seq<Write>, name: string, t: nat)
    requires HasRecord(recs, name, t)
    ensures HasRecord(ApplyWrites(recs, ws), name, t)
  {
  }

  /** Position of a side in `Sides`. */
  function SideIndex(s: Side): (n: nat)
    ensures n < |Sides| && Sides[n] == s
  {
    match s
    case West => 0
    case East => 1
    case South => 2
    case North => 3
  }

  /** The write list has exactly one write to record `r` of `key`: the one at index `n`. */
  lemma {:induction false} LookupSingle(ws: seq<Write>, n: nat, key: string, r: nat)
    requires n < |ws| && ws[n].key == key && ws[n].t == r
    requires forall m :: 0 <= m < |ws| && m != n ==> ws[m].key != key || ws[m].t != r
    ensures Lookup(ws, key, r) == Some(ws[n].slab)
    decreases |ws|
  {
    if n < |ws| - 1 {
      LookupSingle(ws[..|ws| - 1], n, key, r);
    }
  }

  // ---------------------------------------------------------------- scalars

  /**
   * The scalar buffer after interpolation and, when `sigma_n > 0`, the
   * Gaussian filter.
   */
  function ScalarField(kern: Kernels, fldEra: Field, zEra: Field, zLes: seq<real>, ip: FactorTable, sigmaN: int, domain: Domain): (f: Field)
    ensures IsBox(f, |zLes|, domain.jtot, domain.itot)
  {
    var f := Interpolate(kern, fldEra, ip, zLes, zEra, domain);
    if sigmaN > 0 then GaussianFilter(kern, f, sigmaN) else f
  }

  /**
   * A filter width of zero or less leaves the interpolated field as it is;
   * a positive width replaces every cell by the filter's value there.
   */
  lemma ScalarFilterIff(kern: Kernels, fldEra: Field, zEra: Field, zLes: seq<real>, ip: FactorTable, sigmaN: int, domain: Domain)
    ensures var f0 := Interpolate(kern, fldEra, ip, zLes, zEra, domain);
      var f := ScalarField(kern, fldEra, zEra, zLes, ip, sigmaN, domain);
      && (sigmaN <= 0 ==> f == f0)
      && (sigmaN > 0 ==> forall k, j, i :: 0 <= k < |zLes| && 0 <= j < domain.jtot && 0 <= i < domain.itot ==>
            f[k][j][i] == kern.gaussianFilter(f0, sigmaN, k, j, i))
  {
  }

  /** The writes of `parse_scalar`'s side loop: band `s_{side}` of `fld` into record t of `{name}_{side}`. */
  function ScalarWrites(name: string, t: nat, fld: Field, slices: SliceMap): seq<Write>
    requires HasSlices(slices, "s")
  {
    seq(|Sides|, n requires 0 <= n < |Sides| =>
      Write(SideKey(name, Sides[n]), t, Sub(fld, slices[SideKey("s", Sides[n])])))
  }

  /** Record r of `key` is written once by a scalar task when it is one of the task's own records. */
  lemma ScalarWritesLookup(name: string, t: nat, fld: Field, slices: SliceMap, key: string, r: nat)
    requires HasSlices(slices, "s")
    ensures Lookup(ScalarWrites(name, t, fld, slices), key, r) ==
      if r == t && SideOf(name, key).Some? then Some(Sub(fld, slices[SideKey("s", SideOf(name, key).value)]))
      else None
  {
    var ws := ScalarWrites(name, t, fld, slices);
    if r == t && SideOf(name, key).Some? {
      var s := SideOf(name, key).value;
      forall m | 0 <= m < |ws| && m != SideIndex(s)
        ensures ws[m].key != key
      {
        if ws[m].key == key { SideKeyInjective(name, name, Sides[m], s); }
      }
      LookupSingle(ws, SideIndex(s), key, r);
    } else {
      forall m | 0 <= m < |ws|
        ensures ws[m].key != key || ws[m].t != r
      {
        assert ws[m].key == SideKey(name, Sides[m]);
      }
    }
  }

  /**
   * A scalar task changes exactly record t of its own four boundary fields,
   * each to the matching band of its field, and nothing else.
   */
  lemma ScalarWritesEffect(recs: Records, name: string, t: nat, fld: Field, slices: SliceMap, key: string, r: nat)
    requires HasSlices(slices, "s")
    requires key in recs && r < |recs[key]|
    ensures ApplyWrites(recs, ScalarWrites(name, t, fld, slices))[key][r] ==
      if r == t && SideOf(name, key).Some? then Sub(fld, slices[SideKey("s", SideOf(name, key).value)])
      else recs[key][r]
  {
    ApplyWritesAt(recs, ScalarWrites(name, t, fld, slices), key, r);
    ScalarWritesLookup(name, t, fld, slices, key, r);
  }

  /**
   * `parse_scalar`: interpolate, filter when `sigma_n > 0`, save the interior
   * as the initial field at t == 0, and store the four boundary bands at
   * record t.
   */
  method ParseScalar(
    lbc: LbcContainer, name: string, suffix: string, t: nat,
    fldEra: Field, zEra: Field, zLes: seq<real>, ip: FactorTable,
    slices: SliceMap, sigmaN: int, domain: Domain, outputDir: string, kern: Kernels)
    returns (snapshot: Option<OutputFile>)
    requires HasSlices(slices, "s")
    requires HasRecord(lbc.records, name, t)
    modifies lbc
    ensures var fld := ScalarField(kern, fldEra, zEra, zLes, ip, sigmaN, domain);
      && snapshot == (if t == 0 then Some(SaveField(fld, name, suffix, domain.nPad, outputDir)) else None)
      && lbc.records == ApplyWrites(old(lbc.records), ScalarWrites(name, t, fld, slices))
  {
    var fld := Interpolate(kern, fldEra, ip, zLes, zEra, domain);
    if sigmaN > 0 {
      fld := GaussianFilter(kern, fld, sigmaN);
    }
    assert fld == ScalarField(kern, fldEra, zEra, zLes, ip, sigmaN, domain);
    snapshot := None;
    if t == 0 {
      snapshot := Some(SaveField(fld, name, suffix, domain.nPad, outputDir));
    }
    StoreScalarBands(lbc, name, t, fld, slices);
  }

  /** `parse_scalar`'s side loop: band `s_{side}` of `fld` into record t of `{name}_{side}`. */
  method StoreScalarBands(lbc: LbcContainer, name: string, t: nat, fld: Field, slices: SliceMap)
    requires HasSlices(slices, "s")
    requires HasRecord(lbc.records, name, t)
    modifies lbc
    ensures lbc.records == ApplyWrites(old(lbc.records), ScalarWrites(name, t, fld, slices))
  {
    ghost var ws := ScalarWrites(name, t, fld, slices);
    for n := 0 to |Sides|
      invariant lbc.records == ApplyWrites(old(lbc.records), ws[..n])
    {
      var loc := Sides[n];
      assert ws[..n + 1] == ws[..n] + [ws[n]];
      ApplyWritesSnoc(old(lbc.records), ws[..n], ws[n]);
      lbc.Store(SideKey(name, loc), t, Sub(fld, slices[SideKey("s", loc)]));
    }
    assert ws[..|Sides|] == ws;
  }

  // ---------------------------------------------------------------- momentum

  datatype Component = U | V | W

  /** The components in the order the side loop writes them. */
  const Components: seq<Component> := [U, V, W]

  function ComponentName(c: Component): string {
    match c
    case U => "u"
    case V => "v"
    case W => "w"
  }

  function ComponentIndex(c: Component): (n: nat)
    ensures n < |Components| && Components[n] == c
  {
    match c
    case U => 0
    case V => 1
    case W => 2
  }

  /** The momentum buffers and the residual-divergence report. */
  datatype Buffers = Buffers(u: Field, v: Field, w: Field, report: Option<DivergenceReport>)

  function Select(b: Buffers, c: Component): Field {
    match c
    case U => b.u
    case V => b.v
    case W => b.w
  }

  /** Everything a momentum task reads. */
  datatype MomentumInputs = MomentumInputs(
    uEra: Field, vEra: Field, wEra: Field, zEra: Field,
    grid: Grid, ipU: FactorTable, ipV: FactorTable, ipS: FactorTable,
    sigmaN: int, domain: Domain)

  /** The steps of `parse_momentum`, one kernel call each. */
  datatype Step =
    | InterpStep(c: Component)
    | FilterStep(c: Component)
    | BlendStep
    | CorrectStep
    | ReconstructStep
    | CheckStep

  /** One step on the buffers. */
  function Exec(kern: Kernels, inp: MomentumInputs, step: Step, b: Buffers): Buffers {
    match step
    case InterpStep(U) => b.(u := Interpolate(kern, inp.uEra, inp.ipU, inp.grid.z, inp.zEra, inp.domain))
    case InterpStep(V) => b.(v := Interpolate(kern, inp.vEra, inp.ipV, inp.grid.z, inp.zEra, inp.domain))
    case InterpStep(W) => b.(w := Interpolate(kern, inp.wEra, inp.ipS, inp.grid.zh, inp.zEra, inp.domain))
    case FilterStep(U) => b.(u := GaussianFilter(kern, b.u, inp.sigmaN))
    case FilterStep(V) => b.(v := GaussianFilter(kern, b.v, inp.sigmaN))
    case FilterStep(W) => b.(w := GaussianFilter(kern, b.w, inp.sigmaN))
    case BlendStep => b.(w := BlendW(kern, b.w, inp.grid.zh))
    case CorrectStep =>
      var uv := CorrectDivUV(kern, b.u, b.v, b.w, inp.grid, inp.domain);
      b.(u := uv.0, v := uv.1)
    case ReconstructStep => b.(w := CalcW(kern, b.w, b.u, b.v, inp.grid, inp.domain))
    case CheckStep => b.(report := Some(kern.checkDivergence(b.u, b.v, b.w, inp.grid, inp.domain)))
  }

  /** The steps run in order, first to last. */
  function Run(kern: Kernels, inp: MomentumInputs, steps: seq<Step>, b: Buffers): Buffers
    decreases |steps|
  {
    if steps == [] then b
    else Run(kern, inp, steps[1..], Exec(kern, inp, steps[0], b))
  }

  /** Interpolation of u, v and w to the LES grid. */
  const InterpSteps: seq<Step> := [InterpStep(U), InterpStep(V), InterpStep(W)]

  /** The Gaussian filter on u, v and w, only when `sigma_n > 0`. */
  function FilterSteps(sigmaN: int): seq<Step> {
    if sigmaN > 0 then [FilterStep(U), FilterStep(V), FilterStep(W)] else []
  }

  /** Blend w to zero at the surface, correct the divergence, reconstruct w, check. */
  const ProjectionSteps: seq<Step> := [BlendStep, CorrectStep, ReconstructStep, CheckStep]

  /** The documented order of a momentum task. */
  function MomentumSteps(sigmaN: int): seq<Step> {
    InterpSteps + FilterSteps(sigmaN) + ProjectionSteps
  }

  /** Running two lists of steps one after the other is running their concatenation. */
  lemma {:induction false} RunAppend(kern: Kernels, inp: MomentumInputs, a: seq<Step>, c: seq<Step>, b: Buffers)
    ensures Run(kern, inp, a + c, b) == Run(kern, inp, c, Run(kern, inp, a, b))
    decreases |a|
  {
    if a == [] {
      assert a + c == c;
    } else {
      assert (a + c)[1..] == a[1..] + c;
      RunAppend(kern, inp, a[1..], c, Exec(kern, inp, a[0], b));
    }
  }

  /** The stage a step belongs to, in pipeline order. */
  function Stage(step: Step): nat {
    match step
    case InterpStep(_) => 0
    case FilterStep(_) => 1
    case BlendStep => 2
    case CorrectStep => 3
    case ReconstructStep => 4
    case CheckStep => 5
  }

  /**
   * The momentum steps run stage by stage: interpolation, filtering,
   * blending, correction, reconstruction, check.
   */
  lemma MomentumStepsOrdered(sigmaN: int)
    ensures var steps := MomentumSteps(sigmaN);
      forall n :: 0 <= n < |steps| - 1 ==> Stage(steps[n]) <= Stage(steps[n + 1])
  {
    if sigmaN > 0 {
      assert MomentumSteps(sigmaN) == [InterpStep(U), InterpStep(V), InterpStep(W),
        FilterStep(U), FilterStep(V), FilterStep(W), BlendStep, CorrectStep, ReconstructStep, CheckStep];
    } else {
      assert MomentumSteps(sigmaN) == [InterpStep(U), InterpStep(V), InterpStep(W),
        BlendStep, CorrectStep, ReconstructStep, CheckStep];
    }
  }

  /**
   * Each component is interpolated, and filtered exactly when `sigma_n > 0`;
   * blending, correction, reconstruction and the check are all present.
   */
  lemma MomentumStepsPresent(sigmaN: int)
    ensures var steps := MomentumSteps(sigmaN);
      && (forall c :: InterpStep(c) in steps)
      && (forall c :: FilterStep(c) in steps <==> sigmaN > 0)
      && BlendStep in steps && CorrectStep in steps && ReconstructStep in steps && CheckStep in steps
  {
    var steps := MomentumSteps(sigmaN);
    forall c ensures InterpStep(c) in steps && (FilterStep(c) in steps <==> sigmaN > 0) {
      assert steps[ComponentIndex(c)] == InterpStep(c);
      if sigmaN > 0 {
        assert steps[3 + ComponentIndex(c)] == FilterStep(c);
      }
    }
    assert steps[|steps| - 4] == BlendStep;
    assert steps[|steps| - 3] == CorrectStep;
    assert steps[|steps| - 2] == ReconstructStep;
    assert steps[|steps| - 1] == CheckStep;
  }

  /** No step runs twice. */
  lemma MomentumStepsDistinct(sigmaN: int)
    ensures var steps := MomentumSteps(sigmaN);
      forall m, n :: 0 <= m < n < |steps| ==> steps[m] != steps[n]
  {
    if sigmaN > 0 {
      assert MomentumSteps(sigmaN) == [InterpStep(U), InterpStep(V), InterpStep(W),
        FilterStep(U), FilterStep(V), FilterStep(W), BlendStep, CorrectStep, ReconstructStep, CheckStep];
    } else {
      assert MomentumSteps(sigmaN) == [InterpStep(U), InterpStep(V), InterpStep(W),
        BlendStep, CorrectStep, ReconstructStep, CheckStep];
    }
  }

  /** The buffers of a momentum task after all its steps. */
  function MomentumResult(kern: Kernels, inp: MomentumInputs): Buffers {
    Run(kern, inp, MomentumSteps(inp.sigmaN), Buffers([], [], [], None))
  }

  /** The snapshots written at t == 0: u and v with all levels, w without its top half level. */
  function MomentumSnapshots(b: Buffers, suffix: string, nPad: nat, outputDir: string): seq<OutputFile> {
    [SaveField(b.u, "u", suffix, nPad, outputDir),
     SaveField(b.v, "v", suffix, nPad, outputDir),
     SaveField(Take(b.w, Slice(None, Some(-1))), "w", suffix, nPad, outputDir)]
  }

  /** The w snapshot holds every half level of w but the top one. */
  lemma MomentumSnapshotLevels(b: Buffers, suffix: string, nPad: nat, outputDir: string, nk: nat, nj: nat, ni: nat)
    requires IsBox(b.u, nk, nj, ni) && IsBox(b.v, nk, nj, ni) && IsBox(b.w, nk + 1, nj, ni)
    requires 2 * nPad <= nj && 2 * nPad <= ni
    ensures var files := MomentumSnapshots(b, suffix, nPad, outputDir);
      && StripsHalo(b.u, files[0].data, nk, nj, ni, nPad)
      && StripsHalo(b.v, files[1].data, nk, nj, ni, nPad)
      && StripsHalo(b.w[..nk], files[2].data, nk, nj, ni, nPad)
  {
    DropLast(b.w);
    var w := Take(b.w, Slice(None, Some(-1)));
    assert IsBox(w, nk, nj, ni);
    assert StripsHalo(w, SaveField(w, "w", suffix, nPad, outputDir).data, nk, nj, ni, nPad);
  }

  /** u and v have `nk` levels, w has `nkh` half levels, all of `nj` rows of `ni` cells. */
  predicate WindShapes(b: Buffers, nk: nat, nkh: nat, nj: nat, ni: nat) {
    IsBox(b.u, nk, nj, ni) && IsBox(b.v, nk, nj, ni) && IsBox(b.w, nkh, nj, ni)
  }

  /** Interpolation allocates u and v on the full levels and w on the half levels. */
  lemma InterpShape(kern: Kernels, inp: MomentumInputs, b: Buffers)
    ensures WindShapes(Run(kern, inp, InterpSteps, b), |inp.grid.z|, |inp.grid.zh|, inp.domain.jtot, inp.domain.itot)
  {
    var b1 := Exec(kern, inp, InterpStep(U), b);
    var b2 := Exec(kern, inp, InterpStep(V), b1);
    var b3 := Exec(kern, inp, InterpStep(W), b2);
    assert Run(kern, inp, InterpSteps, b) == Run(kern, inp, [InterpStep(V), InterpStep(W)], b1);
    assert Run(kern, inp, [InterpStep(V), InterpStep(W)], b1) == Run(kern, inp, [InterpStep(W)], b2);
    assert Run(kern, inp, [InterpStep(W)], b2) == b3;
  }

  /** Every step after interpolation works in place and keeps the buffers' shapes. */
  lemma ExecKeepsShape(kern: Kernels, inp: MomentumInputs, step: Step, b: Buffers, nk: nat, nkh: nat, nj: nat, ni: nat)
    requires !step.InterpStep? && WindShapes(b, nk, nkh, nj, ni)
    ensures WindShapes(Exec(kern, inp, step, b), nk, nkh, nj, ni)
  {
    var r := Exec(kern, inp, step, b);
    match step
    case FilterStep(c) =>
      SameShapeKeepsBox(b.u, r.u, nk, nj, ni);
      SameShapeKeepsBox(b.v, r.v, nk, nj, ni);
      SameShapeKeepsBox(b.w, r.w, nkh, nj, ni);
    case BlendStep =>
      SameShapeKeepsBox(b.w, r.w, nkh, nj, ni);
    case CorrectStep =>
      SameShapeKeepsBox(b.u, r.u, nk, nj, ni);
      SameShapeKeepsBox(b.v, r.v, nk, nj, ni);
    case ReconstructStep =>
      SameShapeKeepsBox(b.w, r.w, nkh, nj, ni);
    case CheckStep =>
  }

  /** A run of in-place steps keeps the buffers' shapes. */
  lemma {:induction false} RunKeepsShape(kern: Kernels, inp: MomentumInputs, steps: seq<Step>, b: Buffers, nk: nat, nkh: nat, nj: nat, ni: nat)
    requires forall n :: 0 <= n < |steps| ==> !steps[n].InterpStep?
    requires WindShapes(b, nk, nkh, nj, ni)
    ensures WindShapes(Run(kern, inp, steps, b), nk, nkh, nj, ni)
    decreases |steps|
  {
    if steps != [] {
      ExecKeepsShape(kern, inp, steps[0], b, nk, nkh, nj, ni);
      RunKeepsShape(kern, inp, steps[1..], Exec(kern, inp, steps[0], b), nk, nkh, nj, ni);
    }
  }

  /**
   * After all steps u and v have the `z.size` full levels and w the `zh.size`
   * half levels of the LES grid, each of `jtot` rows of `itot` cells.
   */
  lemma MomentumResultShape(kern: Kernels, inp: MomentumInputs)
    ensures WindShapes(MomentumResult(kern, inp), |inp.grid.z|, |inp.grid.zh|, inp.domain.jtot, inp.domain.itot)
  {
    var b0 := Buffers([], [], [], None);
    var nk, nkh, nj, ni := |inp.grid.z|, |inp.grid.zh|, inp.domain.jtot, inp.domain.itot;
    var b1 := Run(kern, inp, InterpSteps, b0);
    var b2 := Run(kern, inp, FilterSteps(inp.sigmaN), b1);
    InterpShape(kern, inp, b0);
    RunKeepsShape(kern, inp, FilterSteps(inp.sigmaN), b1, nk, nkh, nj, ni);
    RunKeepsShape(kern, inp, ProjectionSteps, b2, nk, nkh, nj, ni);
    RunAppend(kern, inp, InterpSteps, FilterSteps(inp.sigmaN), b0);
    RunAppend(kern, inp, InterpSteps + FilterSteps(inp.sigmaN), ProjectionSteps, b0);
  }

  /**
   * u and v are `nk` full levels, w `nk + 1` half levels, and the three files
   * hold u, v and the lower `nk` levels of w, each without its halo.
   */
  predicate SnapshotsStripHalo(b: Buffers, files: seq<OutputFile>, nk: nat, nj: nat, ni: nat, nPad: nat) {
    && IsBox(b.u, nk, nj, ni) && IsBox(b.v, nk, nj, ni) && IsBox(b.w, nk + 1, nj, ni)
    && 2 * nPad <= nj && 2 * nPad <= ni && |files| == 3
    && StripsHalo(b.u, files[0].data, nk, nj, ni, nPad)
    && StripsHalo(b.v, files[1].data, nk, nj, ni, nPad)
    && StripsHalo(b.w[..nk], files[2].data, nk, nj, ni, nPad)
  }

  /**
   * On a grid with one more half level than full levels, the snapshots of a
   * momentum task hold u and v with every level and w without its top half
   * level, each without its halo.
   */
  lemma MomentumResultSnapshots(kern: Kernels, inp: MomentumInputs, suffix: string, outputDir: string)
    requires |inp.grid.zh| == |inp.grid.z| + 1
    requires 2 * inp.domain.nPad <= inp.domain.jtot && 2 * inp.domain.nPad <= inp.domain.itot
    ensures var b := MomentumResult(kern, inp);
      SnapshotsStripHalo(b, MomentumSnapshots(b, suffix, inp.domain.nPad, outputDir),
        |inp.grid.z|, inp.domain.jtot, inp.domain.itot, inp.domain.nPad)
  {
    var b := MomentumResult(kern, inp);
    MomentumResultShape(kern, inp);
    MomentumSnapshotLevels(b, suffix, inp.domain.nPad, outputDir, |inp.grid.z|, inp.domain.jtot, inp.domain.itot);
  }

  predicate HasMomentumSlices(slices: SliceMap) {
    HasSlices(slices, "u") && HasSlices(slices, "v") && HasSlices(slices, "w")
  }

  /** `{c}_{side}`: the container key, and the slice key, of a component's band on a side. */
  function BandKey(c: Component, s: Side): string {
    SideKey(ComponentName(c), s)
  }

  /** The write of component `c`'s band on side `s` into record t. */
  function Band(t: nat, b: Buffers, slices: SliceMap, c: Component, s: Side): Write
    requires HasMomentumSlices(slices)
  {
    Write(BandKey(c, s), t, Sub(Select(b, c), slices[BandKey(c, s)]))
  }

  /** The three writes of one side in `parse_momentum`'s side loop: the bands of u, v and w. */
  function SideWrites(t: nat, b: Buffers, slices: SliceMap, s: Side): (ws: seq<Write>)
    requires HasMomentumSlices(slices)
    ensures |ws| == |Components|
  {
    seq(|Components|, n requires 0 <= n < |Components| => Band(t, b, slices, Components[n], s))
  }

  /** The writes of the first `n` sides of the side loop. */
  function MomentumWritesUpTo(t: nat, b: Buffers, slices: SliceMap, n: nat): seq<Write>
    requires HasMomentumSlices(slices) && n <= |Sides|
  {
    if n == 0 then [] else MomentumWritesUpTo(t, b, slices, n - 1) + SideWrites(t, b, slices, Sides[n - 1])
  }

  /** All writes of a momentum task, side by side and u, v, w within a side. */
  function MomentumWrites(t: nat, b: Buffers, slices: SliceMap): seq<Write>
    requires HasMomentumSlices(slices)
  {
    MomentumWritesUpTo(t, b, slices, |Sides|)
  }

  /** The component and side whose boundary field `key` names, if any. */
  function ComponentSideOf(key: string): (r: Option<(Component, Side)>)
    ensures r.Some? ==> key == BandKey(r.value.0, r.value.1)
    ensures r.None? ==> forall c, s :: key != BandKey(c, s)
  {
    if SideOf("u", key).Some? then Some((U, SideOf("u", key).value))
    else if SideOf("v", key).Some? then Some((V, SideOf("v", key).value))
    else if SideOf("w", key).Some? then Some((W, SideOf("w", key).value))
    else
      assert forall c: Component, s :: key != BandKey(c, s) by {
        forall c: Component, s ensures key != BandKey(c, s) {
          if c == U {} else if c == V {} else {}
        }
      }
      None
  }

  /** Every band key is recognised as its own component and side. */
  lemma ComponentSideOfBandKey(c: Component, s: Side)
    ensures ComponentSideOf(BandKey(c, s)) == Some((c, s))
  {
    var r := ComponentSideOf(BandKey(c, s));
    assert r.Some?;
    SideKeyInjective(ComponentName(c), ComponentName(r.value.0), s, r.value.1);
    assert ComponentName(c) == ComponentName(r.value.0);
  }

  /** Within one side's writes, record t of `key` is written once when `key` is a band of that side. */
  lemma SideWritesLookup(t: nat, b: Buffers, slices: SliceMap, s: Side, key: string, r: nat)
    requires HasMomentumSlices(slices)
    ensures Lookup(SideWrites(t, b, slices, s), key, r) ==
      match ComponentSideOf(key)
      case Some(cs) => if r == t && cs.1 == s then Some(Sub(Select(b, cs.0), slices[key])) else None
      case None => None
  {
    var ws := SideWrites(t, b, slices, s);
    forall n | 0 <= n < |ws| && ws[n].key == key
      ensures ComponentSideOf(key) == Some((Components[n], s))
    {
      ComponentSideOfBandKey(Components[n], s);
    }
    var cs := ComponentSideOf(key);
    if r == t && cs.Some? && cs.value.1 == s {
      var n := ComponentIndex(cs.value.0);
      LookupSingle(ws, n, key, r);
    }
  }

  /** The first `n` sides write record t of exactly the bands of those sides. */
  lemma {:induction false} MomentumWritesUpToLookup(t: nat, b: Buffers, slices: SliceMap, n: nat, key: string, r: nat)
    requires HasMomentumSlices(slices) && n <= |Sides|
    ensures Lookup(MomentumWritesUpTo(t, b, slices, n), key, r) ==
      match ComponentSideOf(key)
      case Some(cs) => if r == t && SideIndex(cs.1) < n then Some(Sub(Select(b, cs.0), slices[key])) else None
      case None => None
  {
    if n > 0 {
      LookupAppend(MomentumWritesUpTo(t, b, slices, n - 1), SideWrites(t, b, slices, Sides[n - 1]), key, r);
      MomentumWritesUpToLookup(t, b, slices, n - 1, key, r);
      SideWritesLookup(t, b, slices, Sides[n - 1], key, r);
    }
  }

  /**
   * A momentum task changes exactly record t of the twelve boundary fields of
   * u, v and w, each to the matching band of its component, and nothing else.
   */
  lemma MomentumWritesEffect(recs: Records, t: nat, b: Buffers, slices: SliceMap, key: string, r: nat)
    requires HasMomentumSlices(slices)
    requires key in recs && r < |recs[key]|
    ensures ApplyWrites(recs, MomentumWrites(t, b, slices))[key][r] ==
      match ComponentSideOf(key)
      case Some(cs) => if r == t then Sub(Select(b, cs.0), slices[key]) else recs[key][r]
      case None => recs[key][r]
  {
    ApplyWritesAt(recs, MomentumWrites(t, b, slices), key, r);
    MomentumWritesUpToLookup(t, b, slices, |Sides|, key, r);
  }

  /** Scalar tasks for different (name, t) pairs write disjoint records. */
  lemma ScalarWritesDisjoint(name1: string, t1: nat, fld1: Field, name2: string, t2: nat, fld2: Field, slices: SliceMap)
    requires HasSlices(slices, "s")
    requires name1 != name2 || t1 != t2
    ensures Disjoint(ScalarWrites(name1, t1, fld1, slices), ScalarWrites(name2, t2, fld2, slices))
  {
    var a, b := ScalarWrites(name1, t1, fld1, slices), ScalarWrites(name2, t2, fld2, slices);
    forall m, n | 0 <= m < |a| && 0 <= n < |b|
      ensures a[m].key != b[n].key || a[m].t != b[n].t
    {
      if a[m].key == b[n].key { SideKeyInjective(name1, name2, Sides[m], Sides[n]); }
    }
  }

  /** Every write in `ws` goes to record t of a band of u, v or w. */
  predicate WritesBands(ws: seq<Write>, t: nat) {
    forall m :: 0 <= m < |ws| ==> ws[m].t == t && ComponentSideOf(ws[m].key).Some?
  }

  /** Every momentum write goes to record t of a band key. */
  lemma {:induction false} MomentumWritesUpToTargets(t: nat, b: Buffers, slices: SliceMap, n: nat)
    requires HasMomentumSlices(slices) && n <= |Sides|
    ensures WritesBands(MomentumWritesUpTo(t, b, slices, n), t)
  {
    if n > 0 {
      MomentumWritesUpToTargets(t, b, slices, n - 1);
      var ws := MomentumWritesUpTo(t, b, slices, n);
      var prev := MomentumWritesUpTo(t, b, slices, n - 1);
      var side := SideWrites(t, b, slices, Sides[n - 1]);
      assert ws == prev + side;
      forall m | 0 <= m < |ws|
        ensures ws[m].t == t && ComponentSideOf(ws[m].key).Some?
      {
        if m < |prev| {
          assert ws[m] == prev[m];
        } else {
          var k := m - |prev|;
          assert ws[m] == side[k] == Band(t, b, slices, Components[k], Sides[n - 1]);
          ComponentSideOfBandKey(Components[k], Sides[n - 1]);
        }
      }
    }
  }

  /** Momentum tasks for different times write disjoint records. */
  lemma MomentumWritesDisjoint(t1: nat, b1: Buffers, t2: nat, b2: Buffers, slices: SliceMap)
    requires HasMomentumSlices(slices)
    requires t1 != t2
    ensures Disjoint(MomentumWrites(t1, b1, slices), MomentumWrites(t2, b2, slices))
  {
    MomentumWritesUpToTargets(t1, b1, slices, |Sides|);
    MomentumWritesUpToTargets(t2, b2, slices, |Sides|);
    var a, c := MomentumWrites(t1, b1, slices), MomentumWrites(t2, b2, slices);
    forall m, n | 0 <= m < |a| && 0 <= n < |c|
      ensures a[m].t != c[n].t
    {
    }
  }

  /** A scalar task never writes a record of u, v or w, so it is disjoint from every momentum task. */
  lemma ScalarMomentumDisjoint(name: string, t1: nat, fld: Field, t2: nat, b: Buffers, slices: SliceMap)
    requires HasSlices(slices, "s") && HasMomentumSlices(slices)
    requires name != "u" && name != "v" && name != "w"
    ensures Disjoint(ScalarWrites(name, t1, fld, slices), MomentumWrites(t2, b, slices))
  {
    var a, mw := ScalarWrites(name, t1, fld, slices), MomentumWrites(t2, b, slices);
    MomentumWritesUpToTargets(t2, b, slices, |Sides|);
    assert mw == MomentumWritesUpTo(t2, b, slices, |Sides|);
    forall m, n | 0 <= m < |a| && 0 <= n < |mw|
      ensures a[m].key != mw[n].key
    {
      var cs := ComponentSideOf(mw[n].key).value;
      if a[m].key == mw[n].key {
        SideKeyInjective(name, ComponentName(cs.0), Sides[m], cs.1);
      }
    }
  }

  /** The interpolation stage of `parse_momentum`, on freshly allocated buffers. */
  method InterpolateWinds(kern: Kernels, inp: MomentumInputs) returns (b: Buffers)
    ensures b == Run(kern, inp, InterpSteps, Buffers([], [], [], None))
  {
    var u := Interpolate(kern, inp.uEra, inp.ipU, inp.grid.z, inp.zEra, inp.domain);
    var v := Interpolate(kern, inp.vEra, inp.ipV, inp.grid.z, inp.zEra, inp.domain);
    var w := Interpolate(kern, inp.wEra, inp.ipS, inp.grid.zh, inp.zEra, inp.domain);
    b := Buffers(u, v, w, None);
  }

  /** The filter stage of `parse_momentum`: u, v and w filtered in place when `sigma_n > 0`. */
  method FilterWinds(kern: Kernels, inp: MomentumInputs, b0: Buffers) returns (b: Buffers)
    ensures b == Run(kern, inp, FilterSteps(inp.sigmaN), b0)
  {
    b := b0;
    if inp.sigmaN > 0 {
      var u := GaussianFilter(kern, b.u, inp.sigmaN);
      var v := GaussianFilter(kern, b.v, inp.sigmaN);
      var w := GaussianFilter(kern, b.w, inp.sigmaN);
      b := Buffers(u, v, w, b.report);
      ghost var b1 := Exec(kern, inp, FilterStep(U), b0);
      ghost var b2 := Exec(kern, inp, FilterStep(V), b1);
      assert Run(kern, inp, [FilterStep(W)], b2) == b;
      assert Run(kern, inp, [FilterStep(V), FilterStep(W)], b1) == b;
    }
  }

  /**
   * The projection stage of `parse_momentum`: blend w to zero near the
   * surface, correct u and v, reconstruct w from them, check the divergence.
   */
  method ProjectWinds(kern: Kernels, inp: MomentumInputs, b0: Buffers) returns (b: Buffers, report: DivergenceReport)
    ensures b == Run(kern, inp, ProjectionSteps, b0)
    ensures b.report == Some(report)
  {
    var u, v, w := b0.u, b0.v, b0.w;
    w := BlendW(kern, w, inp.grid.zh);
    var uv := CorrectDivUV(kern, u, v, w, inp.grid, inp.domain);
    u, v := uv.0, uv.1;
    w := CalcW(kern, w, u, v, inp.grid, inp.domain);
    report := kern.checkDivergence(u, v, w, inp.grid, inp.domain);
    b := Buffers(u, v, w, Some(report));
  }

  /**
   * `parse_momentum`: interpolate u, v, w at their staggered locations, filter
   * when `sigma_n > 0`, blend w to zero near the surface, correct the
   * horizontal divergence, reconstruct w, check the divergence, save the
   * snapshots at t == 0 and store the boundary bands at record t.
   */
  method ParseMomentum(
    lbc: LbcContainer, suffix: string, t: nat,
    uEra: Field, vEra: Field, wEra: Field, zEra: Field, grid: Grid,
    ipU: FactorTable, ipV: FactorTable, ipS: FactorTable,
    slices: SliceMap, sigmaN: int, domain: Domain, outputDir: string, kern: Kernels)
    returns (report: DivergenceReport, snapshots: seq<OutputFile>)
    requires HasMomentumSlices(slices)
    requires HasRecord(lbc.records, "u", t) && HasRecord(lbc.records, "v", t) && HasRecord(lbc.records, "w", t)
    modifies lbc
    ensures var b := MomentumResult(kern, MomentumInputs(uEra, vEra, wEra, zEra, grid, ipU, ipV, ipS, sigmaN, domain));
      && b.report == Some(report)
      && snapshots == (if t == 0 then MomentumSnapshots(b, suffix, domain.nPad, outputDir) else [])
      && lbc.records == ApplyWrites(old(lbc.records), MomentumWrites(t, b, slices))
  {
    var inp := MomentumInputs(uEra, vEra, wEra, zEra, grid, ipU, ipV, ipS, sigmaN, domain);
    var b := InterpolateWinds(kern, inp);
    b := FilterWinds(kern, inp, b);
    b, report := ProjectWinds(kern, inp, b);
    RunAppend(kern, inp, InterpSteps, FilterSteps(sigmaN), Buffers([], [], [], None));
    RunAppend(kern, inp, InterpSteps + FilterSteps(sigmaN), ProjectionSteps, Buffers([], [], [], None));
    snapshots := [];
    if t == 0 {
      snapshots := [
        SaveField(b.u, "u", suffix, domain.nPad, outputDir),
        SaveField(b.v, "v", suffix, domain.nPad, outputDir),
        SaveField(Take(b.w, Slice(None, Some(-1))), "w", suffix, domain.nPad, outputDir)];
    }

    StoreMomentumBands(lbc, t, b, slices);
  }

  /** One pass of `parse_momentum`'s side loop: the bands of u, v and w on side `s` into record t. */
  method StoreSide(lbc: LbcContainer, t: nat, b: Buffers, slices: SliceMap, s: Side)
    requires HasMomentumSlices(slices)
    requires HasRecord(lbc.records, "u", t) && HasRecord(lbc.records, "v", t) && HasRecord(lbc.records, "w", t)
    modifies lbc
    ensures lbc.records == ApplyWrites(old(lbc.records), SideWrites(t, b, slices, s))
  {
    ghost var r0 := old(lbc.records);
    ghost var wu, wv, ww := Band(t, b, slices, U, s), Band(t, b, slices, V, s), Band(t, b, slices, W, s);
    assert [] + [wu] == [wu] && [wu] + [wv] == [wu, wv] && [wu, wv] + [ww] == [wu, wv, ww];
    StoreBand(lbc, t, b, slices, U, s, r0, []);
    StoreBand(lbc, t, b, slices, V, s, r0, [wu]);
    StoreBand(lbc, t, b, slices, W, s, r0, [wu, wv]);
    assert SideWrites(t, b, slices, s) == [wu, wv, ww];
  }

  /** One statement of the side loop: `lbc_ds[f'{c}_{side}'][t] = c[lbc_slices[f'{c}_{side}']]`. */
  method StoreBand(lbc: LbcContainer, t: nat, b: Buffers, slices: SliceMap, c: Component, s: Side,
                   ghost r0: Records, ghost done: seq<Write>)
    requires HasMomentumSlices(slices)
    requires BandKey(c, s) in r0 && t < |r0[BandKey(c, s)]|
    requires lbc.records == ApplyWrites(r0, done)
    modifies lbc
    ensures lbc.records == ApplyWrites(r0, done + [Band(t, b, slices, c, s)])
  {
    var key := BandKey(c, s);
    lbc.Store(key, t, Sub(Select(b, c), slices[key]));
    ApplyWritesSnoc(r0, done, Band(t, b, slices, c, s));
  }

  /** `parse_momentum`'s side loop: the bands of u, v and w on every side into record t. */
  method StoreMomentumBands(lbc: LbcContainer, t: nat, b: Buffers, slices: SliceMap)
    requires HasMomentumSlices(slices)
    requires HasRecord(lbc.records, "u", t) && HasRecord(lbc.records, "v", t) && HasRecord(lbc.records, "w", t)
    modifies lbc
    ensures lbc.records == ApplyWrites(old(lbc.records), MomentumWrites(t, b, slices))
  {
    for n := 0 to |Sides|
      invariant lbc.records == ApplyWrites(old(lbc.records), MomentumWritesUpTo(t, b, slices, n))
    {
      StoreSide(lbc, t, b, slices, Sides[n]);
      ApplyWritesAppend(old(lbc.records), MomentumWritesUpTo(t, b, slices, n), SideWrites(t, b, slices, Sides[n]));
    }
  }
}
