/**
 * `create_era5_input`: the driver that turns ERA5 fields into LES input. It
 * derives the filter width, plans one scalar task per (scalar field, time)
 * and, when u, v and w are all present, one momentum task per time, and runs
 * every task against one LBC container.
 */
module Driver {
  import opened Slices
  import opened Fields
  import opened Factors
  import opened Output
  import opened Lbc
  import opened Kernels
  import opened Pipeline

  // ---------------------------------------------------------------- filter width

  /** `int(ceil(sigma_h / dx))`: the Gaussian filter width in LES grid cells. */
  function SigmaN(sigmaH: real, dx: real): (r: int)
    requires dx != 0.0
    ensures (r - 1) as real < sigmaH / dx <= r as real
  {
    var q := sigmaH / dx;
    if q.Floor as real == q then q.Floor else q.Floor + 1
  }

  /** With a positive grid spacing the filter is used exactly when `sigma_h` is positive. */
  lemma FilterIffPositiveWidth(sigmaH: real, dx: real)
    requires dx > 0.0
    ensures SigmaN(sigmaH, dx) > 0 <==> sigmaH > 0.0
  {
    var q := sigmaH / dx;
    assert q * dx == sigmaH;
    if sigmaH > 0.0 {
      assert q > 0.0;
    } else {
      assert q <= 0.0;
    }
  }

  // ---------------------------------------------------------------- input fields

  /** One ERA5 input field: its name and one 3-D field per time. */
  datatype FieldEntry = FieldEntry(name: string, data: seq<Field>)

  /** The names the driver treats as wind components. */
  predicate IsMomentum(name: string) {
    name == "u" || name == "v" || name == "w"
  }

  /** The input is a dictionary: no name occurs twice. */
  predicate DistinctNames(fields: seq<FieldEntry>) {
    forall m, n :: 0 <= m < n < |fields| ==> fields[m].name != fields[n].name
  }

  /** Every field, and the ERA5 level heights, have at least `ntime` times. */
  predicate CoversTimes(fields: seq<FieldEntry>, zEra: seq<Field>, ntime: nat) {
    && |zEra| >= ntime
    && forall n :: 0 <= n < |fields| ==> |fields[n].data| >= ntime
  }

  /** The container holds record t of every side of every field, for every time. */
  predicate HasAllRecords(recs: Records, fields: seq<FieldEntry>, ntime: nat) {
    forall n, t :: 0 <= n < |fields| && 0 <= t < ntime ==> HasRecord(recs, fields[n].name, t)
  }

  /** The entries that are not wind components, in their given order. */
  function Scalars(fields: seq<FieldEntry>): (sc: seq<FieldEntry>)
    ensures forall m :: 0 <= m < |sc| ==> sc[m] in fields && !IsMomentum(sc[m].name)
    decreases |fields|
  {
    if fields == [] then []
    else
      var e := fields[|fields| - 1];
      var prev := Scalars(fields[..|fields| - 1]);
      assert forall m :: 0 <= m < |prev| ==> prev[m] in fields by {
        assert forall x :: x in fields[..|fields| - 1] ==> x in fields;
      }
      if IsMomentum(e.name) then prev else prev + [e]
  }

  /** Scanning the entries in order keeps the scalars found so far: a prefix's scalars lead the list. */
  lemma {:induction false} ScalarsPrefix(fields: seq<FieldEntry>, n: nat)
    requires n <= |fields|
    ensures Scalars(fields[..n]) <= Scalars(fields)
    decreases |fields|
  {
    if n < |fields| {
      var init := fields[..|fields| - 1];
      assert init[..n] == fields[..n];
      ScalarsPrefix(init, n);
    } else {
      assert fields[..n] == fields;
    }
  }

  /** Every entry that is not a wind component is among the scalars. */
  lemma {:induction false} ScalarsComplete(fields: seq<FieldEntry>, n: nat)
    requires n < |fields| && !IsMomentum(fields[n].name)
    ensures fields[n] in Scalars(fields)
    decreases |fields|
  {
    var init := fields[..|fields| - 1];
    if n < |fields| - 1 {
      assert init[n] == fields[n];
      ScalarsComplete(init, n);
      ScalarsPrefix(fields, |fields| - 1);
    }
  }

  /** `fields_era[name]`, when the name is present. */
  function Find(fields: seq<FieldEntry>, name: string): (r: Option<FieldEntry>)
    ensures r.Some? ==> r.value in fields && r.value.name == name
    ensures r.None? ==> forall n :: 0 <= n < |fields| ==> fields[n].name != name
    decreases |fields|
  {
    if fields == [] then None
    else if fields[|fields| - 1].name == name then Some(fields[|fields| - 1])
    else
      var r := Find(fields[..|fields| - 1], name);
      assert r.Some? ==> r.value in fields by {
        if r.Some? { assert r.value in fields[..|fields| - 1]; }
      }
      r
  }

  // ---------------------------------------------------------------- task lists

  /** The arguments of one `parse_scalar` call that vary between tasks. */
  datatype ScalarTask = ScalarTask(name: string, t: nat, fldEra: Field, zEra: Field)

  /**
   * The scalar task list: for every field that is not a wind component, in
   * the given order, one task per time in ascending order.
   */
  function ScalarTaskList(fields: seq<FieldEntry>, zEra: seq<Field>, ntime: nat): (tasks: seq<ScalarTask>)
    requires CoversTimes(fields, zEra, ntime)
    ensures forall j :: 0 <= j < |tasks| ==>
      && tasks[j].t < ntime
      && !IsMomentum(tasks[j].name)
      && exists n :: 0 <= n < |fields| && fields[n].name == tasks[j].name
    decreases |fields|
  {
    if fields == [] then []
    else
      var e := fields[|fields| - 1];
      var prev := ScalarTaskList(fields[..|fields| - 1], zEra, ntime);
      assert forall j :: 0 <= j < |prev| ==> exists n :: 0 <= n < |fields| && fields[n].name == prev[j].name by {
        forall j | 0 <= j < |prev|
          ensures exists n :: 0 <= n < |fields| && fields[n].name == prev[j].name
        {
          var n :| 0 <= n < |fields| - 1 && fields[..|fields| - 1][n].name == prev[j].name;
          assert fields[n].name == prev[j].name;
        }
      }
      if IsMomentum(e.name) then prev
      else
        var block := seq(ntime, t requires 0 <= t < ntime => ScalarTask(e.name, t, e.data[t], zEra[t]));
        assert forall j :: 0 <= j < |block| ==> fields[|fields| - 1].name == block[j].name;
        prev + block
  }

  /** `create_era5_input`'s scalar `args` loop. */
  method BuildScalarTasks(fields: seq<FieldEntry>, zEra: seq<Field>, ntime: nat) returns (tasks: seq<ScalarTask>)
    requires CoversTimes(fields, zEra, ntime)
    ensures tasks == ScalarTaskList(fields, zEra, ntime)
  {
    tasks := [];
    for n := 0 to |fields|
      invariant tasks == ScalarTaskList(fields[..n], zEra, ntime)
    {
      var e := fields[n];
      assert fields[..n + 1][..n] == fields[..n];
      if !IsMomentum(e.name) {
        ghost var prev := tasks;
        for t := 0 to ntime
          invariant tasks == prev + seq(t, k requires 0 <= k < t => ScalarTask(e.name, k, e.data[k], zEra[k]))
        {
          tasks := tasks + [ScalarTask(e.name, t, e.data[t], zEra[t])];
        }
      }
    }
    assert fields[..|fields|] == fields;
  }

  /**
   * One task per (scalar, time) pair: the list has `|Scalars| * ntime`
   * entries, and entry `m * ntime + t` is scalar m at time t.
   */
  lemma {:induction false} ScalarTaskListAt(fields: seq<FieldEntry>, zEra: seq<Field>, ntime: nat, m: nat, t: nat)
    requires CoversTimes(fields, zEra, ntime)
    requires m < |Scalars(fields)| && t < ntime
    ensures |ScalarTaskList(fields, zEra, ntime)| == |Scalars(fields)| * ntime
    ensures m * ntime + t < |ScalarTaskList(fields, zEra, ntime)|
    ensures var e := Scalars(fields)[m];
      ScalarTaskList(fields, zEra, ntime)[m * ntime + t] == ScalarTask(e.name, t, e.data[t], zEra[t])
    decreases |fields|
  {
    var init := fields[..|fields| - 1];
    var e := fields[|fields| - 1];
    var sc := Scalars(fields);
    var scPrev := Scalars(init);
    var prev := ScalarTaskList(init, zEra, ntime);
    ScalarTaskListLength(init, zEra, ntime);
    if m < |scPrev| {
      ScalarTaskListAt(init, zEra, ntime, m, t);
      assert sc[m] == scPrev[m];
    } else {
      assert !IsMomentum(e.name) && m == |scPrev|;
      assert m * ntime + t == |prev| + t;
    }
    ScalarTaskListLength(fields, zEra, ntime);
  }

  /** The scalar task list has `ntime` entries per scalar. */
  lemma {:induction false} ScalarTaskListLength(fields: seq<FieldEntry>, zEra: seq<Field>, ntime: nat)
    requires CoversTimes(fields, zEra, ntime)
    ensures |ScalarTaskList(fields, zEra, ntime)| == |Scalars(fields)| * ntime
    decreases |fields|
  {
    if fields != [] {
      ScalarTaskListLength(fields[..|fields| - 1], zEra, ntime);
    }
  }

  /** No two scalar tasks share a (name, t) pair. */
  predicate DistinctTasks(tasks: seq<ScalarTask>) {
    forall i, j :: 0 <= i < j < |tasks| ==> tasks[i].name != tasks[j].name || tasks[i].t != tasks[j].t
  }

  /** Different scalar tasks have different (name, t) pairs. */
  lemma {:induction false} ScalarTaskListDistinct(fields: seq<FieldEntry>, zEra: seq<Field>, ntime: nat)
    requires CoversTimes(fields, zEra, ntime) && DistinctNames(fields)
    ensures DistinctTasks(ScalarTaskList(fields, zEra, ntime))
    decreases |fields|
  {
    if fields != [] {
      var init := fields[..|fields| - 1];
      var e := fields[|fields| - 1];
      var prev := ScalarTaskList(init, zEra, ntime);
      var tasks := ScalarTaskList(fields, zEra, ntime);
      ScalarTaskListDistinct(init, zEra, ntime);
      if !IsMomentum(e.name) {
        var block := seq(ntime, t requires 0 <= t < ntime => ScalarTask(e.name, t, e.data[t], zEra[t]));
        assert tasks == prev + block;
        forall i, j | 0 <= i < j < |tasks|
          ensures tasks[i].name != tasks[j].name || tasks[i].t != tasks[j].t
        {
          if j < |prev| {
            assert tasks[i] == prev[i] && tasks[j] == prev[j];
          } else if i < |prev| {
            var n :| 0 <= n < |init| && init[n].name == prev[i].name;
            assert tasks[i] == prev[i] && tasks[j] == block[j - |prev|];
            assert init[n] == fields[n];
            assert fields[n].name != fields[|fields| - 1].name;
            assert tasks[j].name == e.name;
          } else {
            assert tasks[i] == block[i - |prev|] && tasks[j] == block[j - |prev|];
            assert tasks[i].t == i - |prev| && tasks[j].t == j - |prev|;
          }
        }
      } else {
        assert tasks == prev;
      }
    }
  }

  /** The arguments of one `parse_momentum` call that vary between tasks. */
  datatype MomentumTask = MomentumTask(t: nat, uEra: Field, vEra: Field, wEra: Field, zEra: Field)

  /** u, v and w are all among the inputs. */
  predicate HasMomentum(fields: seq<FieldEntry>) {
    Find(fields, "u").Some? && Find(fields, "v").Some? && Find(fields, "w").Some?
  }

  /**
   * The momentum task list: nothing when u, v or w is missing, otherwise one
   * task per time in ascending order.
   */
  function MomentumTaskList(fields: seq<FieldEntry>, zEra: seq<Field>, ntime: nat): seq<MomentumTask>
    requires CoversTimes(fields, zEra, ntime)
  {
    if !HasMomentum(fields) then []
    else
      var u, v, w := Find(fields, "u").value, Find(fields, "v").value, Find(fields, "w").value;
      seq(ntime, t requires 0 <= t < ntime => MomentumTask(t, u.data[t], v.data[t], w.data[t], zEra[t]))
  }

  /**
   * `create_era5_input`'s momentum `args` loop: it skips momentum when any
   * wind component is missing.
   */
  method BuildMomentumTasks(fields: seq<FieldEntry>, zEra: seq<Field>, ntime: nat) returns (tasks: seq<MomentumTask>)
    requires CoversTimes(fields, zEra, ntime)
    ensures tasks == MomentumTaskList(fields, zEra, ntime)
  {
    tasks := [];
    var u, v, w := Find(fields, "u"), Find(fields, "v"), Find(fields, "w");
    if u.None? || v.None? || w.None? {
      return;
    }
    for t := 0 to ntime
      invariant tasks == seq(t, k requires 0 <= k < t => MomentumTask(k, u.value.data[k], v.value.data[k], w.value.data[k], zEra[k]))
    {
      tasks := tasks + [MomentumTask(t, u.value.data[t], v.value.data[t], w.value.data[t], zEra[t])];
    }
  }

  /**
   * Momentum is gated on all three wind components: with one missing there is
   * no task, otherwise task t is time t of u, v and w.
   */
  lemma MomentumTaskListGated(fields: seq<FieldEntry>, zEra: seq<Field>, ntime: nat)
    requires CoversTimes(fields, zEra, ntime)
    ensures var tasks := MomentumTaskList(fields, zEra, ntime);
      && (!HasMomentum(fields) ==> tasks == [])
      && (HasMomentum(fields) ==> |tasks| == ntime && forall t :: 0 <= t < ntime ==>
            tasks[t].t == t
            && tasks[t].uEra == Find(fields, "u").value.data[t]
            && tasks[t].vEra == Find(fields, "v").value.data[t]
            && tasks[t].wEra == Find(fields, "w").value.data[t]
            && tasks[t].zEra == zEra[t])
  {
  }

  // ---------------------------------------------------------------- task effects

  /** What every task of a run shares. */
  datatype Setup = Setup(
    kern: Kernels, grid: Grid, factors: InterpolationFactors, slices: SliceMap,
    sigmaN: int, domain: Domain, suffix: string, outputDir: string)

  predicate ValidSetup(c: Setup) {
    HasSlices(c.slices, "s") && HasMomentumSlices(c.slices)
  }

  /** The processed field of a scalar task. */
  function ScalarTaskField(c: Setup, task: ScalarTask): Field {
    ScalarField(c.kern, task.fldEra, task.zEra, c.grid.z, GetInterpolationFactors(c.factors, "s"), c.sigmaN, c.domain)
  }

  function ScalarTaskWrites(c: Setup, task: ScalarTask): seq<Write>
    requires ValidSetup(c)
  {
    ScalarWrites(task.name, task.t, ScalarTaskField(c, task), c.slices)
  }

  function ScalarTaskSnapshots(c: Setup, task: ScalarTask): seq<OutputFile> {
    if task.t == 0 then [SaveField(ScalarTaskField(c, task), task.name, c.suffix, c.domain.nPad, c.outputDir)] else []
  }

  /** The writes of a scalar task under setup c, as a function of the task. */
  function ScalarWriter(c: Setup): ScalarTask -> seq<Write> {
    task => if ValidSetup(c) then ScalarTaskWrites(c, task) else []
  }

  /** The writes of a list of scalar tasks run one after the other. */
  function AllScalarWrites(c: Setup, tasks: seq<ScalarTask>): seq<Write> {
    ConcatWrites(ScalarWriter(c), tasks)
  }

  function AllScalarSnapshots(c: Setup, tasks: seq<ScalarTask>): seq<OutputFile>
    decreases |tasks|
  {
    if tasks == [] then []
    else AllScalarSnapshots(c, tasks[..|tasks| - 1]) + ScalarTaskSnapshots(c, tasks[|tasks| - 1])
  }

  /** The inputs of a momentum task; u and v use their own tables, w the scalar one. */
  function MomentumTaskInputs(c: Setup, task: MomentumTask): MomentumInputs {
    MomentumInputs(
      task.uEra, task.vEra, task.wEra, task.zEra, c.grid,
      GetInterpolationFactors(c.factors, "u"), GetInterpolationFactors(c.factors, "v"),
      GetInterpolationFactors(c.factors, "s"), c.sigmaN, c.domain)
  }

  function MomentumTaskBuffers(c: Setup, task: MomentumTask): Buffers {
    MomentumResult(c.kern, MomentumTaskInputs(c, task))
  }

  function MomentumTaskWrites(c: Setup, task: MomentumTask): seq<Write>
    requires ValidSetup(c)
  {
    MomentumWrites(task.t, MomentumTaskBuffers(c, task), c.slices)
  }

  function MomentumTaskSnapshots(c: Setup, task: MomentumTask): seq<OutputFile> {
    if task.t == 0 then MomentumSnapshots(MomentumTaskBuffers(c, task), c.suffix, c.domain.nPad, c.outputDir) else []
  }

  /** The writes of a momentum task under setup c, as a function of the task. */
  function MomentumWriter(c: Setup): MomentumTask -> seq<Write> {
    task => if ValidSetup(c) then MomentumTaskWrites(c, task) else []
  }

  /** The writes of a list of momentum tasks run one after the other. */
  function AllMomentumWrites(c: Setup, tasks: seq<MomentumTask>): seq<Write> {
    ConcatWrites(MomentumWriter(c), tasks)
  }

  function AllMomentumSnapshots(c: Setup, tasks: seq<MomentumTask>): seq<OutputFile>
    decreases |tasks|
  {
    if tasks == [] then []
    else AllMomentumSnapshots(c, tasks[..|tasks| - 1]) + MomentumTaskSnapshots(c, tasks[|tasks| - 1])
  }

  /** The setup `create_era5_input` derives from its arguments. */
  function MakeSetup(
    kern: Kernels, grid: Grid, factors: InterpolationFactors, slices: SliceMap,
    sigmaH: real, dx: real, domain: Domain, suffix: string, outputDir: string): Setup
    requires dx != 0.0
  {
    Setup(kern, grid, factors, slices, SigmaN(sigmaH, dx), domain, suffix, outputDir)
  }

  /** The container after every scalar task and then every momentum task. */
  function FinalRecords(c: Setup, fields: seq<FieldEntry>, zEra: seq<Field>, ntime: nat, initial: Records): Records
    requires ValidSetup(c) && CoversTimes(fields, zEra, ntime)
  {
    ApplyWrites(initial,
      AllScalarWrites(c, ScalarTaskList(fields, zEra, ntime))
      + AllMomentumWrites(c, MomentumTaskList(fields, zEra, ntime)))
  }

  /** The snapshot files, scalar tasks first. */
  function AllSnapshots(c: Setup, fields: seq<FieldEntry>, zEra: seq<Field>, ntime: nat): seq<OutputFile>
    requires CoversTimes(fields, zEra, ntime)
  {
    AllScalarSnapshots(c, ScalarTaskList(fields, zEra, ntime))
    + AllMomentumSnapshots(c, MomentumTaskList(fields, zEra, ntime))
  }

  // ---------------------------------------------------------------- the driver

  /** `parse_scalar_wrapper`: one scalar task with the arguments the driver packed for it. */
  method ParseScalarWrapper(lbc: LbcContainer, c: Setup, task: ScalarTask) returns (files: seq<OutputFile>)
    requires ValidSetup(c)
    requires HasRecord(lbc.records, task.name, task.t)
    modifies lbc
    ensures lbc.records == ApplyWrites(old(lbc.records), ScalarTaskWrites(c, task))
    ensures files == ScalarTaskSnapshots(c, task)
  {
    var snapshot := ParseScalar(
      lbc, task.name, c.suffix, task.t, task.fldEra, task.zEra, c.grid.z,
      GetInterpolationFactors(c.factors, "s"), c.slices, c.sigmaN, c.domain, c.outputDir, c.kern);
    files := if snapshot.Some? then [snapshot.value] else [];
  }

  /** `parse_momentum_wrapper`: one momentum task with the arguments the driver packed for it. */
  method ParseMomentumWrapper(lbc: LbcContainer, c: Setup, task: MomentumTask) returns (files: seq<OutputFile>)
    requires ValidSetup(c)
    requires HasRecord(lbc.records, "u", task.t) && HasRecord(lbc.records, "v", task.t) && HasRecord(lbc.records, "w", task.t)
    modifies lbc
    ensures lbc.records == ApplyWrites(old(lbc.records), MomentumTaskWrites(c, task))
    ensures files == MomentumTaskSnapshots(c, task)
  {
    var report;
    report, files := ParseMomentum(
      lbc, c.suffix, task.t, task.uEra, task.vEra, task.wEra, task.zEra, c.grid,
      GetInterpolationFactors(c.factors, "u"), GetInterpolationFactors(c.factors, "v"),
      GetInterpolationFactors(c.factors, "s"), c.slices, c.sigmaN, c.domain, c.outputDir, c.kern);
  }

  /**
   * `list(executor.map(parse_scalar_wrapper, args))`, run one task after the
   * other: every scalar task's writes and snapshots, in task order.
   */
  method RunScalarTasks(lbc: LbcContainer, c: Setup, tasks: seq<ScalarTask>) returns (files: seq<OutputFile>)
    requires ValidSetup(c)
    requires forall j :: 0 <= j < |tasks| ==> HasRecord(lbc.records, tasks[j].name, tasks[j].t)
    modifies lbc
    ensures lbc.records == ApplyWrites(old(lbc.records), AllScalarWrites(c, tasks))
    ensures files == AllScalarSnapshots(c, tasks)
  {
    files := [];
    for n := 0 to |tasks|
      invariant lbc.records == ApplyWrites(old(lbc.records), AllScalarWrites(c, tasks[..n]))
      invariant files == AllScalarSnapshots(c, tasks[..n])
    {
      ghost var done := AllScalarWrites(c, tasks[..n]);
      assert tasks[..n + 1][..n] == tasks[..n];
      assert ScalarWriter(c)(tasks[n]) == ScalarTaskWrites(c, tasks[n]);
      assert AllScalarWrites(c, tasks[..n + 1]) == done + ScalarTaskWrites(c, tasks[n]);
      assert AllScalarSnapshots(c, tasks[..n + 1]) == files + ScalarTaskSnapshots(c, tasks[n]);
      ApplyWritesKeepsRecord(old(lbc.records), done, tasks[n].name, tasks[n].t);
      ApplyWritesAppend(old(lbc.records), done, ScalarTaskWrites(c, tasks[n]));
      var more := ParseScalarWrapper(lbc, c, tasks[n]);
      files := files + more;
    }
    assert tasks[..|tasks|] == tasks;
  }

  /** One more momentum task appends its writes and its snapshots. */
  lemma MomentumPrefixStep(c: Setup, tasks: seq<MomentumTask>, n: nat)
    requires ValidSetup(c) && n < |tasks|
    ensures AllMomentumWrites(c, tasks[..n + 1]) == AllMomentumWrites(c, tasks[..n]) + MomentumTaskWrites(c, tasks[n])
    ensures AllMomentumSnapshots(c, tasks[..n + 1]) == AllMomentumSnapshots(c, tasks[..n]) + MomentumTaskSnapshots(c, tasks[n])
  {
    assert tasks[..n + 1][..n] == tasks[..n];
    assert MomentumWriter(c)(tasks[n]) == MomentumTaskWrites(c, tasks[n]);
  }

  /** `list(executor.map(parse_momentum_wrapper, args))`, run one task after the other. */
  method RunMomentumTasks(lbc: LbcContainer, c: Setup, tasks: seq<MomentumTask>) returns (files: seq<OutputFile>)
    requires ValidSetup(c)
    requires forall j :: 0 <= j < |tasks| ==>
      HasRecord(lbc.records, "u", tasks[j].t) && HasRecord(lbc.records, "v", tasks[j].t) && HasRecord(lbc.records, "w", tasks[j].t)
    modifies lbc
    ensures lbc.records == ApplyWrites(old(lbc.records), AllMomentumWrites(c, tasks))
    ensures files == AllMomentumSnapshots(c, tasks)
  {
    files := [];
    for n := 0 to |tasks|
      invariant lbc.records == ApplyWrites(old(lbc.records), AllMomentumWrites(c, tasks[..n]))
      invariant files == AllMomentumSnapshots(c, tasks[..n])
    {
      ghost var done := AllMomentumWrites(c, tasks[..n]);
      ApplyWritesKeepsRecord(old(lbc.records), done, "u", tasks[n].t);
      ApplyWritesKeepsRecord(old(lbc.records), done, "v", tasks[n].t);
      ApplyWritesKeepsRecord(old(lbc.records), done, "w", tasks[n].t);
      MomentumPrefixStep(c, tasks, n);
      ApplyWritesAppend(old(lbc.records), done, MomentumTaskWrites(c, tasks[n]));
      var more := ParseMomentumWrapper(lbc, c, tasks[n]);
      files := files + more;
    }
    assert tasks[..|tasks|] == tasks;
  }

  /**
   * `create_era5_input`: derive the filter width, build and run the scalar
   * tasks, then, when u, v and w are all present, the momentum tasks; the
   * filled container is returned together with the snapshot files.
   */
  method CreateEra5Input(
    fields: seq<FieldEntry>, zEra: seq<Field>, ntime: nat, grid: Grid,
    factors: InterpolationFactors, slices: SliceMap, sigmaH: real, dx: real,
    domain: Domain, suffix: string, outputDir: string, kern: Kernels, initial: Records)
    returns (lbc: LbcContainer, files: seq<OutputFile>)
    requires dx != 0.0
    requires CoversTimes(fields, zEra, ntime)
    requires HasSlices(slices, "s") && HasMomentumSlices(slices)
    requires HasAllRecords(initial, fields, ntime)
    ensures fresh(lbc)
    ensures var c := MakeSetup(kern, grid, factors, slices, sigmaH, dx, domain, suffix, outputDir);
      && lbc.records == FinalRecords(c, fields, zEra, ntime, initial)
      && files == AllSnapshots(c, fields, zEra, ntime)
  {
    var sigmaN := SigmaN(sigmaH, dx);
    var c := Setup(kern, grid, factors, slices, sigmaN, domain, suffix, outputDir);
    lbc := new LbcContainer(initial);

    var scalarTasks := BuildScalarTasks(fields, zEra, ntime);
    forall j | 0 <= j < |scalarTasks|
      ensures HasRecord(lbc.records, scalarTasks[j].name, scalarTasks[j].t)
    {
      var k :| 0 <= k < |fields| && fields[k].name == scalarTasks[j].name;
    }
    var scalarFiles := RunScalarTasks(lbc, c, scalarTasks);
    ghost var afterScalars := lbc.records;

    var momentumTasks := BuildMomentumTasks(fields, zEra, ntime);
    forall j | 0 <= j < |momentumTasks|
      ensures HasRecord(lbc.records, "u", momentumTasks[j].t)
      ensures HasRecord(lbc.records, "v", momentumTasks[j].t)
      ensures HasRecord(lbc.records, "w", momentumTasks[j].t)
    {
      MomentumRecordsPresent(fields, zEra, ntime, initial, j);
      ApplyWritesKeepsRecord(initial, AllScalarWrites(c, scalarTasks), "u", momentumTasks[j].t);
      ApplyWritesKeepsRecord(initial, AllScalarWrites(c, scalarTasks), "v", momentumTasks[j].t);
      ApplyWritesKeepsRecord(initial, AllScalarWrites(c, scalarTasks), "w", momentumTasks[j].t);
    }
    var momentumFiles := RunMomentumTasks(lbc, c, momentumTasks);
    ApplyWritesAppend(initial, AllScalarWrites(c, scalarTasks), AllMomentumWrites(c, momentumTasks));
    files := scalarFiles + momentumFiles;
  }

  /** A momentum task exists only when u, v and w are inputs, so their records were allocated. */
  lemma MomentumRecordsPresent(fields: seq<FieldEntry>, zEra: seq<Field>, ntime: nat, initial: Records, j: nat)
    requires CoversTimes(fields, zEra, ntime) && HasAllRecords(initial, fields, ntime)
    requires j < |MomentumTaskList(fields, zEra, ntime)|
    ensures var t := MomentumTaskList(fields, zEra, ntime)[j].t;
      HasRecord(initial, "u", t) && HasRecord(initial, "v", t) && HasRecord(initial, "w", t)
  {
    var ku :| 0 <= ku < |fields| && fields[ku] == Find(fields, "u").value;
    var kv :| 0 <= kv < |fields| && fields[kv] == Find(fields, "v").value;
    var kw :| 0 <= kw < |fields| && fields[kw] == Find(fields, "w").value;
    assert MomentumTaskList(fields, zEra, ntime)[j].t == j < ntime;
  }

  // ------------------------------------------------- the driver as written

  /**
   * `create_era5_input` as written: the container it builds and fills is
   * neither saved nor returned, so only the snapshot files leave the call.
   */
  method CreateEra5InputAsWritten(
    fields: seq<FieldEntry>, zEra: seq<Field>, ntime: nat, grid: Grid,
    factors: InterpolationFactors, slices: SliceMap, sigmaH: real, dx: real,
    domain: Domain, suffix: string, outputDir: string, kern: Kernels, initial: Records)
    returns (files: seq<OutputFile>)
    requires dx != 0.0
    requires CoversTimes(fields, zEra, ntime)
    requires HasSlices(slices, "s") && HasMomentumSlices(slices)
    requires HasAllRecords(initial, fields, ntime)
    ensures files == AllSnapshots(MakeSetup(kern, grid, factors, slices, sigmaH, dx, domain, suffix, outputDir), fields, zEra, ntime)
  {
    var lbc;
    lbc, files := CreateEra5Input(fields, zEra, ntime, grid, factors, slices, sigmaH, dx, domain, suffix, outputDir, kern, initial);
  }

  /** The scalar snapshots do not depend on the boundary slices. */
  lemma {:induction false} ScalarSnapshotsIgnoreSlices(c: Setup, slices: SliceMap, tasks: seq<ScalarTask>)
    ensures AllScalarSnapshots(c, tasks) == AllScalarSnapshots(c.(slices := slices), tasks)
    decreases |tasks|
  {
    if tasks != [] {
      ScalarSnapshotsIgnoreSlices(c, slices, tasks[..|tasks| - 1]);
    }
  }

  /** The momentum snapshots do not depend on the boundary slices. */
  lemma {:induction false} MomentumSnapshotsIgnoreSlices(c: Setup, slices: SliceMap, tasks: seq<MomentumTask>)
    ensures AllMomentumSnapshots(c, tasks) == AllMomentumSnapshots(c.(slices := slices), tasks)
    decreases |tasks|
  {
    if tasks != [] {
      MomentumSnapshotsIgnoreSlices(c, slices, tasks[..|tasks| - 1]);
    }
  }

  /**
   * Everything `create_era5_input` as written hands back is the same for any
   * choice of boundary slices (and, by its signature, for any initial
   * container): the lateral boundary bands reach no output.
   */
  lemma SnapshotsIgnoreSlices(c: Setup, slices: SliceMap, fields: seq<FieldEntry>, zEra: seq<Field>, ntime: nat)
    requires CoversTimes(fields, zEra, ntime)
    ensures AllSnapshots(c, fields, zEra, ntime) == AllSnapshots(c.(slices := slices), fields, zEra, ntime)
  {
    ScalarSnapshotsIgnoreSlices(c, slices, ScalarTaskList(fields, zEra, ntime));
    MomentumSnapshotsIgnoreSlices(c, slices, MomentumTaskList(fields, zEra, ntime));
  }
}
