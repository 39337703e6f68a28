# ERA5 to LES input: orchestration model

This project models how `microhhpy` turns ERA5 reanalysis fields into initial
and lateral-boundary input for a MicroHH large-eddy simulation. The model
covers the orchestration layer of `microhhpy/openbc/input_from_era5.py`:

- `get_interpolation_factors` picks the horizontal interpolation-factor table
  (u, v or scalar location) for a field name.
- `save_3d_field` builds the name of an initial-field file and strips the
  halo of `n_pad` cells from a padded field.
- `parse_scalar` handles one scalar at one time. It interpolates, filters when
  `sigma_n > 0`, writes the initial snapshot at `t == 0`, and stores the
  west/east/south/north bands into record `t` of the LBC dataset.
- `parse_momentum` handles u, v and w at one time. Its steps run in this order:
  interpolate, filter, blend w to zero near the surface, correct the
  horizontal divergence, reconstruct w, check the divergence. It then writes
  the snapshots at `t == 0` and the twelve boundary bands.
- `create_era5_input` derives `sigma_n = ceil(sigma_h / dx)`. It builds one
  scalar task per (non-wind field, time) and, only when u, v and w are all
  present, one momentum task per time. It then runs all tasks against one LBC
  container, which it neither saves nor returns.

Modules, one file each:

- `Slices`: Python basic slicing (negative bounds, clamping).
- `Fields`: 3-D fields as `seq<seq<seq<real>>>` and numpy's `f[sk, sj, si]`.
- `Factors`: the factor tables and their dispatch.
- `Output`: the snapshot file name and the interior of a padded field.
- `Lbc`: the LBC container. It is a class whose `records` map sends each
  `{name}_{side}` key to one field per time. Its effect on the container is
  described by a write list: `ApplyWrites` folds the writes, and `Lookup`
  gives the last write to a record.
- `Kernels`: the numerical kernels, which are parameters here. A kernel that
  fills or overwrites a buffer is given by the value it leaves in each cell.
- `Pipeline`: `parse_scalar` and `parse_momentum`. Each method is proved equal
  to a specification: a field function, a step list run by the interpreter
  `Run`, and a write list.
- `Driver`: `create_era5_input`, its task lists and its sequential runners.
- `Results`: what the container holds after a whole run, and why the tasks
  may finish in any order.

## Model

| member | source | states |
|---|---|---|
| Factors.GetInterpolationFactors | microhhpy/openbc/input_from_era5.py:103-108 | name `u` gives the u table, `v` the v table, every other name (including `w`) the scalar table |
| Factors.ScalarTableAgreesWithName | microhhpy/openbc/input_from_era5.py:472 | asking with the literal `s` gives the same table as asking with any non-u/v scalar name |
| Slices.Bound | microhhpy/openbc/input_from_era5.py:125 | a slice bound in `[0, n]` is kept, a negative one in `[-n, 0)` counts from the end, a bound above n is clamped to n and one below -n to 0 |
| Slices.Range | microhhpy/openbc/input_from_era5.py:125 | the selected range is `[lo, hi)` with lo the resolved start (0 when omitted) and hi the resolved stop (the axis end when omitted) raised to lo when it falls below it, so it never leaves the axis |
| Slices.Take | microhhpy/openbc/input_from_era5.py:125 | `xs[s]` has the range's length and element i is `xs[lo + i]` |
| Slices.SymmetricRange | microhhpy/openbc/input_from_era5.py:125 | `p:-p` selects `[p, n - p)` when p > 0 and the empty range when p == 0 |
| Slices.DropLast | microhhpy/openbc/input_from_era5.py:397 | `xs[:-1]` drops exactly the last entry |
| Fields.Tabulate | microhhpy/openbc/input_from_era5.py:182 | a freshly allocated buffer has the requested shape and holds the kernel's value in every cell |
| Fields.Overwrite | microhhpy/openbc/input_from_era5.py:198 | an in-place kernel keeps the buffer's shape and leaves its value in every cell |
| Fields.SubAt | microhhpy/openbc/input_from_era5.py:207 | `f[sk, sj, si]` has the ranges' extents, and element (k, j, i) is `f` at the ranges' offsets |
| Output.OutputPath | microhhpy/openbc/input_from_era5.py:120-123 | the path is `dir/name` followed by `_suffix` only when the suffix is non-empty, then `.0000000`; length, prefix, suffix part and extension are all stated |
| Output.OutputPathInjective | microhhpy/openbc/input_from_era5.py:120-123 | with the directory and suffix fixed, different names give different files |
| Output.InteriorAt | microhhpy/openbc/input_from_era5.py:125 | the interior has shape `(nk, nj - 2 n_pad, ni - 2 n_pad)` and element (k, j, i) is padded element (k, j + n_pad, i + n_pad) |
| Output.InteriorAsWrittenWithHalo | microhhpy/openbc/input_from_era5.py:125 | with n_pad > 0, the slice as written is the intended interior |
| Output.InteriorAsWrittenWithoutHalo | microhhpy/openbc/input_from_era5.py:125 | with n_pad == 0, the slice as written has empty levels, while the intended interior is the whole field |
| Output.SaveField | microhhpy/openbc/input_from_era5.py:111-125 | the snapshot goes to `OutputPath`; on every box shape its data is the field with its halo stripped; with n_pad > 0 the data is exactly the slice as written |
| Kernels.Interpolate | microhhpy/openbc/input_from_era5.py:182-194 | the interpolated buffer has shape (levels of `z_les`, `jtot`, `itot`) |
| Kernels.GaussianFilter | microhhpy/openbc/input_from_era5.py:197-198 | filtering in place keeps the buffer's shape |
| Kernels.BlendW | microhhpy/openbc/input_from_era5.py:341 | blending in place keeps the shape of w |
| Kernels.CorrectDivUV | microhhpy/openbc/input_from_era5.py:345-356 | the correction keeps the shapes of u and v |
| Kernels.CalcW | microhhpy/openbc/input_from_era5.py:361-374 | the reconstruction keeps the shape of w |
| Lbc.SideKeyInjective | microhhpy/openbc/input_from_era5.py:205-207 | `{name}_{side}` determines both the name and the side |
| Lbc.SideOf | microhhpy/openbc/input_from_era5.py:205-207 | recognises exactly the four side keys of a prefix |
| Lbc.SideOfKey | microhhpy/openbc/input_from_era5.py:205-207 | a side key is recognised under its own prefix with its own side, and under no other prefix |
| Lbc.ApplyWrites | microhhpy/openbc/input_from_era5.py:205-207 | writes keep the container's keys and record counts |
| Lbc.Lookup | microhhpy/openbc/input_from_era5.py:205-207 | there is no last write exactly when no write hits the record; a found slab was written to that record |
| Lbc.ApplyWritesAt | microhhpy/openbc/input_from_era5.py:205-207 | after the writes a record holds its last written slab, or its old value if it was never written |
| Lbc.ApplyWritesAppend | microhhpy/openbc/input_from_era5.py:499-500 | running two write lists one after the other is running their concatenation |
| Lbc.ApplyWritesSnoc | microhhpy/openbc/input_from_era5.py:207 | one more write is one more `Put` |
| Lbc.LookupAppend | microhhpy/openbc/input_from_era5.py:499-500 | in `a + b`, the last write to a record comes from `b` if `b` writes it at all |
| Lbc.ConcatWritesMiss | microhhpy/openbc/input_from_era5.py:499-500 | a record that no task writes is not written by the whole task list |
| Lbc.ConcatWritesOwn | microhhpy/openbc/input_from_era5.py:499-500 | a record that only task j writes ends up as task j wrote it, wherever j stands in the list |
| Lbc.ApplyWritesCommute | microhhpy/openbc/input_from_era5.py:499-500 | two write lists with disjoint records give the same container in either order |
| Lbc.ApplyWritesIdempotent | microhhpy/openbc/input_from_era5.py:205-207 | running a task's writes twice leaves the container as running them once |
| Lbc.LbcContainer.constructor | microhhpy/openbc/input_from_era5.py:451-462 | the container starts with the allocated records |
| Lbc.LbcContainer.Store | microhhpy/openbc/input_from_era5.py:207 | `lbc_ds[key][t] = slab` replaces exactly record t of key |
| Pipeline.ApplyWritesKeepsRecord | microhhpy/openbc/input_from_era5.py:499-500 | the records a task needs are still present after any other tasks' writes |
| Pipeline.ScalarField | microhhpy/openbc/input_from_era5.py:181-198 | the scalar buffer has shape (levels of `z_les`, `jtot`, `itot`) |
| Pipeline.ScalarFilterIff | microhhpy/openbc/input_from_era5.py:197-198 | with sigma_n <= 0 the buffer is the interpolated field; with sigma_n > 0 every cell is the filter's value on it |
| Pipeline.ScalarWritesLookup | microhhpy/openbc/input_from_era5.py:205-207 | a scalar task writes record r of a key exactly when r == t and the key is `{name}_{side}`, and the slab is that side's `s_{side}` band |
| Pipeline.ScalarWritesEffect | microhhpy/openbc/input_from_era5.py:205-207 | a scalar task changes record t of its own four boundary fields to their bands, and no other record |
| Pipeline.ParseScalar | microhhpy/openbc/input_from_era5.py:128-207 | returns the snapshot of the processed field only at t == 0, and leaves the container as the task's four writes make it |
| Pipeline.StoreScalarBands | microhhpy/openbc/input_from_era5.py:205-207 | the side loop's four stores together are the scalar write list |
| Pipeline.RunAppend | microhhpy/openbc/input_from_era5.py:298-391 | running two step lists one after the other is running their concatenation |
| Pipeline.MomentumStepsOrdered | microhhpy/openbc/input_from_era5.py:236-241 | the steps run stage by stage: interpolate, filter, blend, correct, reconstruct, check |
| Pipeline.MomentumStepsPresent | microhhpy/openbc/input_from_era5.py:298-391 | every component is interpolated; every component is filtered if and only if sigma_n > 0; blend, correct, reconstruct and check all occur |
| Pipeline.MomentumStepsDistinct | microhhpy/openbc/input_from_era5.py:298-391 | no step runs twice |
| Pipeline.MomentumSnapshotLevels | microhhpy/openbc/input_from_era5.py:394-397 | the u and v snapshots hold all levels without halo; the w snapshot holds every half level but the top one |
| Pipeline.InterpShape | microhhpy/openbc/input_from_era5.py:293-330 | after the interpolation stage u and v have one level per full level and w one per half level, all of (`jtot`, `itot`) columns |
| Pipeline.ExecKeepsShape | microhhpy/openbc/input_from_era5.py:332-391 | every step other than interpolation keeps the shapes of u, v and w |
| Pipeline.RunKeepsShape | microhhpy/openbc/input_from_era5.py:332-391 | a run of steps without interpolation keeps the shapes of u, v and w |
| Pipeline.MomentumResultShape | microhhpy/openbc/input_from_era5.py:293-391 | the momentum buffers end with u and v on the full levels and w on the half levels, as allocated at lines 294-296 |
| Pipeline.MomentumResultSnapshots | microhhpy/openbc/input_from_era5.py:293-397 | with one more half level than full levels, the snapshots of a momentum task hold u and v without halo and w without its top half level and without halo |
| Pipeline.ComponentSideOf | microhhpy/openbc/input_from_era5.py:400-408 | recognises exactly the keys `{u,v,w}_{side}` with their component and side |
| Pipeline.ComponentSideOfBandKey | microhhpy/openbc/input_from_era5.py:400-408 | every band key is recognised as its own component and side |
| Pipeline.SideWritesLookup | microhhpy/openbc/input_from_era5.py:400-408 | one side's writes hit record t of exactly that side's three bands, each with its own component's band |
| Pipeline.MomentumWritesUpToLookup | microhhpy/openbc/input_from_era5.py:400-408 | the first n sides write record t of exactly the bands of those sides |
| Pipeline.MomentumWritesEffect | microhhpy/openbc/input_from_era5.py:400-408 | a momentum task changes record t of the twelve u/v/w bands to the matching component bands, and no other record |
| Pipeline.ScalarWritesDisjoint | microhhpy/openbc/input_from_era5.py:205-207 | scalar tasks with different (name, t) write disjoint records |
| Pipeline.MomentumWritesUpToTargets | microhhpy/openbc/input_from_era5.py:400-408 | every momentum write goes to record t of a u, v or w band |
| Pipeline.MomentumWritesDisjoint | microhhpy/openbc/input_from_era5.py:400-408 | momentum tasks for different times write disjoint records |
| Pipeline.ScalarMomentumDisjoint | microhhpy/openbc/input_from_era5.py:477 | a non-wind scalar task never writes a record that a momentum task writes |
| Pipeline.InterpolateWinds | microhhpy/openbc/input_from_era5.py:293-330 | the interpolation stage equals running the three interpolation steps |
| Pipeline.FilterWinds | microhhpy/openbc/input_from_era5.py:332-336 | the filter stage equals running the filter steps, which are empty when sigma_n <= 0 |
| Pipeline.ProjectWinds | microhhpy/openbc/input_from_era5.py:339-391 | the blend/correct/reconstruct/check stage equals running those four steps, and the report is the check's |
| Pipeline.ParseMomentum | microhhpy/openbc/input_from_era5.py:210-408 | the buffers are the documented step sequence run on fresh buffers; the snapshots exist only at t == 0; the container is changed by the twelve band writes |
| Pipeline.StoreSide | microhhpy/openbc/input_from_era5.py:401-408 | one pass of the side loop stores the u, v and w bands of that side |
| Pipeline.StoreBand | microhhpy/openbc/input_from_era5.py:401-402 | one store appends that band's write to the writes done so far |
| Pipeline.StoreMomentumBands | microhhpy/openbc/input_from_era5.py:399-408 | the side loop's stores together are the momentum write list |
| Driver.SigmaN | microhhpy/openbc/input_from_era5.py:446 | the result is the least integer not below `sigma_h / dx` |
| Driver.FilterIffPositiveWidth | microhhpy/openbc/input_from_era5.py:446-448 | with dx > 0 the filter is on exactly when sigma_h > 0 |
| Driver.Scalars | microhhpy/openbc/input_from_era5.py:476-477 | every entry kept is an input field and not a wind component |
| Driver.ScalarsPrefix | microhhpy/openbc/input_from_era5.py:476-477 | the scalars of a prefix of the inputs lead the scalar list, so the input order is kept |
| Driver.ScalarsComplete | microhhpy/openbc/input_from_era5.py:476-477 | every input field that is not u, v or w is among the scalars |
| Driver.Find | microhhpy/openbc/input_from_era5.py:510 | a found entry is in the input under that name; none means no entry has the name |
| Driver.ScalarTaskList | microhhpy/openbc/input_from_era5.py:475-492 | every task has t < ntime, names an input field, and never names u, v or w |
| Driver.BuildScalarTasks | microhhpy/openbc/input_from_era5.py:475-492 | the nested append loops build exactly the scalar task list |
| Driver.ScalarTaskListAt | microhhpy/openbc/input_from_era5.py:476-492 | the list has (number of scalars) times ntime entries, and entry `m * ntime + t` is scalar m at time t |
| Driver.ScalarTaskListLength | microhhpy/openbc/input_from_era5.py:476-492 | there are ntime tasks per scalar |
| Driver.ScalarTaskListDistinct | microhhpy/openbc/input_from_era5.py:476-492 | no two scalar tasks share a (name, t) pair |
| Driver.BuildMomentumTasks | microhhpy/openbc/input_from_era5.py:510-541 | the gated append loop builds exactly the momentum task list |
| Driver.MomentumTaskListGated | microhhpy/openbc/input_from_era5.py:510-541 | with u, v or w missing there is no task; otherwise there are ntime tasks, and task t is time t of u, v, w and `z_era` |
| Driver.ParseScalarWrapper | microhhpy/openbc/input_from_era5.py:494-495 | one scalar task changes the container by its writes and yields its snapshots |
| Driver.ParseMomentumWrapper | microhhpy/openbc/input_from_era5.py:543-544 | one momentum task changes the container by its writes and yields its snapshots |
| Driver.RunScalarTasks | microhhpy/openbc/input_from_era5.py:499-500 | running the scalar tasks in order applies all their writes in order and collects their snapshots |
| Driver.RunMomentumTasks | microhhpy/openbc/input_from_era5.py:548-549 | running the momentum tasks in order applies all their writes in order and collects their snapshots |
| Driver.CreateEra5Input | microhhpy/openbc/input_from_era5.py:411-552 | the container ends as the scalar writes followed by the momentum writes make it, under sigma_n = ceil(sigma_h / dx); the snapshots are the scalar ones, then the momentum ones |
| Driver.CreateEra5InputAsWritten | microhhpy/openbc/input_from_era5.py:411-552 | the function as written hands back only the snapshot files of all tasks; the filled container does not leave the call |
| Driver.ScalarSnapshotsIgnoreSlices | microhhpy/openbc/input_from_era5.py:128-207 | the scalar snapshots are the same under any boundary slices |
| Driver.MomentumSnapshotsIgnoreSlices | microhhpy/openbc/input_from_era5.py:210-408 | the momentum snapshots are the same under any boundary slices |
| Driver.SnapshotsIgnoreSlices | microhhpy/openbc/input_from_era5.py:451-552 | all snapshot files of a run are the same under any boundary slices, so the boundary bands reach no output of the function as written |
| Driver.MomentumRecordsPresent | microhhpy/openbc/input_from_era5.py:510-541 | a momentum task exists only when u, v and w were allocated records for its time |
| Results.ScalarTaskWritesLookup | microhhpy/openbc/input_from_era5.py:205-207 | a scalar task writes side s of record t of a name exactly when it is the task for that (name, t) |
| Results.OtherScalarTasksMiss | microhhpy/openbc/input_from_era5.py:476-492 | among distinct scalar tasks, no task but j writes task j's records |
| Results.AllScalarWritesMiss | microhhpy/openbc/input_from_era5.py:499-500 | the scalar tasks leave alone a record that none of them owns |
| Results.ScalarKeyIsNoBand | microhhpy/openbc/input_from_era5.py:477 | a scalar's boundary key is never a u, v or w band key |
| Results.MomentumTaskWritesLookup | microhhpy/openbc/input_from_era5.py:400-408 | a momentum task writes record r of a key exactly when r is its time and the key is a band |
| Results.AllMomentumWritesMiss | microhhpy/openbc/input_from_era5.py:548-549 | the momentum tasks leave alone any non-band record, and any record of a time without a task |
| Results.OtherMomentumTasksMiss | microhhpy/openbc/input_from_era5.py:519-541 | among tasks for distinct times, no task but j writes record `tasks[j].t` |
| Results.FinalScalarRecord | microhhpy/openbc/input_from_era5.py:476-500 | after the run, record t of side s of the scalar of task j holds side s's band of that task's processed field |
| Results.FinalMomentumRecord | microhhpy/openbc/input_from_era5.py:510-549 | after the run, record t of every band of u, v and w holds that band of the momentum result for time t |
| Results.BandKeysAreInputs | microhhpy/openbc/input_from_era5.py:510 | when u, v and w are inputs, every band key is a boundary key of an input field |
| Results.FinalRecordsElsewhere | microhhpy/openbc/input_from_era5.py:451-552 | records at times from ntime on, records of keys that belong to no input, and, when momentum is skipped because u, v or w is missing, the records of the wind components that are present keep their allocated values |
| Results.ScalarTasksCommute | microhhpy/openbc/input_from_era5.py:499-500 | two different scalar tasks give the same container in either order |
| Results.MomentumTasksCommute | microhhpy/openbc/input_from_era5.py:548-549 | two different momentum tasks give the same container in either order |
| Results.ScalarMomentumTasksCommute | microhhpy/openbc/input_from_era5.py:499-549 | a scalar task and a momentum task give the same container in either order |

## Left out

- The numerical kernels `interpolate_rect_to_curv`, `gaussian_filter_wrapper`, `blend_w_to_zero_at_sfc`, `correct_div_uv`, `calc_w_from_uv` and `check_divergence` are imported from modules that are not part of this model. They are the `Kernels` parameter. Only their reads, their results' shapes and their order are modelled, not their numerics.
- `Rect_to_curv_interpolation_factors` and `setup_interpolations` are not modelled. The three factor tables are an input.
- `Vertical_grid_2nd` is not part of this model. The LES grid (`z`, `zh`, `dz`, `dzi`, with `rho` and `rhoh`) is an input `Grid`.
- `create_lbc_ds` is not modelled. Its records are an input map, and the model assumes it allocated record t of every side of every input field for every time.
- `setup_lbc_slices` is not modelled. The slice map is an input.
- The `ThreadPoolExecutor` fan-out is modelled as one task after the other. What the model states instead is that the tasks' write sets are pairwise disjoint, so any finishing order gives the same container. Races and thread scheduling are not modelled.
- `tofile` and the other file I/O: a snapshot is returned as an `OutputFile` value (path plus data), not written.
- Logging and the `datetime` timing are left out. The divergence report is returned by `ParseMomentum`, not logged, and the warning for missing momentum is not modelled.
- The `dtype` precision and IEEE floating point are left out. Fields hold reals, and `ceil(sigma_h / dx)` is taken on exact reals.
- The numpy buffers are values, not shared arrays. Each task allocates its own buffers, so this loses no aliasing. An in-place kernel call is a reassignment of the buffer.
- Driver.CreateEra5Input creates the container from the allocated records and returns it. The Python function keeps the dataset local and returns nothing (see Findings); `Driver.CreateEra5InputAsWritten` models that.
- Output.SaveField keeps the intended interior also when `n_pad == 0`, and the pipeline's snapshots are built on it; when `n_pad == 0` the code as written saves levels with no cells (see Findings). Its contract is the slice as written only for `n_pad > 0`.
- Lbc.Put and Lbc.LbcContainer.Store accept a slab of any shape. The model assumes every band already has the shape of the record it goes to. On a mismatch, numpy broadcasting, the dtype cast and the exception are not modelled. In particular, the w records are allocated with `zh[:-1]` levels (line 459), while the w buffer has every half level (line 296).
- Pipeline.MomentumResultSnapshots assumes the grid has one more half level than full levels, as `Vertical_grid_2nd` provides; that grid is an input here.
- Error paths of `create_era5_input` are excluded by preconditions rather than modelled as failures:
  - Driver.SigmaN, Driver.MakeSetup, Driver.CreateEra5Input and Driver.CreateEra5InputAsWritten require `dx != 0.0`. Line 446 divides by `proj_pad.dx` and fails at zero.
  - Driver.CreateEra5Input and Driver.CreateEra5InputAsWritten require `CoversTimes`: every field and `z_era` have a record for every `t < time_era.size`. Lines 484-485 and 524-527 raise an IndexError on a shorter field. The model asks this of u, v and w even when momentum is skipped, and of `z_era` even when no task runs, although the source reads them only then.
  - Driver.CreateEra5Input and Driver.CreateEra5InputAsWritten require every `s_*`, `u_*`, `v_*` and `w_*` slice key. Lines 206 and 400-407 raise a KeyError on a missing key. The model asks for the `s_*` keys even when there is no scalar field, although the source does not read them then, and for the `u_*`, `v_*` and `w_*` keys even when momentum is skipped.
- Kernel failures are not modelled. An exception in a kernel propagates out of `list(executor.map(...))` at lines 500 and 549 and aborts `create_era5_input`. The `Kernels` parameter is total, so no task can fail in the model.
- The commented-out legacy functions after `create_era5_input` are dead code and are not modelled. `microhhpy/io/__init__.py` only re-exports I/O helpers.
- `Kernels.Interpolate`, `Kernels.GaussianFilter`, `Kernels.BlendW`, `Kernels.CorrectDivUV`, `Kernels.CalcW`: their contracts state only the buffer shapes, because the kernels' code is not part of this model.

## Findings

| source | as written | input that shows it | evidently intended | confidence | as-written member | corrected member |
|---|---|---|---|---|---|---|
| microhhpy/openbc/input_from_era5.py:125 | `fld[:, n_pad:-n_pad, n_pad:-n_pad]` | `n_pad == 0` on any field with nj, ni > 0: `0:-0` is `0:0`, so every level of the snapshot is empty | drop `n_pad` halo cells per side, keeping the whole field when `n_pad == 0` | medium, not executed | Output.InteriorAsWritten with Output.InteriorAsWrittenWithoutHalo | Output.Interior with Output.InteriorAt |
| microhhpy/openbc/input_from_era5.py:451-552 | `lbc_ds` is filled by every task but neither written to disk nor returned | any run: by Driver.SnapshotsIgnoreSlices the only output is the same for every choice of boundary slices, so the lateral boundary bands are discarded | save or return the filled `lbc_ds` | low (the caller may be meant to extend this), not executed | Driver.CreateEra5InputAsWritten with Driver.SnapshotsIgnoreSlices | Driver.CreateEra5Input with Results.FinalScalarRecord and Results.FinalMomentumRecord |
