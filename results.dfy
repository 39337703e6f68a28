/**
 * What the LBC container holds once `create_era5_input` has run every task:
 * record t of every boundary field of a scalar holds that scalar's band at
 * time t, record t of every band of u, v and w holds the band of the momentum
 * task for time t, every other record keeps its allocated value, and the
 * tasks' write sets are pairwise disjoint, so the order in which the executor
 * finishes them does not change the result.
 */
module Results {
  import opened Slices
  import opened Fields
  import opened Lbc
  import opened Kernels
  import opened Pipeline
  import opened Driver

  // ---------------------------------------------------------------- scalar tasks

  /** A scalar task writes record t of side s of `name` exactly when it is the task for (name, t). */
  lemma ScalarTaskWritesLookup(c: Setup, task: ScalarTask, name: string, t: nat, s: Side)
    requires ValidSetup(c)
    ensures Lookup(ScalarTaskWrites(c, task), SideKey(name, s), t) ==
      if task.name == name && task.t == t then Some(Sub(ScalarTaskField(c, task), c.slices[SideKey("s", s)]))
      else None
  {
    ScalarWritesLookup(task.name, task.t, ScalarTaskField(c, task), c.slices, SideKey(name, s), t);
    SideOfKey(task.name, name, s);
  }

  /** Among distinct scalar tasks, no task but task j writes task j's records. */
  lemma OtherScalarTasksMiss(c: Setup, tasks: seq<ScalarTask>, j: nat, s: Side)
    requires ValidSetup(c) && DistinctTasks(tasks) && j < |tasks|
    ensures forall i :: 0 <= i < |tasks| && i != j ==>
      Lookup(ScalarWriter(c)(tasks[i]), SideKey(tasks[j].name, s), tasks[j].t).None?
  {
    forall i | 0 <= i < |tasks| && i != j
      ensures Lookup(ScalarWriter(c)(tasks[i]), SideKey(tasks[j].name, s), tasks[j].t).None?
    {
      assert tasks[i].name != tasks[j].name || tasks[i].t != tasks[j].t;
      ScalarTaskWritesLookup(c, tasks[i], tasks[j].name, tasks[j].t, s);
    }
  }

  /** Scalar tasks leave record r of `key` alone when none of them owns it. */
  lemma AllScalarWritesMiss(c: Setup, tasks: seq<ScalarTask>, key: string, r: nat)
    requires ValidSetup(c)
    requires forall j, s :: 0 <= j < |tasks| ==> key != SideKey(tasks[j].name, s) || tasks[j].t != r
    ensures Lookup(AllScalarWrites(c, tasks), key, r).None?
  {
    forall i | 0 <= i < |tasks|
      ensures Lookup(ScalarWriter(c)(tasks[i]), key, r).None?
    {
      ScalarWritesLookup(tasks[i].name, tasks[i].t, ScalarTaskField(c, tasks[i]), c.slices, key, r);
    }
    ConcatWritesMiss(ScalarWriter(c), tasks, key, r);
  }

  /** The boundary field of a scalar is no band of u, v or w. */
  lemma ScalarKeyIsNoBand(name: string, s: Side)
    requires !IsMomentum(name)
    ensures ComponentSideOf(SideKey(name, s)).None?
  {
    SideOfKey("u", name, s);
    SideOfKey("v", name, s);
    SideOfKey("w", name, s);
  }

  // ---------------------------------------------------------------- momentum tasks

  /** No two momentum tasks are for the same time. */
  predicate DistinctTimes(tasks: seq<MomentumTask>) {
    forall i, j :: 0 <= i < j < |tasks| ==> tasks[i].t != tasks[j].t
  }

  /** A momentum task writes record r of `key` exactly when r is its time and `key` is a band. */
  lemma MomentumTaskWritesLookup(c: Setup, task: MomentumTask, key: string, r: nat)
    requires ValidSetup(c)
    ensures Lookup(MomentumTaskWrites(c, task), key, r) ==
      match ComponentSideOf(key)
      case Some(cs) => if r == task.t then Some(Sub(Select(MomentumTaskBuffers(c, task), cs.0), c.slices[key])) else None
      case None => None
  {
    MomentumWritesUpToLookup(task.t, MomentumTaskBuffers(c, task), c.slices, |Sides|, key, r);
  }

  /** Momentum tasks leave record r of `key` alone when it is no band or no task is for time r. */
  lemma AllMomentumWritesMiss(c: Setup, tasks: seq<MomentumTask>, key: string, r: nat)
    requires ValidSetup(c)
    requires ComponentSideOf(key).None? || forall j :: 0 <= j < |tasks| ==> tasks[j].t != r
    ensures Lookup(AllMomentumWrites(c, tasks), key, r).None?
  {
    forall i | 0 <= i < |tasks|
      ensures Lookup(MomentumWriter(c)(tasks[i]), key, r).None?
    {
      MomentumTaskWritesLookup(c, tasks[i], key, r);
    }
    ConcatWritesMiss(MomentumWriter(c), tasks, key, r);
  }

  /** Among momentum tasks for distinct times, no task but task j writes record `tasks[j].t`. */
  lemma OtherMomentumTasksMiss(c: Setup, tasks: seq<MomentumTask>, j: nat, key: string)
    requires ValidSetup(c) && DistinctTimes(tasks) && j < |tasks|
    ensures forall i :: 0 <= i < |tasks| && i != j ==> Lookup(MomentumWriter(c)(tasks[i]), key, tasks[j].t).None?
  {
    forall i | 0 <= i < |tasks| && i != j
      ensures Lookup(MomentumWriter(c)(tasks[i]), key, tasks[j].t).None?
    {
      assert tasks[i].t != tasks[j].t;
      MomentumTaskWritesLookup(c, tasks[i], key, tasks[j].t);
    }
  }

  // ---------------------------------------------------------------- the final container

  /**
   * After `create_era5_input`, record t of side s of the scalar of task j
   * holds side s's band of that task's processed field, t being the task's
   * time (`ScalarTaskListAt` says which scalar and time task j is).
   */
  lemma FinalScalarRecord(
    c: Setup, fields: seq<FieldEntry>, zEra: seq<Field>, ntime: nat, initial: Records, j: nat, s: Side)
    requires ValidSetup(c) && CoversTimes(fields, zEra, ntime) && DistinctNames(fields)
    requires HasAllRecords(initial, fields, ntime)
    requires j < |ScalarTaskList(fields, zEra, ntime)|
    ensures var task := ScalarTaskList(fields, zEra, ntime)[j];
      var key, fin := SideKey(task.name, s), FinalRecords(c, fields, zEra, ntime, initial);
      && key in fin && task.t < |fin[key]|
      && fin[key][task.t] == Sub(ScalarTaskField(c, task), c.slices[SideKey("s", s)])
  {
    var tasks := ScalarTaskList(fields, zEra, ntime);
    var mtasks := MomentumTaskList(fields, zEra, ntime);
    var sw, mw := AllScalarWrites(c, tasks), AllMomentumWrites(c, mtasks);
    var task := tasks[j];
    var key := SideKey(task.name, s);
    ScalarTaskListDistinct(fields, zEra, ntime);
    OtherScalarTasksMiss(c, tasks, j, s);
    ConcatWritesOwn(ScalarWriter(c), tasks, j, key, task.t);
    ScalarTaskWritesLookup(c, task, task.name, task.t, s);
    ScalarKeyIsNoBand(task.name, s);
    AllMomentumWritesMiss(c, mtasks, key, task.t);
    LookupAppend(sw, mw, key, task.t);
    var n :| 0 <= n < |fields| && fields[n].name == task.name;
    assert HasRecord(initial, fields[n].name, task.t);
    ApplyWritesAt(initial, sw + mw, key, task.t);
  }

  /**
   * After `create_era5_input`, when u, v and w are inputs, record t of side s
   * of component cp holds that band of cp as the momentum pipeline left it
   * for time t (`MomentumTaskListGated` says what task t is).
   */
  lemma FinalMomentumRecord(
    c: Setup, fields: seq<FieldEntry>, zEra: seq<Field>, ntime: nat, initial: Records,
    t: nat, cp: Component, s: Side)
    requires ValidSetup(c) && CoversTimes(fields, zEra, ntime)
    requires HasAllRecords(initial, fields, ntime)
    requires t < |MomentumTaskList(fields, zEra, ntime)|
    ensures var task := MomentumTaskList(fields, zEra, ntime)[t];
      var key, fin := BandKey(cp, s), FinalRecords(c, fields, zEra, ntime, initial);
      && key in fin && t < |fin[key]|
      && fin[key][t] == Sub(Select(MomentumTaskBuffers(c, task), cp), c.slices[key])
  {
    var tasks := ScalarTaskList(fields, zEra, ntime);
    var mtasks := MomentumTaskList(fields, zEra, ntime);
    var sw, mw := AllScalarWrites(c, tasks), AllMomentumWrites(c, mtasks);
    var key := BandKey(cp, s);
    MomentumTaskListGated(fields, zEra, ntime);
    assert DistinctTimes(mtasks);
    OtherMomentumTasksMiss(c, mtasks, t, key);
    ConcatWritesOwn(MomentumWriter(c), mtasks, t, key, t);
    ComponentSideOfBandKey(cp, s);
    MomentumTaskWritesLookup(c, mtasks[t], key, t);
    LookupAppend(sw, mw, key, t);
    MomentumRecordsPresent(fields, zEra, ntime, initial, t);
    assert HasRecord(initial, ComponentName(cp), t);
    ApplyWritesAt(initial, sw + mw, key, t);
  }

  /** With u, v and w among the inputs, every band key is a boundary field of an input. */
  lemma BandKeysAreInputs(fields: seq<FieldEntry>, cp: Component, s: Side)
    requires HasMomentum(fields)
    ensures exists n :: 0 <= n < |fields| && BandKey(cp, s) == SideKey(fields[n].name, s)
  {
    var e := Find(fields, ComponentName(cp)).value;
    var n :| 0 <= n < |fields| && fields[n] == e;
    assert BandKey(cp, s) == SideKey(fields[n].name, s);
  }

  /**
   * Every other record keeps its allocated value: records at times from
   * `ntime` on, and records of keys that are no boundary field of an input.
   */
  lemma FinalRecordsElsewhere(
    c: Setup, fields: seq<FieldEntry>, zEra: seq<Field>, ntime: nat, initial: Records,
    key: string, r: nat)
    requires ValidSetup(c) && CoversTimes(fields, zEra, ntime)
    requires key in initial && r < |initial[key]|
    requires || r >= ntime
             || (forall n, s :: 0 <= n < |fields| ==> key != SideKey(fields[n].name, s))
             || (!HasMomentum(fields) && ComponentSideOf(key).Some?)
    ensures FinalRecords(c, fields, zEra, ntime, initial)[key][r] == initial[key][r]
  {
    var tasks := ScalarTaskList(fields, zEra, ntime);
    var mtasks := MomentumTaskList(fields, zEra, ntime);
    var sw, mw := AllScalarWrites(c, tasks), AllMomentumWrites(c, mtasks);
    forall j, s | 0 <= j < |tasks|
      ensures key != SideKey(tasks[j].name, s) || tasks[j].t != r
    {
      var n :| 0 <= n < |fields| && fields[n].name == tasks[j].name;
      if !IsMomentum(tasks[j].name) { ScalarKeyIsNoBand(tasks[j].name, s); }
    }
    AllScalarWritesMiss(c, tasks, key, r);
    MomentumTaskListGated(fields, zEra, ntime);
    if r < ntime && HasMomentum(fields) {
      forall cp: Component, s: Side
        ensures key != BandKey(cp, s)
      {
        BandKeysAreInputs(fields, cp, s);
      }
    }
    AllMomentumWritesMiss(c, mtasks, key, r);
    LookupAppend(sw, mw, key, r);
    ApplyWritesAt(initial, sw + mw, key, r);
  }

  // ---------------------------------------------------------------- order independence

  /** Two different scalar tasks of a run write disjoint records, so either may finish first. */
  lemma ScalarTasksCommute(c: Setup, fields: seq<FieldEntry>, zEra: seq<Field>, ntime: nat, recs: Records, i: nat, j: nat)
    requires ValidSetup(c) && CoversTimes(fields, zEra, ntime) && DistinctNames(fields)
    requires i < j < |ScalarTaskList(fields, zEra, ntime)|
    ensures var tasks := ScalarTaskList(fields, zEra, ntime);
      var a, b := ScalarTaskWrites(c, tasks[i]), ScalarTaskWrites(c, tasks[j]);
      ApplyWrites(ApplyWrites(recs, a), b) == ApplyWrites(ApplyWrites(recs, b), a)
  {
    var tasks := ScalarTaskList(fields, zEra, ntime);
    ScalarTaskListDistinct(fields, zEra, ntime);
    ScalarWritesDisjoint(
      tasks[i].name, tasks[i].t, ScalarTaskField(c, tasks[i]),
      tasks[j].name, tasks[j].t, ScalarTaskField(c, tasks[j]), c.slices);
    ApplyWritesCommute(recs, ScalarTaskWrites(c, tasks[i]), ScalarTaskWrites(c, tasks[j]));
  }

  /** Two different momentum tasks of a run write disjoint records, so either may finish first. */
  lemma MomentumTasksCommute(c: Setup, fields: seq<FieldEntry>, zEra: seq<Field>, ntime: nat, recs: Records, i: nat, j: nat)
    requires ValidSetup(c) && CoversTimes(fields, zEra, ntime)
    requires i < j < |MomentumTaskList(fields, zEra, ntime)|
    ensures var tasks := MomentumTaskList(fields, zEra, ntime);
      var a, b := MomentumTaskWrites(c, tasks[i]), MomentumTaskWrites(c, tasks[j]);
      ApplyWrites(ApplyWrites(recs, a), b) == ApplyWrites(ApplyWrites(recs, b), a)
  {
    var tasks := MomentumTaskList(fields, zEra, ntime);
    MomentumTaskListGated(fields, zEra, ntime);
    MomentumWritesDisjoint(
      tasks[i].t, MomentumTaskBuffers(c, tasks[i]), tasks[j].t, MomentumTaskBuffers(c, tasks[j]), c.slices);
    ApplyWritesCommute(recs, MomentumTaskWrites(c, tasks[i]), MomentumTaskWrites(c, tasks[j]));
  }

  /** A scalar task and a momentum task write disjoint records, so either may finish first. */
  lemma ScalarMomentumTasksCommute(c: Setup, fields: seq<FieldEntry>, zEra: seq<Field>, ntime: nat, recs: Records, i: nat, j: nat)
    requires ValidSetup(c) && CoversTimes(fields, zEra, ntime)
    requires i < |ScalarTaskList(fields, zEra, ntime)| && j < |MomentumTaskList(fields, zEra, ntime)|
    ensures var a := ScalarTaskWrites(c, ScalarTaskList(fields, zEra, ntime)[i]);
      var b := MomentumTaskWrites(c, MomentumTaskList(fields, zEra, ntime)[j]);
      ApplyWrites(ApplyWrites(recs, a), b) == ApplyWrites(ApplyWrites(recs, b), a)
  {
    var st := ScalarTaskList(fields, zEra, ntime)[i];
    var mt := MomentumTaskList(fields, zEra, ntime)[j];
    ScalarMomentumDisjoint(st.name, st.t, ScalarTaskField(c, st), mt.t, MomentumTaskBuffers(c, mt), c.slices);
    ApplyWritesCommute(recs, ScalarTaskWrites(c, st), MomentumTaskWrites(c, mt));
  }
}
