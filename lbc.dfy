/**
 * The lateral-boundary-condition (LBC) container: one time-indexed field per
 * (variable, boundary side), keyed `{name}_{side}`, created with its final
 * shape before any task runs and then only written record by record.
 */
module Lbc {
  import opened Slices
  import opened Fields

  datatype Side = West | East | South | North

  /** The sides in the order the pipelines visit them. */
  const Sides: seq<Side> := [West, East, South, North]

  function SideName(s: Side): string {
    match s
    case West => "west"
    case East => "east"
    case South => "south"
    case North => "north"
  }

  /**
   * `f'{prefix}_{side}'`: the container key of a variable's boundary field
   * (`T_west`) and the key of a slice in the boundary slice map (`s_west`).
   */
  function SideKey(prefix: string, s: Side): string {
    prefix + "_" + SideName(s)
  }

  /** Index of the last underscore in `s`, or -1. */
  function LastUnderscore(s: string): (r: int)
    ensures -1 <= r < |s|
    decreases |s|
  {
    if s == [] then -1
    else if s[|s| - 1] == '_' then |s| - 1
    else LastUnderscore(s[..|s| - 1])
  }

  lemma {:induction false} LastUnderscoreOf(p: string, q: string)
    requires '_' !in q
    ensures LastUnderscore(p + "_" + q) == |p|
    decreases |q|
  {
    var s := p + "_" + q;
    if q != [] {
      assert s[..|s| - 1] == p + "_" + q[..|q| - 1];
      assert s[|s| - 1] == q[|q| - 1];
      LastUnderscoreOf(p, q[..|q| - 1]);
    }
  }

  /**
   * A side key determines both the variable and the side: no side name holds
   * an underscore, so the last underscore of a key separates the two.
   */
  lemma {:induction false} SideKeyInjective(a: string, b: string, s1: Side, s2: Side)
    requires SideKey(a, s1) == SideKey(b, s2)
    ensures a == b && s1 == s2
  {
    var key := SideKey(a, s1);
    LastUnderscoreOf(a, SideName(s1));
    LastUnderscoreOf(b, SideName(s2));
    assert a == key[..|a|] == b;
    assert SideName(s1) == key[|a| + 1..] == SideName(s2);
  }

  /** The side `s` for which `key` is `SideKey(prefix, s)`, if there is one. */
  function SideOf(prefix: string, key: string): (r: Option<Side>)
    ensures r.Some? ==> key == SideKey(prefix, r.value)
    ensures r.None? ==> forall s :: key != SideKey(prefix, s)
  {
    if key == SideKey(prefix, West) then Some(West)
    else if key == SideKey(prefix, East) then Some(East)
    else if key == SideKey(prefix, South) then Some(South)
    else if key == SideKey(prefix, North) then Some(North)
    else None
  }

  /** A side key is recognised under its own prefix and under no other. */
  lemma SideOfKey(p: string, q: string, s: Side)
    ensures SideOf(p, SideKey(q, s)) == if p == q then Some(s) else None
  {
    var r := SideOf(p, SideKey(q, s));
    if r.Some? {
      SideKeyInjective(p, q, r.value, s);
    }
  }

  /** The container's contents: for every key, one field per time record. */
  type Records = map<string, seq<Field>>

  /** `lbc_ds[key][t,:,:,:] = slab`. */
  datatype Write = Write(key: string, t: nat, slab: Field)

  /** One write; a write outside the container changes nothing. */
  function Put(recs: Records, w: Write): Records {
    if w.key in recs && w.t < |recs[w.key]| then recs[w.key := recs[w.key][w.t := w.slab]]
    else recs
  }

  /** The container after a sequence of writes, in order. */
  function ApplyWrites(recs: Records, ws: seq<Write>): (r: Records)
    ensures r.Keys == recs.Keys
    ensures forall key :: key in recs ==> |r[key]| == |recs[key]|
    decreases |ws|
  {
    if ws == [] then recs
    else Put(ApplyWrites(recs, ws[..|ws| - 1]), ws[|ws| - 1])
  }

  /** The slab of the last write to record `t` of `key`, if any. */
  function Lookup(ws: seq<Write>, key: string, t: nat): (r: Option<Field>)
    ensures r.None? <==> forall n :: 0 <= n < |ws| ==> ws[n].key != key || ws[n].t != t
    ensures r.Some? ==> Write(key, t, r.value) in ws
    decreases |ws|
  {
    if ws == [] then None
    else if ws[|ws| - 1].key == key && ws[|ws| - 1].t == t then Some(ws[|ws| - 1].slab)
    else
      var r := Lookup(ws[..|ws| - 1], key, t);
      assert r.Some? ==> Write(key, t, r.value) in ws by {
        if r.Some? { assert ws[..|ws| - 1] <= ws; }
      }
      r
  }

  /**
   * Record `t` of `key` after the writes holds the last slab written to it, and
   * its old value if none was: a write touches exactly its own record.
   */
  lemma {:induction false} ApplyWritesAt(recs: Records, ws: seq<Write>, key: string, t: nat)
    requires key in recs && t < |recs[key]|
    ensures ApplyWrites(recs, ws)[key][t] == match Lookup(ws, key, t) case Some(x) => x case None => recs[key][t]
    decreases |ws|
  {
    if ws != [] {
      ApplyWritesAt(recs, ws[..|ws| - 1], key, t);
    }
  }

  lemma {:induction false} ApplyWritesAppend(recs: Records, a: seq<Write>, b: seq<Write>)
    ensures ApplyWrites(recs, a + b) == ApplyWrites(ApplyWrites(recs, a), b)
    decreases |b|
  {
    if b == [] {
      assert a + b == a;
    } else {
      assert (a + b)[..|a + b| - 1] == a + b[..|b| - 1];
      ApplyWritesAppend(recs, a, b[..|b| - 1]);
    }
  }

  /** One more write after `ws`. */
  lemma ApplyWritesSnoc(recs: Records, ws: seq<Write>, w: Write)
    ensures ApplyWrites(recs, ws + [w]) == Put(ApplyWrites(recs, ws), w)
  {
    assert (ws + [w])[..|ws|] == ws;
  }

  /** The last write in `a + b` is in `b` when `b` writes that record at all. */
  lemma {:induction false} LookupAppend(a: seq<Write>, b: seq<Write>, key: string, t: nat)
    ensures Lookup(a + b, key, t) == if Lookup(b, key, t).Some? then Lookup(b, key, t) else Lookup(a, key, t)
    decreases |b|
  {
    if b != [] {
      assert (a + b)[..|a + b| - 1] == a + b[..|b| - 1];
      LookupAppend(a, b[..|b| - 1], key, t);
    } else {
      assert a + b == a;
    }
  }

  /** The writes of a list of tasks run one after the other, `f(x)` being task x's writes. */
  function ConcatWrites<T>(f: T -> seq<Write>, xs: seq<T>): seq<Write>
    decreases |xs|
  {
    if xs == [] then [] else ConcatWrites(f, xs[..|xs| - 1]) + f(xs[|xs| - 1])
  }

  /** A record that no task writes is not written by the list. */
  lemma {:induction false} ConcatWritesMiss<T>(f: T -> seq<Write>, xs: seq<T>, key: string, t: nat)
    requires forall i :: 0 <= i < |xs| ==> Lookup(f(xs[i]), key, t).None?
    ensures Lookup(ConcatWrites(f, xs), key, t).None?
    decreases |xs|
  {
    if xs != [] {
      var last := |xs| - 1;
      LookupAppend(ConcatWrites(f, xs[..last]), f(xs[last]), key, t);
      ConcatWritesMiss(f, xs[..last], key, t);
    }
  }

  /** A record that only task j writes ends up as task j left it, wherever j stands in the list. */
  lemma {:induction false} ConcatWritesOwn<T>(f: T -> seq<Write>, xs: seq<T>, j: nat, key: string, t: nat)
    requires j < |xs|
    requires forall i :: 0 <= i < |xs| && i != j ==> Lookup(f(xs[i]), key, t).None?
    ensures Lookup(ConcatWrites(f, xs), key, t) == Lookup(f(xs[j]), key, t)
    decreases |xs|
  {
    var last := |xs| - 1;
    LookupAppend(ConcatWrites(f, xs[..last]), f(xs[last]), key, t);
    if j != last {
      ConcatWritesOwn(f, xs[..last], j, key, t);
    } else {
      ConcatWritesMiss(f, xs[..last], key, t);
    }
  }

  /** No record is written by both `a` and `b`. */
  predicate Disjoint(a: seq<Write>, b: seq<Write>) {
    forall m, n :: 0 <= m < |a| && 0 <= n < |b| ==> a[m].key != b[n].key || a[m].t != b[n].t
  }

  /**
   * Writes to disjoint records commute: two tasks whose write sets are
   * disjoint leave the same container whichever runs first.
   */
  lemma {:induction false} ApplyWritesCommute(recs: Records, a: seq<Write>, b: seq<Write>)
    requires Disjoint(a, b)
    ensures ApplyWrites(ApplyWrites(recs, a), b) == ApplyWrites(ApplyWrites(recs, b), a)
  {
    var ab := ApplyWrites(ApplyWrites(recs, a), b);
    var ba := ApplyWrites(ApplyWrites(recs, b), a);
    ApplyWritesAppend(recs, a, b);
    ApplyWritesAppend(recs, b, a);
    forall key | key in ab
      ensures ab[key] == ba[key]
    {
      forall t | 0 <= t < |ab[key]|
        ensures ab[key][t] == ba[key][t]
      {
        ApplyWritesAt(recs, a + b, key, t);
        ApplyWritesAt(recs, b + a, key, t);
        LookupAppend(a, b, key, t);
        LookupAppend(b, a, key, t);
      }
    }
  }

  /** Running the same writes twice leaves the container as running them once. */
  lemma {:induction false} ApplyWritesIdempotent(recs: Records, ws: seq<Write>)
    ensures ApplyWrites(ApplyWrites(recs, ws), ws) == ApplyWrites(recs, ws)
  {
    var once := ApplyWrites(recs, ws);
    var twice := ApplyWrites(once, ws);
    forall key | key in twice
      ensures twice[key] == once[key]
    {
      forall t | 0 <= t < |twice[key]|
        ensures twice[key][t] == once[key][t]
      {
        ApplyWritesAt(recs, ws, key, t);
        ApplyWritesAt(once, ws, key, t);
      }
    }
  }

  /**
   * The LBC dataset. Its keys and record counts are fixed when it is created;
   * the pipelines only overwrite single records.
   */
  class LbcContainer {
    var records: Records

    /** The container as `create_lbc_ds` allocates it. */
    constructor(initial: Records)
      ensures records == initial
    {
      records := initial;
    }

    /** `lbc_ds[key][t,:,:,:] = slab`. */
    method Store(key: string, t: nat, slab: Field)
      requires key in records && t < |records[key]|
      modifies this
      ensures records == Put(old(records), Write(key, t, slab))
      ensures records == old(records)[key := old(records)[key][t := slab]]
    {
      records := records[key := records[key][t := slab]];
    }
  }
}
