/**
 * Python's basic slicing (`xs[start:stop]`, step 1) on sequences, as used by the
 * numpy expressions of the ERA5 input generator: negative bounds count from the
 * end, out-of-range bounds are clamped, and a stop before the start gives an
 * empty slice.
 */
module Slices {

  datatype Option<+T> = None | Some(value: T)

  /** `start:stop`, either bound possibly omitted. */
  datatype Slice = Slice(start: Option<int>, stop: Option<int>)

  /** `:`, the whole axis. */
  const All: Slice := Slice(None, None)

  /** Python's adjustment of one given bound against an axis of length n. */
  function Bound(b: int, n: nat): (r: nat)
    ensures r <= n
    ensures 0 <= b <= n ==> r == b
    ensures -(n as int) <= b < 0 ==> r == n + b
    ensures b > n ==> r == n
    ensures b < -(n as int) ==> r == 0
  {
    if b < 0 then (if b + n < 0 then 0 else b + n)
    else if b > n then n
    else b
  }

  /** The half-open index range `[lo, hi)` that slice `s` selects on an axis of length n. */
  function Range(s: Slice, n: nat): (r: (nat, nat))
    ensures r.0 <= r.1 <= n
    ensures r.0 == (if s.start.Some? then Bound(s.start.value, n) else 0)
    ensures s.stop.None? ==> r.1 == n
    ensures s.stop.Some? ==> r.1 == (if Bound(s.stop.value, n) < r.0 then r.0 else Bound(s.stop.value, n))
  {
    var lo := if s.start.Some? then Bound(s.start.value, n) else 0;
    var hi := if s.stop.Some? then Bound(s.stop.value, n) else n;
    (lo, if hi < lo then lo else hi)
  }

  /** `xs[s]`. */
  function Take<T>(xs: seq<T>, s: Slice): (r: seq<T>)
    ensures |r| == Range(s, |xs|).1 - Range(s, |xs|).0
    ensures forall i :: 0 <= i < |r| ==> r[i] == xs[Range(s, |xs|).0 + i]
  {
    var rg := Range(s, |xs|);
    xs[rg.0 .. rg.1]
  }

  /**
   * `p:-p` with p > 0 keeps the middle of an axis, dropping p entries at each
   * end; with p == 0 it is `0:0`, the empty slice.
   */
  lemma SymmetricRange(p: nat, n: nat)
    requires 2 * p <= n
    ensures p > 0 ==> Range(Slice(Some(p), Some(-(p as int))), n) == (p, n - p)
    ensures p == 0 ==> Range(Slice(Some(p), Some(-(p as int))), n) == (0, 0)
  {
  }

  /** `:-1` drops the last entry of a non-empty axis. */
  lemma DropLast<T>(xs: seq<T>)
    requires |xs| > 0
    ensures Take(xs, Slice(None, Some(-1))) == xs[..|xs| - 1]
  {
  }
}
