/**
  Element-wise clipping of generated sensor series, as both generator
  scripts do with `np.clip(x, lo, hi)` after drawing the raw samples.
  The raw samples come from random distributions and are inputs here.
 */
module Signals {

  /** `np.clip` of one value: `minimum(maximum(x, lo), hi)`. */
  function Clip(x: real, lo: real, hi: real): (r: real)
    requires lo <= hi
    ensures lo <= r <= hi
    ensures lo <= x <= hi ==> r == x
    ensures x < lo ==> r == lo
    ensures hi < x ==> r == hi
  {
    if x < lo then lo else if hi < x then hi else x
  }

  /** Every element of `s` lies in the closed range [lo, hi]. */
  predicate InRange(s: seq<real>, lo: real, hi: real)
  {
    forall i :: 0 <= i < |s| ==> lo <= s[i] <= hi
  }

  /** `np.clip` of a whole series. */
  function ClipSeries(s: seq<real>, lo: real, hi: real): (r: seq<real>)
    requires lo <= hi
    ensures |r| == |s|
    ensures InRange(r, lo, hi)
    ensures forall i :: 0 <= i < |s| && lo <= s[i] <= hi ==> r[i] == s[i]
  {
    seq(|s|, i requires 0 <= i < |s| => Clip(s[i], lo, hi))
  }

  /** The closed range a generated column is clipped to. */
  datatype Range = Range(lo: real, hi: real)

  /** A generated column after `np.clip` to its range `r`. */
  function ClipToRange(s: seq<real>, r: Range): (c: seq<real>)
    requires r.lo <= r.hi
    ensures |c| == |s| && InRange(c, r.lo, r.hi)
    ensures forall i :: 0 <= i < |s| && r.lo <= s[i] <= r.hi ==> c[i] == s[i]
  {
    ClipSeries(s, r.lo, r.hi)
  }

  /** Every range of the list is non-empty. */
  predicate ValidRanges(ranges: seq<Range>)
  {
    forall c :: 0 <= c < |ranges| ==> ranges[c].lo <= ranges[c].hi
  }

  /** A table of generated columns, column `c` clipped to `ranges[c]`. */
  function ClipColumns(raw: seq<seq<real>>, ranges: seq<Range>): (cols: seq<seq<real>>)
    requires |raw| == |ranges| && ValidRanges(ranges)
    ensures |cols| == |raw|
    ensures forall c :: 0 <= c < |cols| ==> |cols[c]| == |raw[c]| && InRange(cols[c], ranges[c].lo, ranges[c].hi)
    ensures forall c, i :: 0 <= c < |raw| && 0 <= i < |raw[c]| && ranges[c].lo <= raw[c][i] <= ranges[c].hi ==>
      cols[c][i] == raw[c][i]
  {
    seq(|raw|, c requires 0 <= c < |raw| => ClipToRange(raw[c], ranges[c]))
  }
}
