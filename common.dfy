/**
 * Shared vocabulary of both divergence engines: the optional numeric value that the
 * TypeScript code encodes as NaN / null / undefined, the arithmetic and comparisons on
 * it, and reference definitions of the extremes of a window of prices.
 */
module Common {

  datatype Option<T> = None | Some(value: T)

  datatype Result<T> = Ok(value: T) | Err(error: string)

  /** A JavaScript number that is either a real value or the NaN / undefined sentinel. */
  datatype Num = Avail(v: real) | NotYet

  function Add(a: Num, b: Num): Num {
    if a.Avail? && b.Avail? then Avail(a.v + b.v) else NotYet
  }

  function Sub(a: Num, b: Num): Num {
    if a.Avail? && b.Avail? then Avail(a.v - b.v) else NotYet
  }

  function Scale(c: real, a: Num): Num {
    if a.Avail? then Avail(c * a.v) else NotYet
  }

  function NAbs(a: Num): Num {
    if a.Avail? then Avail(Abs(a.v)) else NotYet
  }

  /** Math.max / Math.min: NaN as soon as one argument is NaN. */
  function NMax(a: Num, b: Num): Num {
    if a.Avail? && b.Avail? then Avail(if a.v >= b.v then a.v else b.v) else NotYet
  }

  function NMin(a: Num, b: Num): Num {
    if a.Avail? && b.Avail? then Avail(if a.v <= b.v then a.v else b.v) else NotYet
  }

  // Every comparison involving NaN is false in JavaScript.
  predicate Lt(a: Num, b: Num) { a.Avail? && b.Avail? && a.v < b.v }
  predicate Le(a: Num, b: Num) { a.Avail? && b.Avail? && a.v <= b.v }
  predicate Gt(a: Num, b: Num) { a.Avail? && b.Avail? && a.v > b.v }
  predicate Ge(a: Num, b: Num) { a.Avail? && b.Avail? && a.v >= b.v }

  /** Reading a JavaScript array outside its bounds yields undefined. */
  function At(s: seq<real>, j: int): (r: Num)
    ensures r.Avail? <==> 0 <= j < |s|
    ensures 0 <= j < |s| ==> r.v == s[j]
  {
    if 0 <= j < |s| then Avail(s[j]) else NotYet
  }

  function AtNum(s: seq<Num>, j: int): Num {
    if 0 <= j < |s| then s[j] else NotYet
  }

  function Abs(x: real): real { if x < 0.0 then -x else x }

  function Max(a: int, b: int): int { if a >= b then a else b }

  function Min(a: int, b: int): int { if a <= b then a else b }

  function RMin(a: real, b: real): real { if a <= b then a else b }

  function RMax(a: real, b: real): real { if a >= b then a else b }

  /** Minimum of s[lo..hi), a reference definition independent of any algorithm. */
  function WinMin(s: seq<real>, lo: int, hi: int): (r: real)
    requires 0 <= lo < hi <= |s|
    ensures forall j :: lo <= j < hi ==> r <= s[j]
    ensures exists j :: lo <= j < hi && r == s[j]
    decreases hi - lo
  {
    if hi - lo == 1 then s[lo] else RMin(WinMin(s, lo, hi - 1), s[hi - 1])
  }

  /** Maximum of s[lo..hi). */
  function WinMax(s: seq<real>, lo: int, hi: int): (r: real)
    requires 0 <= lo < hi <= |s|
    ensures forall j :: lo <= j < hi ==> s[j] <= r
    ensures exists j :: lo <= j < hi && r == s[j]
    decreases hi - lo
  {
    if hi - lo == 1 then s[lo] else RMax(WinMax(s, lo, hi - 1), s[hi - 1])
  }

  /** A value of the window that bounds the whole window from below is its minimum. */
  lemma WinMinIs(s: seq<real>, lo: int, hi: int, q: int)
    requires 0 <= lo <= q < hi <= |s|
    requires forall j :: lo <= j < hi ==> s[q] <= s[j]
    ensures WinMin(s, lo, hi) == s[q]
  {
  }

  lemma WinMaxIs(s: seq<real>, lo: int, hi: int, q: int)
    requires 0 <= lo <= q < hi <= |s|
    requires forall j :: lo <= j < hi ==> s[j] <= s[q]
    ensures WinMax(s, lo, hi) == s[q]
  {
  }
}
