/** Observations and the list operations of Python the signals rely on. */
module Observations {
  import opened Results

  /** One `{'label': ..., 'value': ...}` record of a series; `label` is a
      reserved word in Dafny, so the field is called `name`. Values are exact
      reals; the signals only subtract, compare and multiply them. */
  datatype Observation = Observation(name: string, value: real)

  /** The `value` column of a series, in chronological order. */
  function Values(series: seq<Observation>): (vs: seq<real>)
    ensures |vs| == |series|
    ensures forall i :: 0 <= i < |series| ==> vs[i] == series[i].value
  {
    seq(|series|, i requires 0 <= i < |series| => series[i].value)
  }

  /** Python's `abs` on a number. */
  function Abs(x: real): (r: real)
    ensures r >= 0.0
    ensures r == x || r == -x
  {
    if x < 0.0 then -x else x
  }

  function Min(a: int, b: int): (r: int)
    ensures r <= a && r <= b
    ensures r == a || r == b
  {
    if a <= b then a else b
  }

  function Max(a: int, b: int): (r: int)
    ensures a <= r && b <= r
    ensures r == a || r == b
  {
    if a <= b then b else a
  }

  /** The position Python's `xs[i]` reads in a list of length `n`: a negative
      `i` counts from the end, and anything outside `-n .. n-1` is an
      `IndexError` (None here). */
  function ResolveIndex(n: nat, i: int): (r: Option<nat>)
    ensures r.Some? <==> -(n as int) <= i < n
    ensures r.Some? ==> r.value < n
    ensures r.Some? && i < 0 ==> r.value + (-i) == n
    ensures r.Some? && 0 <= i ==> r.value == i
  {
    if 0 <= i < n then Some(i)
    else if -(n as int) <= i < 0 then Some(n + i)
    else None
  }

  /** `[values[idx] - values[idx-1] for idx in range(1, len(values))]`. */
  function Deltas(values: seq<real>): (ds: seq<real>)
    ensures |ds| == Max(0, |values| - 1)
  {
    if |values| < 2 then []
    else seq(|values| - 1, k requires 0 <= k < |values| - 1 => values[k + 1] - values[k])
  }

  /** Python's in-place `list.reverse()`, as a value. */
  function Reverse<T>(s: seq<T>): (r: seq<T>)
    ensures |r| == |s|
  {
    seq(|s|, j requires 0 <= j < |s| => s[|s| - 1 - j])
  }

  /** The first differences with the most recent one first: entry `j` is the
      step that ended `j` observations before the last one. */
  function ReversedDeltas(values: seq<real>): (rd: seq<real>)
    ensures |rd| == Max(0, |values| - 1)
    ensures forall j :: 0 <= j < |rd| ==>
              rd[j] == values[|values| - 1 - j] - values[|values| - 2 - j]
  {
    Reverse(Deltas(values))
  }
}
