/** The signal comparing the last point with a point `lookback` steps back and
    scanning the earlier first differences for a consistent sign. */
module TrendKeeperSignal {
  import opened Results
  import opened Observations

  /** The fields of a `TrendKeeperSignal` instance; `lookback` is fixed at
      construction. */
  datatype TrendKeeper = TrendKeeper(
    lookback: int,
    lookbackLabel: string,
    lookbackValue: real,
    keeps: bool,
    reverses: bool,
    lowerThan: bool,
    higherThan: bool)

  /** A new instance: the given lookback (2 when omitted) and the class-level
      defaults. */
  function New(lookback: int := 2): (tk: TrendKeeper)
    ensures tk.lookback == lookback
    ensures tk.lookbackLabel == "" && tk.lookbackValue == -1.0
    ensures !tk.keeps && !tk.reverses && !tk.lowerThan && !tk.higherThan
  {
    TrendKeeper(lookback, "", -1.0, false, false, false, false)
  }

  /** The backward scan over the reversed differences `deltas`, from position
      `idx`, having accepted `count` differences so far and holding the current
      `keeps` flag. Each difference is checked against the sign of `tn`; the
      first disagreement clears the flag and stops, and the scan also stops
      once more than `lookback` differences were accepted. */
  function Scan(deltas: seq<real>, tn: real, lookback: int, idx: nat, count: int, keeps: bool): bool
    decreases |deltas| - idx
  {
    if idx >= |deltas| then keeps
    else if deltas[idx] * tn > 0.0 then
      if count + 1 > lookback then true
      else Scan(deltas, tn, lookback, idx + 1, count + 1, true)
    else false
  }

  /** The last reversed-difference position the scan can reach in a series of
      `n >= 3` points: it starts at 1 and stops after position `lookback + 1`
      (after position 1 when `lookback` is negative). */
  function LastExamined(n: nat, lookback: int): (last: int)
    ensures n >= 3 ==> 1 <= last <= n - 2
    ensures last <= n - 2
    ensures n >= 3 && lookback >= 0 ==> (last == n - 2 || last == lookback + 1)
    ensures lookback >= 0 ==> last <= lookback + 1
  {
    Min(n - 2, Max(1, lookback + 1))
  }

  /** The step that ended `j` observations before the last one has the same
      strict sign as the FIRST raw value of the series. */
  predicate AgreesWithFirst(values: seq<real>, j: nat)
    requires j + 2 <= |values|
  {
    (values[|values| - 1 - j] - values[|values| - 2 - j]) * values[0] > 0.0
  }

  /** Every difference the scan examines agrees with the first value; the most
      recent difference (position 0) is not among them. */
  predicate TrendHolds(values: seq<real>, lookback: int)
    requires |values| >= 3
  {
    forall j :: 1 <= j <= LastExamined(|values|, lookback) ==> AgreesWithFirst(values, j)
  }

  /** `compute(series)` applied to an instance in state `tk`. */
  function Compute(tk: TrendKeeper, series: seq<Observation>): (r: Result<TrendKeeper>)
    ensures |series| < 2 ==> r == Ok(tk)
    ensures |series| >= 2 ==> (r.Ok? <==> -|series| < tk.lookback <= |series|)
    ensures |series| >= 2 && r.IndexError? ==> r.index == -tk.lookback && r.length == |series|
    ensures |series| >= 2 && r.Ok? ==>
              var last := series[|series| - 1].value;
              && r.value.lookback == tk.lookback
              && (r.value.lowerThan <==> r.value.lookbackValue > last)
              && r.value.higherThan == !r.value.lowerThan
              && r.value.reverses == !r.value.keeps
    ensures |series| >= 2 && 1 <= tk.lookback <= |series| ==>
              && r.Ok?
              && r.value.lookbackLabel == series[|series| - tk.lookback].name
              && r.value.lookbackValue == series[|series| - tk.lookback].value
  {
    if |series| < 2 then Ok(tk)
    else
      match ResolveIndex(|series|, -tk.lookback)
      case None => IndexError(-tk.lookback, |series|)
      case Some(i) =>
        var lookbackValue := series[i].value;
        var lowerThan := lookbackValue - series[|series| - 1].value > 0.0;
        var values := Values(series);
        var keeps := Scan(ReversedDeltas(values), values[0], tk.lookback, 1, 0, tk.keeps);
        Ok(tk.(lookbackLabel := series[i].name,
               lookbackValue := lookbackValue,
               lowerThan := lowerThan,
               higherThan := !lowerThan,
               keeps := keeps,
               reverses := !keeps))
  }

  /** The scan entered at position `idx` after accepting every earlier
      position: it returns the flag unchanged when there is nothing left to
      examine, and otherwise holds exactly when every difference from `idx` up
      to the last reachable position agrees with `tn`. */
  lemma {:induction false} ScanFrom(deltas: seq<real>, tn: real, lookback: int, idx: nat, keeps: bool)
    requires 1 <= idx <= |deltas|
    requires idx == 1 || idx - 1 <= lookback
    ensures idx == |deltas| ==> Scan(deltas, tn, lookback, idx, idx - 1, keeps) == keeps
    ensures idx < |deltas| ==>
              (Scan(deltas, tn, lookback, idx, idx - 1, keeps) <==>
               forall j :: idx <= j <= Min(|deltas| - 1, Max(1, lookback + 1)) ==> deltas[j] * tn > 0.0)
    decreases |deltas| - idx
  {
    if idx < |deltas| && deltas[idx] * tn > 0.0 && idx <= lookback {
      ScanFrom(deltas, tn, lookback, idx + 1, true);
    }
  }

  /** The `keeps` flag `compute` leaves behind: on exactly two points the loop
      never runs and the old flag survives; otherwise it is set iff every
      examined difference agrees with the first value. */
  lemma KeepsCharacterisation(tk: TrendKeeper, series: seq<Observation>)
    requires |series| >= 2
    requires Compute(tk, series).Ok?
    ensures |series| == 2 ==> Compute(tk, series).value.keeps == tk.keeps
    ensures |series| >= 3 ==>
              (Compute(tk, series).value.keeps <==> TrendHolds(Values(series), tk.lookback))
  {
    var values := Values(series);
    var d := ReversedDeltas(values);
    ScanFrom(d, values[0], tk.lookback, 1, tk.keeps);
    if |series| >= 3 {
      if Scan(d, values[0], tk.lookback, 1, 0, tk.keeps) {
        forall j | 1 <= j <= LastExamined(|values|, tk.lookback)
          ensures AgreesWithFirst(values, j)
        {
          assert d[j] * values[0] > 0.0;
        }
      } else {
        var j :| 1 <= j <= Min(|d| - 1, Max(1, tk.lookback + 1)) && !(d[j] * values[0] > 0.0);
        assert j + 2 <= |values|;
        assert !AgreesWithFirst(values, j);
      }
    }
  }

  /** On a fresh instance: `keeps` holds iff there are at least three points
      and every examined difference agrees with the first value; a first value
      of zero therefore forces `keeps` off, and on two points the result is
      always "reverses". */
  lemma FreshKeeps(lookback: int, series: seq<Observation>)
    requires |series| >= 2
    requires Compute(New(lookback), series).Ok?
    ensures var r := Compute(New(lookback), series).value;
            && (r.keeps <==> |series| >= 3 && TrendHolds(Values(series), lookback))
            && (series[0].value == 0.0 ==> !r.keeps)
            && (|series| == 2 ==> !r.keeps && r.reverses)
  {
    KeepsCharacterisation(New(lookback), series);
    if |series| >= 3 && series[0].value == 0.0 {
      assert !AgreesWithFirst(Values(series), 1);
    }
  }

  /** Whether the examined differences agree with the first value does not
      depend on the last value of the series. */
  lemma TrendIgnoresLast(vs: seq<real>, vo: seq<real>, lookback: int)
    requires |vs| == |vo| >= 3
    requires vs[..|vs| - 1] == vo[..|vo| - 1]
    ensures TrendHolds(vs, lookback) == TrendHolds(vo, lookback)
  {
    forall j | 1 <= j <= LastExamined(|vs|, lookback)
      ensures AgreesWithFirst(vs, j) == AgreesWithFirst(vo, j)
    {
      assert vs[0] == vs[..|vs| - 1][0] == vo[0];
      assert vs[|vs| - 1 - j] == vs[..|vs| - 1][|vs| - 1 - j] == vo[|vo| - 1 - j];
      assert vs[|vs| - 2 - j] == vs[..|vs| - 1][|vs| - 2 - j] == vo[|vo| - 2 - j];
    }
  }

  /** The most recent difference never matters to the scan: replacing the
      last value leaves `keeps` (and whether `compute` succeeds) unchanged. */
  lemma LatestDifferenceIgnored(tk: TrendKeeper, series: seq<Observation>, x: Observation)
    requires |series| >= 2
    ensures var other := series[..|series| - 1] + [x];
            && Compute(tk, other).Ok? == Compute(tk, series).Ok?
            && (Compute(tk, series).Ok? ==> Compute(tk, other).value.keeps == Compute(tk, series).value.keeps)
  {
    var other := series[..|series| - 1] + [x];
    assert |other| == |series|;
    if Compute(tk, series).Ok? {
      KeepsCharacterisation(tk, series);
      KeepsCharacterisation(tk, other);
      if |series| >= 3 {
        var vs, vo := Values(series), Values(other);
        assert vs[..|vs| - 1] == vo[..|vo| - 1] by {
          forall k | 0 <= k < |vs| - 1
            ensures vs[k] == vo[k]
          {
            assert other[k] == series[k];
          }
        }
        TrendIgnoresLast(vs, vo, tk.lookback);
      }
    }
  }

  /** Running `compute` again on the same series changes nothing, whatever
      state the instance started in. */
  lemma Idempotent(tk: TrendKeeper, series: seq<Observation>)
    requires Compute(tk, series).Ok?
    ensures Compute(Compute(tk, series).value, series) == Compute(tk, series)
  {
  }

  /** Reusing one instance on a shorter series can leave a stale `keeps`: after
      a rising three-point series the flag survives a two-point series, where a
      fresh instance would report "reverses". */
  lemma StaleKeepsOnReuse()
    ensures var rising := [Observation("a", 1.0), Observation("b", 2.0), Observation("c", 3.0)];
            var pair := [Observation("a", 1.0), Observation("b", 0.0)];
            var first := Compute(New(2), rising);
            && first.Ok? && first.value.keeps
            && Compute(first.value, pair).Ok? && Compute(first.value, pair).value.keeps
            && Compute(New(2), pair).Ok? && Compute(New(2), pair).value.reverses
  {
  }
}
