/** The signal about the last data point: how it moved from the one before. */
module RecentChangeSignal {
  import opened Observations

  /** The fields of a `RecentChangeSignal` instance. */
  datatype RecentChange = RecentChange(
    increase: bool,
    decrease: bool,
    delta: real,          // absolute size of the last step
    previousValue: real)  // value of the point before the last one

  /** The class-level defaults a new instance starts from. */
  const Fresh: RecentChange := RecentChange(false, false, 0.0, 0.0)

  /** `compute(series)` applied to an instance in state `rc`. A series shorter
      than two points leaves the instance alone; otherwise the direction flag
      of the last step is set (never cleared) and the size of the step and the
      previous value overwrite the old ones. */
  function Compute(rc: RecentChange, series: seq<Observation>): (r: RecentChange)
    ensures |series| < 2 ==> r == rc
    ensures |series| >= 2 ==>
              var last := series[|series| - 1].value;
              var prev := series[|series| - 2].value;
              && r.previousValue == prev
              && r.delta >= 0.0
              && (r.delta == last - prev || r.delta == prev - last)
              && (r.decrease <==> rc.decrease || last < prev)
              && (r.increase <==> rc.increase || last > prev)
  {
    if |series| < 2 then rc
    else
      var tn := series[|series| - 1].value;
      var tn1 := series[|series| - 2].value;
      var flagged :=
        if tn < tn1 then rc.(decrease := true)
        else if tn > tn1 then rc.(increase := true)
        else rc;
      flagged.(delta := Abs(tn - tn1), previousValue := tn1)
  }

  /** A fresh instance on fewer than two points keeps every default. */
  lemma ShortSeriesKeepsDefaults(series: seq<Observation>)
    requires |series| < 2
    ensures var r := Compute(Fresh, series);
            !r.increase && !r.decrease && r.delta == 0.0 && r.previousValue == 0.0
  {
  }

  /** On a fresh instance the two flags report the direction of the last step
      exactly: `decrease` iff it went down, `increase` iff it went up, neither
      when the two values are equal, so never both. */
  lemma FreshDirection(series: seq<Observation>)
    requires |series| >= 2
    ensures var r := Compute(Fresh, series);
            var last := series[|series| - 1].value;
            var prev := series[|series| - 2].value;
            && (r.decrease <==> last < prev)
            && (r.increase <==> last > prev)
            && !(r.increase && r.decrease)
            && (last == prev ==> !r.increase && !r.decrease)
            && r.delta == Abs(last - prev)
  {
  }

  /** Running `compute` again on the same series changes nothing, whatever
      state the instance started in. */
  lemma Idempotent(rc: RecentChange, series: seq<Observation>)
    ensures Compute(Compute(rc, series), series) == Compute(rc, series)
  {
  }

  /** Reusing one instance on two series can leave a stale flag: after a rise
      and then a fall both `increase` and `decrease` are set, which a fresh
      instance never reports. */
  lemma StaleFlagsOnReuse()
    ensures var up := [Observation("a", 1.0), Observation("b", 2.0)];
            var down := [Observation("a", 2.0), Observation("b", 1.0)];
            var r := Compute(Compute(Fresh, up), down);
            r.increase && r.decrease && !Compute(Fresh, down).increase
  {
  }
}
