/** The aggregator: one recent-change signal and trend keepers with
    lookbacks 2, 3, 6, 9, 12 and the length of the series. */
module Signals {
  import opened Results
  import opened Observations
  import RC = RecentChangeSignal
  import TK = TrendKeeperSignal

  /** The fields of a `Signals` instance. `keeperMax` is `None` until the first
      `compute`, which builds it with `lookback = len(series)`. */
  datatype SignalSet = SignalSet(
    recentChange: RC.RecentChange,
    keeper2: TK.TrendKeeper,
    keeper3: TK.TrendKeeper,
    keeper6: TK.TrendKeeper,
    keeper9: TK.TrendKeeper,
    keeper12: TK.TrendKeeper,
    keeperMax: Option<TK.TrendKeeper>)

  /** The fixed keepers carry the lookbacks they were constructed with. */
  predicate WellFormed(s: SignalSet)
  {
    && s.keeper2.lookback == 2
    && s.keeper3.lookback == 3
    && s.keeper6.lookback == 6
    && s.keeper9.lookback == 9
    && s.keeper12.lookback == 12
  }

  /** `Signals()`: fresh leaves, no max-lookback keeper yet. */
  function New(): (s: SignalSet)
    ensures WellFormed(s)
    ensures s.recentChange == RC.Fresh && s.keeperMax.None?
    ensures s.keeper2 == TK.New(2) && s.keeper3 == TK.New(3) && s.keeper6 == TK.New(6)
    ensures s.keeper9 == TK.New(9) && s.keeper12 == TK.New(12)
  {
    SignalSet(RC.Fresh, TK.New(2), TK.New(3), TK.New(6), TK.New(9), TK.New(12), None)
  }

  /** The smallest fixed lookback larger than `n`: the keeper that raises
      first on a series of `n` points, for `2 <= n < 12`. */
  function FirstOutOfRange(n: nat): (r: int)
    ensures 2 <= n < 12 ==> r in {3, 6, 9, 12} && n < r
    ensures (n < 3 ==> r <= 3) && (n < 6 ==> r <= 6) && (n < 9 ==> r <= 9) && (n < 12 ==> r <= 12)
  {
    if n < 3 then 3 else if n < 6 then 6 else if n < 9 then 9 else 12
  }

  /** `compute(series)`: every leaf computed on the same series, in the
      declared order; the first `IndexError` a leaf raises ends the call. */
  function Compute(s: SignalSet, series: seq<Observation>): (r: Result<SignalSet>)
    requires WellFormed(s)
    ensures r.Ok? <==> |series| < 2 || |series| >= 12
    ensures r.IndexError? ==> r == IndexError(-FirstOutOfRange(|series|), |series|)
    ensures r.Ok? ==>
              && WellFormed(r.value)
              && r.value.recentChange == RC.Compute(s.recentChange, series)
              && TK.Compute(s.keeper2, series) == Ok(r.value.keeper2)
              && TK.Compute(s.keeper3, series) == Ok(r.value.keeper3)
              && TK.Compute(s.keeper6, series) == Ok(r.value.keeper6)
              && TK.Compute(s.keeper9, series) == Ok(r.value.keeper9)
              && TK.Compute(s.keeper12, series) == Ok(r.value.keeper12)
              && r.value.keeperMax.Some?
              && TK.Compute(TK.New(|series|), series) == Ok(r.value.keeperMax.value)
  {
    var keeperMax := TK.New(|series|);
    var recentChange := RC.Compute(s.recentChange, series);
    // Lookback 2 and the max lookback never leave the series.
    var k2 := TK.Compute(s.keeper2, series).value;
    var k3 :- TK.Compute(s.keeper3, series);
    var k6 :- TK.Compute(s.keeper6, series);
    var k9 :- TK.Compute(s.keeper9, series);
    var k12 :- TK.Compute(s.keeper12, series);
    var kMax := TK.Compute(keeperMax, series).value;
    Ok(SignalSet(recentChange, k2, k3, k6, k9, k12, Some(kMax)))
  }

  /** The max-lookback keeper is sized to the series, so its lookup is always
      in range and it never raises, whatever the length; on two or more points
      it compares the last value with the first. */
  lemma MaxKeeperInRange(series: seq<Observation>)
    ensures TK.Compute(TK.New(|series|), series).Ok?
    ensures |series| >= 2 ==>
              TK.Compute(TK.New(|series|), series).value.lookbackLabel == series[0].name
  {
  }

  /** Computing the aggregate twice on the same series gives the same leaves
      as computing it once. */
  lemma Idempotent(s: SignalSet, series: seq<Observation>)
    requires WellFormed(s)
    requires Compute(s, series).Ok?
    ensures Compute(Compute(s, series).value, series) == Compute(s, series)
  {
  }
}
