/** The choice of clauses in `describe`; the wording and number formatting
    of the sentence are not modelled. */
module Narrator {
  import opened Results
  import opened Observations
  import TK = TrendKeeperSignal
  import Signals

  /** The word used for the last step: anything but `increase` reads "decrease". */
  datatype Direction = Increase | Decrease

  /** The optional clause about the lookback-2 keeper. */
  datatype TrendClause =
    | KeepsTrendFrom(name: string, value: real)
    | ReversesTrendFrom(name: string, value: real)

  /** The facts `describe` puts into its sentence, in order. */
  datatype Narrative = Narrative(
    latestName: string,
    latestValue: real,
    delta: real,
    direction: Direction,
    previousValue: real,
    trendClauses: seq<TrendClause>)

  /** `describe(series)` on a fresh aggregate. The aggregate is computed first;
      an empty series then fails reading the last point. */
  function Describe(series: seq<Observation>): (r: Result<Narrative>)
    ensures r.Ok? <==> |series| == 1 || |series| >= 12
    ensures |series| == 0 ==> r == IndexError(-1, 0)
    ensures 2 <= |series| < 12 ==> r == IndexError(-Signals.FirstOutOfRange(|series|), |series|)
    ensures r.Ok? ==>
              && r.value.latestName == series[|series| - 1].name
              && r.value.latestValue == series[|series| - 1].value
              && |r.value.trendClauses| <= 1
    ensures r.Ok? && |series| == 1 ==>
              && r.value.trendClauses == []
              && r.value.direction == Decrease
              && r.value.delta == 0.0 && r.value.previousValue == 0.0
    ensures r.Ok? && |series| >= 2 ==>
              var last := series[|series| - 1].value;
              var prev := series[|series| - 2].value;
              && (r.value.direction == Increase <==> last > prev)
              && r.value.previousValue == prev
              && r.value.delta == Abs(last - prev)
              && |r.value.trendClauses| == 1
              && r.value.trendClauses[0].name == series[|series| - 2].name
              && r.value.trendClauses[0].value == series[|series| - 2].value
  {
    var signals :- Signals.Compute(Signals.New(), series);
    if |series| == 0 then IndexError(-1, 0)
    else
      var latest := series[|series| - 1];
      var recent := signals.recentChange;
      var trend2 := signals.keeper2;
      var keepsClause :=
        if trend2.keeps then [KeepsTrendFrom(trend2.lookbackLabel, trend2.lookbackValue)] else [];
      var reversesClause :=
        if trend2.reverses then [ReversesTrendFrom(trend2.lookbackLabel, trend2.lookbackValue)] else [];
      Ok(Narrative(latest.name, latest.value, recent.delta,
                   if recent.increase then Increase else Decrease,
                   recent.previousValue, keepsClause + reversesClause))
  }

  /** The trend clause says "keeps" exactly when the series has at least three
      points and every difference the lookback-2 scan examines agrees in sign
      with the first value; otherwise it says "reverses". */
  lemma TrendClauseKind(series: seq<Observation>)
    requires Describe(series).Ok? && |series| >= 2
    ensures Describe(series).value.trendClauses[0].KeepsTrendFrom? <==> TK.TrendHolds(Values(series), 2)
  {
    TK.FreshKeeps(2, series);
  }
}
