/** The twelve monthly values the module describes when it is loaded, used as
    a concrete test vector for the signals. */
module Sample {
  import opened Results
  import opened Observations
  import RC = RecentChangeSignal
  import TK = TrendKeeperSignal
  import Signals
  import Narrator

  const Year: seq<Observation> := [
    Observation("January", 2.50),
    Observation("February", 2.74),
    Observation("March", 2.38),
    Observation("April", 2.20),
    Observation("May", 1.87),
    Observation("June", 1.63),
    Observation("July", 1.73),
    Observation("August", 1.94),
    Observation("September", 2.23),
    Observation("October", 2.04),
    Observation("November", 2.20),
    Observation("December", 2.11)
  ]

  /** December fell 0.09 from November's 2.20. */
  lemma SampleRecentChange()
    ensures RC.Compute(RC.Fresh, Year) == RC.RecentChange(false, true, 0.09, 2.20)
  {
  }

  /** The lookback-2 point is November; December is lower than it. The scan
      accepts November's rise (+0.16, same sign as January's 2.50) and stops at
      October's fall (-0.19), so the trend "reverses". */
  lemma SampleKeeper2()
    ensures TK.Compute(TK.New(2), Year)
            == Ok(TK.TrendKeeper(2, "November", 2.20, false, true, true, false))
  {
  }

  /** The narrative: December at 2.11, a 0.09 decrease from 2.20, reversing
      the trend from November. */
  lemma SampleDescribe()
    ensures Narrator.Describe(Year)
            == Ok(Narrator.Narrative("December", 2.11, 0.09, Narrator.Decrease, 2.20,
                                     [Narrator.ReversesTrendFrom("November", 2.20)]))
  {
    SampleRecentChange();
    SampleKeeper2();
    var signals := Signals.Compute(Signals.New(), Year);
    assert signals.Ok?;
    assert signals.value.keeper2 == TK.TrendKeeper(2, "November", 2.20, false, true, true, false);
    assert signals.value.recentChange == RC.RecentChange(false, true, 0.09, 2.20);
    assert Year[|Year| - 1] == Observation("December", 2.11);
    assert [] + [Narrator.ReversesTrendFrom("November", 2.20)]
           == [Narrator.ReversesTrendFrom("November", 2.20)];
  }
}
