# Time-series signals, modelled in Dafny

A model of the signal layer of `describe.py`. The layer takes an ordered
series of `(label, value)` observations and derives a few small descriptive
statistics from it:

- **RecentChangeSignal** looks at the last step. It records whether the step
  went up or down, how large it was, and the previous value.
- **TrendKeeperSignal** has a lookback distance. It compares the last value
  with the observation `lookback` places from the end (Python's
  `series[-lookback]`). It then scans the earlier first differences, newest
  first, and decides whether the trend "keeps" or "reverses".
- **Signals** runs the recent-change signal and trend keepers with lookbacks
  2, 3, 6, 9, 12 and `len(series)` over the same series.
- **describe** turns the results into a sentence. Only its choice of clauses
  is modelled.

Each Python instance is modelled as an immutable datatype value. Each
`compute` is a pure function from the instance's state before the call and the
series to its state after the call. A new instance starts from the class-level
defaults (`Fresh`, `TrendKeeperSignal.New`, `Signals.New`). Because the old
state is an input, the model keeps two behaviours of the code. The
`increase` and `decrease` flags of `RecentChangeSignal` are only ever set,
never cleared. On a two-point series, a trend keeper's `keeps` is left as it
was.
Values are exact `real`s. Python's negative indexing is `ResolveIndex`. An
out-of-range lookup is returned as `Result.IndexError` rather than being
excluded by a precondition.

Modules: `Results` (Option/Result), `Observations` (observations, values,
indexing, first differences), `RecentChangeSignal`, `TrendKeeperSignal`,
`Signals`, `Narrator`, and `Sample`, which holds the twelve monthly values that
`describe.py` describes when it is loaded.

The code behaves as follows in three places where its names and comments
might suggest otherwise:

- The fixed keepers with lookbacks 3, 6, 9 and 12 have no guard of their own
  for short series. Whenever the series has at least 2 points, `series[-lookback]`
  is evaluated, so any series of 2 to 11 points raises `IndexError`. The
  error comes from the first keeper whose lookback exceeds the length, so
  `Signals.compute`, and hence `describe`, fail there. `describe` succeeds
  only on 1 point or on 12 or more. On an empty series it fails when it
  reads the last point.
- The backward scan tests each difference against the sign of the FIRST raw
  value, not against another difference. It starts at the second-newest
  difference. It checks the count cap after incrementing, so it examines
  reversed positions `1 .. min(n-2, lookback+1)`. That is `lookback + 1`
  differences, not `lookback` (`TrendKeeperSignal.LastExamined`).
- In `describe`, anything but `increase` is reported as "decrease", including
  a step of zero and the one-point series.

## Model

| member | source | states |
|---|---|---|
| RecentChangeSignal.Compute | describe.py:13-26 | fewer than 2 points leave the instance unchanged; otherwise the previous value is `series[-2]`, delta is the non-negative absolute difference of the last two values, and each flag is set iff it was already set or the last step went that way |
| RecentChangeSignal.ShortSeriesKeepsDefaults | describe.py:4-16 | on a fresh instance with fewer than 2 points, both flags are false and delta and previous value are 0 |
| RecentChangeSignal.FreshDirection | describe.py:4-26 | on a fresh instance, `decrease` iff last < previous and `increase` iff last > previous; never both, neither on equal values; delta is the absolute difference |
| RecentChangeSignal.Idempotent | describe.py:13-26 | computing again on the same series from any state changes nothing |
| RecentChangeSignal.StaleFlagsOnReuse | describe.py:19-22 | reusing an instance on a rise and then a fall leaves both flags set, unlike a fresh instance |
| Observations.ResolveIndex | describe.py:56-57 | Python list indexing: in range iff `-n <= i < n`; a negative index counts back from the end |
| Observations.ReversedDeltas | describe.py:64-68 | has one entry fewer than the values; entry `j` is the step ending `j` places before the last value |
| TrendKeeperSignal.New | describe.py:37-50 | a new keeper has the given lookback (2 when omitted), label `''`, value `-1` and every flag false |
| TrendKeeperSignal.Compute | describe.py:52-84 | fewer than 2 points leave the keeper unchanged; otherwise it succeeds iff `-n < lookback <= n` and fails with `IndexError(-lookback, n)` otherwise; for `1 <= lookback <= n` the lookback point is index `n - lookback`; `lowerThan` iff the lookback value exceeds the last value; `higherThan` is its negation; `reverses` is the negation of `keeps` |
| TrendKeeperSignal.ScanFrom | describe.py:69-82 | the loop entered at position `idx` with `count = idx - 1` leaves `keeps` unchanged if nothing is left; otherwise it returns true iff every difference from `idx` to `min(len-1, max(1, lookback+1))` has a positive product with `tn` |
| TrendKeeperSignal.KeepsCharacterisation | describe.py:64-84 | on 2 points `keeps` keeps its old value; on 3 or more it is true iff every examined reversed difference agrees in sign with the first value |
| TrendKeeperSignal.FreshKeeps | describe.py:42-84 | on a fresh keeper, `keeps` iff at least 3 points and the examined differences all agree with the first value; a first value of 0 forces `keeps` off; 2 points give "reverses" |
| TrendKeeperSignal.TrendIgnoresLast | describe.py:64-73 | whether the examined differences agree with the first value does not depend on the last value |
| TrendKeeperSignal.LatestDifferenceIgnored | describe.py:67-73 | replacing the last value changes neither success nor `keeps`, because the newest difference is never examined |
| TrendKeeperSignal.Idempotent | describe.py:52-84 | computing again on the same series from the resulting state changes nothing |
| TrendKeeperSignal.StaleKeepsOnReuse | describe.py:71-84 | a keeper reused on a two-point series keeps a stale `keeps` from the previous series, while a fresh keeper reports "reverses" |
| Signals.New | describe.py:96-113 | fresh recent-change signal, fresh keepers with lookbacks 2, 3, 6, 9, 12, no max keeper |
| Signals.Compute | describe.py:115-126 | succeeds iff fewer than 2 or at least 12 points; otherwise it fails with the `IndexError` of the smallest fixed lookback above the length; on success each leaf equals that leaf computed alone on the series, and the max keeper is a fresh keeper with lookback `len(series)` |
| Signals.MaxKeeperInRange | describe.py:115-126 | the max-lookback keeper never raises, and on 2 or more points its lookback point is the first observation |
| Signals.Idempotent | describe.py:115-126 | computing the aggregate twice on the same series equals computing it once |
| Narrator.Describe | describe.py:132-154 | succeeds iff 1 or at least 12 points; empty fails reading `series[-1]`; reports the last point; direction is "increase" iff last > previous; at most one trend clause, none for 1 point, exactly one naming `series[-2]` otherwise |
| Narrator.TrendClauseKind | describe.py:146-154 | the trend clause says "keeps" iff the lookback-2 scan finds every examined difference agreeing with the first value |
| Sample.SampleRecentChange | describe.py:159-208 | sample year: decrease of 0.09 from 2.20 |
| Sample.SampleKeeper2 | describe.py:159-208 | sample year, lookback 2: November 2.20, lower than it, trend reverses |
| Sample.SampleDescribe | describe.py:159-208 | sample year narrative: December 2.11, 0.09 decrease from 2.20, reverses the trend from November |

## Left out

- The `__str__` methods, `%f` formatting and the sentence wording of `describe` are presentation. Only the facts and the clause choice are modelled.
- The `print` statements and the module-level `describe([...])` call are I/O. The sample values appear only as a test vector (`Sample.Year`).
- `_signal_helpers` still holds the `None` captured at construction, not the max keeper. This only affects the diagnostic dump text.
- The unused `unit` parameter of `describe` is not modelled.
- IEEE floating point is not modelled. Values are exact reals, and the sample's `0.09` delta is exact here.
- The Python key `label` is the field `name`, because `label` is a reserved word in Dafny.
- Signals.Compute: the partly updated instance left after an `IndexError` is not modelled; the error is returned instead. In Python, `trend_keeper_max` has already been replaced by a fresh, uncomputed keeper, and `recent_change` and `trend_keeper_2` have already been recomputed, when a later keeper raises. `describe` discards the instance anyway.
- TrendKeeperSignal.Scan: the loop is modelled as this recursive function with no contract of its own. Its meaning is stated by `ScanFrom` and `KeepsCharacterisation`.
