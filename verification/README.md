# Synthetic RevOps generator — verified model

This project models the core of `ingestion/generate_revops_sources.py`. The script
builds two synthetic marketing tables, a funnel table and a spend table, from a
table of real e-commerce orders. The model covers four steps:

- **Dense daily series.** Orders whose purchase timestamp parses are grouped by
  calendar day. The distinct order ids of each day are counted. The counts are
  laid out over every day from the earliest to the latest valid day, with zero
  for days without orders.
- **Channel allocation.** Each day's total is split over five channels: Paid
  Search 28%, Paid Social 22%, Email 15%, Affiliate 10% and Organic 25%. Each
  of the first four channels gets its share rounded half to even. Organic gets
  the remainder, clamped at zero.
- **Funnel and spend synthesis.** For each channel, leads are back-derived from
  purchases and sessions from leads. A weekend factor of 0.85 dampens sessions,
  leads and spend. Spend depends on the channel kind: paid per click, a flat
  draw for Email, or nothing for Organic.
- **Row emission.** One funnel row and one spend row are written per (day,
  channel), day-major, in channel order.

Modules, one per step:

- `Basics`: `Option`, `Result`, `Max` and `Sum`.
- `Rounding`: Python's `round`, `np.ceil`, `int()` and `round(x, 2)` on exact reals.
- `Channels`: the five channels, their labels and weights.
- `ChannelAllocation`: the allocation loop and its closed form.
- `Synthesis`: the random draws, the weekend factor, and the rows for one channel on one day.
- `DailyAggregation`: orders, the dense daily series, and the group-then-reindex implementation.
- `Generator`: the load checks, the nested emission loops, and the grid lemmas.

Days are integers counting days since 1970-01-01, and `Weekday` is
`(day + 3) % 7` (that day was a Thursday; Monday is 0). The random draws of one
emitted row form a `Draws` record. The run takes the stream of draws as a
parameter `draws: nat -> Draws`, and rows `5 * k .. 5 * k + 4` use
`draws(5 * k) .. draws(5 * k + 4)`. `InRange` states the intervals
`np.random.uniform` draws from, and the lemmas that depend on the draws'
ranges require it.

Two consequences of the code are worth stating, because they are easy to misread:

- Paid spend is computed from the sessions already dampened at line 94, and is
  then scaled by the weekend factor again at line 115. `PaidSpendDampenedTwice`
  states the result: on a weekend, the spend before rounding is at most
  0.85 × 0.85 of the weekday amount for the same draws.
- A channel with no purchases gets exactly zero leads and sessions (lines 81-95), because
  `0 / rate * noise` is 0 and its ceiling is 0. `ZeroPurchasesEmptyFunnel` and
  `EmptyDayEmptyFunnel` state this.

## Model

| member | source | states |
|---|---|---|
| Rounding.RoundHalfEven | ingestion/generate_revops_sources.py:69 | the result is an integer within one half of x, and on an exact tie it is the even neighbour (Python 3 `round`) |
| Rounding.HalfEvenRoundingUnique | ingestion/generate_revops_sources.py:69 | any integer that is a half-even rounding of x is the one `RoundHalfEven` returns, so the rounding is uniquely determined |
| Rounding.RoundHalfEvenOfHundredths | ingestion/generate_revops_sources.py:69 | rounding n/100 on reals equals the integer-only rule: quotient, plus one when the remainder is above 50, and on 50 only when the quotient is odd |
| Rounding.Ceil | ingestion/generate_revops_sources.py:81-92 | `np.ceil` gives the least integer not below x: x <= r < x + 1 |
| Rounding.Trunc | ingestion/generate_revops_sources.py:94-95 | `int()` truncates toward zero: for x >= 0, r <= x < r + 1 and r >= 0; for x < 0, r - 1 < x <= r and r <= 0 |
| Rounding.RoundCents | ingestion/generate_revops_sources.py:121 | `round(x, 2)` moves an amount by at most half a cent and keeps a non-negative amount non-negative |
| Channels.ChannelOrder | ingestion/generate_revops_sources.py:11 | the channel order lists each of the five channels exactly once, with Organic last, and the labels tell channels apart |
| ChannelAllocation.RoundedShare | ingestion/generate_revops_sources.py:69 | a leading channel's share is the half-even rounding of total × weight / 100, so 100 × share lies within 50 of total × weight |
| ChannelAllocation.TiesGoToEven | ingestion/generate_revops_sources.py:69 | exact ties round to the even neighbour: 0.5 goes to 0, while 1.5 and 5.5 go up to 2 and 6 |
| ChannelAllocation.Allocate | ingestion/generate_revops_sources.py:63-73 | the loop with a running remainder gives each of the first four channels its rounded share, and gives Organic max(0, total − the four shares); this equals the closed-form `Allocation` |
| ChannelAllocation.RemainderNeverNegative | ingestion/generate_revops_sources.py:64-73 | for every total >= 0, the four rounded shares never add up to more than the total, so the remainder is never negative |
| ChannelAllocation.AllocationConserves | ingestion/generate_revops_sources.py:63-73 | there are five allocations, all >= 0, and they add up to exactly the day's total; Organic's is the unclamped remainder |
| ChannelAllocation.OrganicNearNominalShare | ingestion/generate_revops_sources.py:45-73 | Organic, whose weight is 25 hundredths but which takes the remainder instead of its own rounded share, stays within two purchases of its nominal 25% of the total |
| ChannelAllocation.ZeroTotalAllocatesNothing | ingestion/generate_revops_sources.py:69-76 | a day with zero purchases gives all five channels zero purchases |
| Synthesis.Synthesize | ingestion/generate_revops_sources.py:75-123 | both rows carry the given date and channel; sessions, leads and purchases are >= 0; spend is >= 0; Organic spend is exactly 0 |
| Synthesis.WeekendFactorOnWeekends | ingestion/generate_revops_sources.py:60-61 | for a weekday in 0..6, the factor is 0.85 exactly on weekdays 5 and 6, and 1.0 exactly on 0..4 |
| Synthesis.DampenBounds | ingestion/generate_revops_sources.py:94-95 | dampening a count >= 0 gives a value between 0 and the count, and the count itself on weekdays |
| Synthesis.BackDerive | ingestion/generate_revops_sources.py:83 | dividing a count >= 0 by max(rate, 0.01) gives a non-negative amount |
| Synthesis.LeadsWithinNoise | ingestion/generate_revops_sources.py:81-86 | for draws in range, leads are >= 0 and lie between 0.95 × q and 1.10 × q + 1, where q = purchases / max(close_rate, 0.01) |
| Synthesis.SessionsWithinNoise | ingestion/generate_revops_sources.py:87-92 | for draws in range, sessions are >= 0 and lie between 0.95 × q and 1.15 × q + 1, where q = leads / max(lead_rate, 0.01) |
| Synthesis.WeekendNeverExceedsWeekday | ingestion/generate_revops_sources.py:94-103 | with identical draws, a weekend row never has more sessions or leads than a weekday row, and both have the same, undampened purchases |
| Synthesis.ZeroPurchasesEmptyFunnel | ingestion/generate_revops_sources.py:81-95 | with zero purchases, leads and sessions are zero whatever the draws, and paid-channel spend is zero |
| Synthesis.EmailSpendIsFlat | ingestion/generate_revops_sources.py:110-121 | Email spend is the rounded flat draw times the weekend factor; it does not depend on purchases or sessions, and lies within 17.00 and 120.00 |
| Synthesis.PaidSpendDampenedTwice | ingestion/generate_revops_sources.py:94-115 | paid spend comes from the already dampened sessions and is then dampened again: with identical draws, weekend spend before rounding is >= 0 and at most 0.7225 × the weekday spend |
| DailyAggregation.IdsOnNonEmptyIffValid | ingestion/generate_revops_sources.py:37-40 | a day has at least one distinct order id exactly when some parsed order falls on it |
| DailyAggregation.EarliestDay | ingestion/generate_revops_sources.py:32 | the result is None exactly when no timestamp parsed; otherwise it is a valid day no later than any valid day |
| DailyAggregation.LatestDay | ingestion/generate_revops_sources.py:33 | the result is None exactly when no timestamp parsed; otherwise it is a valid day no earlier than any valid day |
| DailyAggregation.Dense | ingestion/generate_revops_sources.py:34-42 | `count` consecutive days from `first`, each paired with its number of distinct order ids, and 0 when there are none |
| DailyAggregation.DailySeries | ingestion/generate_revops_sources.py:27-43 | fails exactly when no timestamp parsed; otherwise it starts at the earliest valid day, ends at the latest, has consecutive dates, and gives each day its count of distinct ids |
| DailyAggregation.ZeroExactlyOnEmptyDays | ingestion/generate_revops_sources.py:37-42 | a day of the series counts zero exactly when no parsed order falls on it |
| DailyAggregation.Parsed | ingestion/generate_revops_sources.py:27-30 | the kept rows are exactly the rows whose timestamp parsed, each kept as many times as it occurs in the input |
| DailyAggregation.ParsedKeepsOrder | ingestion/generate_revops_sources.py:30 | filtering a concatenation filters each part in place, so the kept rows stay in their original order |
| DailyAggregation.RangeDependsOnlyOnDays | ingestion/generate_revops_sources.py:32-33 | the first and last valid day depend only on the set of valid days |
| DailyAggregation.DenseDependsOnlyOnIds | ingestion/generate_revops_sources.py:37-42 | two tables with the same ids per day lay out the same entries over any range |
| DailyAggregation.SeriesDependsOnlyOnIdsPerDay | ingestion/generate_revops_sources.py:32-43 | two tables with the same valid days and the same ids per day yield the same series |
| DailyAggregation.UnparsedRowsIgnored | ingestion/generate_revops_sources.py:27-43 | dropping the rows whose timestamp did not parse changes neither the date range nor any count |
| DailyAggregation.AddRowKeepsGroups | ingestion/generate_revops_sources.py:36-39 | adding one row to the groups of a table gives the groups of the extended table: ids per day, first day and last day |
| DailyAggregation.GroupByDay | ingestion/generate_revops_sources.py:32-39 | one pass gives the valid days as keys, each day's distinct ids, and the earliest and latest valid day |
| DailyAggregation.Reindex | ingestion/generate_revops_sources.py:34-42 | reindexing the groups over first..last, with 0 for missing days, gives one entry per day holding that day's count of distinct ids |
| DailyAggregation.Aggregate | ingestion/generate_revops_sources.py:27-43 | grouping and then reindexing over the full range, filling gaps with zero, gives exactly `DailySeries` |
| Generator.Weekday | ingestion/generate_revops_sources.py:60 | the weekday of a day is in 0..6 |
| Generator.RowsFor | ingestion/generate_revops_sources.py:56-123 | the rows for day k and channel slot j carry day k's date and the j-th channel of the channel order, in both tables |
| Generator.EmitDay | ingestion/generate_revops_sources.py:57-123 | the inner loop emits exactly five funnel rows and five spend rows for the day, in channel order, each equal to `RowsFor` |
| Generator.GridExtend | ingestion/generate_revops_sources.py:97-123 | appending one day's five row pairs to a grid of n days gives a grid of n + 1 days |
| Generator.Generate | ingestion/generate_revops_sources.py:56-123 | both tables have 5 × (number of days) rows, and row 5k + j of each is day k, channel j, so the tables are date-major and pair up row by row |
| Generator.Run | ingestion/generate_revops_sources.py:14-43 | aborts with its own error, in the script's order, when the file is missing, when the timestamp column is missing, when no timestamp parses, or when the `order_id` column is missing; it succeeds in every other case, and then both tables have 5 × (max − min + 1) rows laid out as in `Generate` |
| Generator.DayPurchasesConserved | ingestion/generate_revops_sources.py:63-103 | the five funnel rows of a day carry exactly that day's purchase total between them |
| Generator.EmptyDayEmptyFunnel | ingestion/generate_revops_sources.py:69-103 | on a day with no purchases, every row has zero purchases, leads and sessions |
| Generator.RowsWellFormed | ingestion/generate_revops_sources.py:97-123 | every row has sessions, leads and purchases >= 0 and spend >= 0, and every Organic row spends exactly 0 |

## Left out

- Reading the CSV (lines 15-20 and 27-29): the model sees only whether the file exists, its column names, and per row an order id with an optional day. A missing `order_id` column is modelled as its own error; the id values of the rows are given regardless. `pd.to_datetime` parsing and the conversion to a calendar day are library calls, so a timestamp is given already as a day number or as None.
- Missing or NaN order ids: `nunique` ignores NaN ids. The model's ids are always present strings.
- An empty valid-date range: the model reads `pd.date_range` over two NaT bounds as raising an error. This behaviour is in pandas, not in the script's own lines.
- `np.random` and the seed 42 (line 12): the draws are parameters, so byte-identical reruns are not a property the model can state.
- Floating point: `total * 0.28`, `× 0.85`, the divisions and `round(..., 2)` are modelled on exact rationals. A binary product that lands just off an exact tie may round differently from the model.
- Rounding.RoundCents: states only the half-cent bound and non-negativity, not the exact decimal behaviour of `round(float, 2)` on binary floats.
- Generator.Weekday: states only the range 0..6. The epoch offset is part of the definition; `Timestamp.weekday()` is a library call.
- Writing the CSV files and the summary printout (lines 125-135): these are output only; the model returns the two tables. ISO date formatting (lines 99 and 119) is serialisation; rows carry the day number.
