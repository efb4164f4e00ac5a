# Cost analysis engine — a Dafny model

This project models `analyze_costs` and `_parse_date` from
`backend/api/services/cost_analysis_service.py`. This is the engine that turns
a flat batch of cloud cost records into a report. Each record has a resource
id, an amount, an optional currency and a usage date given as text.

The engine works in stages:

1. **Aggregation.** It takes the total spend, the spend per usage-date text,
   the spend per resource, and the last usage date of each resource. It parses
   every usage date, and a date that does not parse aborts the whole analysis.
2. **Spikes.** It walks the usage days in sorted order. A transition is
   recorded when the previous day's total is positive and the day's total
   moved by at least 20 percent of it. The move is graded medium (20
   percent), high (40) or critical (70).
3. **High-cost resources.** It flags the resources that spent at least 1.5
   times the mean per resource. At 2 times it grades them high.
4. **Stale resources.** It lists the resources last used at least 7 days
   before the latest last-use date of the batch. Their total spend is
   reported as the savings of deleting them.
5. **Trend, score and explanation.** The trend runs from the first day to
   the last. The score adds cost risk (from the largest spike and the number
   of high-cost resources) to waste risk (from the number of stale
   resources), and the health is 100 minus that, floored at 0. The
   explanation has five sentences in a fixed order.

An empty batch gets a canned idle report.

The modules follow the stages:

- `Wrappers`: `Option` and `Result`.
- `LexOrder`: Python string order, and digit strings.
- `Dates`: the calendar, `_parse_date` and `isoformat`.
- `Metrics`: `round(x, 2)`, `abs` and first-maximum selection.
- `Aggregation`, `Spikes`, `HighCost`, `Staleness`, `Scoring`: one module per stage.
- `Analysis`: the whole call and the properties of the report.

Each loop of the source is a method with loop invariants. Each method is proved
equal to a recursive specification function that visits its input in the same
order. The properties are lemmas about those functions.

Some design choices follow the source closely:

- **Day keys are the raw date text.** The source groups daily totals by that
  text and sorts it with Python's string order. The model does the same, and
  proves (`Dates.LexIsChronological`) that for text the parser accepts, string
  order is chronological order.
- **Iteration order is insertion order.** The high-cost and stale loops
  iterate over dictionaries in insertion order. The model carries that order
  as the sequence `resourceOrder`, the resources in order of first appearance.
- **Ties go to the first maximum.** `max(..., key=...)` and the first
  element of a stable `sorted(..., reverse=True)` both select the first
  maximum.

One quirk of the source is kept and stated. A spike's severity is graded on
the unrounded change. Its score is read from the change rounded to cents. So a
move of 69.996 percent is graded "high" but scores as critical
(`Scoring.RoundedMoveCanScoreHigher`).

## Model

| member | source | states |
|---|---|---|
| `Dates.ParseDate` | backend/api/services/cost_analysis_service.py:10-11 | a date the parser accepts is a valid calendar date (year 1 to 9999, month 1 to 12, day within the month) |
| `Dates.Ordinal` | backend/api/services/cost_analysis_service.py:127 | the day number of a valid date falls among the days of its own year, after every day of the years before it |
| `Dates.DaysBetween` | backend/api/services/cost_analysis_service.py:127 | the day difference is 0 exactly when the dates are equal, and positive exactly when the first date is the earlier |
| `Dates.NextDay` | backend/api/services/cost_analysis_service.py:127 | the next day is later than the date, and is a valid date unless it leaves year 9999 |
| `Dates.NextDayOrdinal` | backend/api/services/cost_analysis_service.py:127 | the day number of the next day is one more, across month ends, year ends and leap days, so the next day is 1 day away |
| `Dates.OrdinalOrder` | backend/api/services/cost_analysis_service.py:63 | comparing two dates is comparing their day numbers, and two dates are equal exactly when their day numbers are |
| `Dates.FormatDate` | backend/api/services/cost_analysis_service.py:132 | the `isoformat` text of a valid date has 10 characters |
| `Dates.ParseFormat` | backend/api/services/cost_analysis_service.py:132 | the `isoformat` text of a valid date parses back to that date |
| `Dates.FormatParse` | backend/api/services/cost_analysis_service.py:132 | a date text the parser accepts is exactly the `isoformat` text of its date, so parsing loses nothing |
| `Dates.FormatOrder` | backend/api/services/cost_analysis_service.py:71 | `isoformat` texts are in string order exactly when their dates are in chronological order |
| `Dates.LexIsChronological` | backend/api/services/cost_analysis_service.py:71 | for two texts the parser accepts, string order is the order of their day numbers |
| `LexOrder.LexIrreflexive` | backend/api/services/cost_analysis_service.py:71 | no string sorts before itself |
| `LexOrder.LexTransitive` | backend/api/services/cost_analysis_service.py:71 | string order is transitive |
| `LexOrder.LexTotal` | backend/api/services/cost_analysis_service.py:71 | of two different strings one sorts before the other |
| `Metrics.RoundHalfEven` | backend/api/services/cost_analysis_service.py:95-97 | the result is within one half of the argument, and a tie goes to the even neighbour |
| `Metrics.Round2` | backend/api/services/cost_analysis_service.py:95-97 | the result is a whole number of cents, within half a cent of the argument |
| `Metrics.RoundKeepsBound` | backend/api/services/cost_analysis_service.py:97 | rounding to cents never crosses a whole-cent bound, in either direction |
| `Metrics.RoundKeepsMagnitude` | backend/api/services/cost_analysis_service.py:166-167 | a value at least m cents from zero keeps that distance and its sign when rounded |
| `Metrics.FirstMaxIndex` | backend/api/services/cost_analysis_service.py:166 | the index is that of a largest value, and every earlier value is strictly smaller |
| `Aggregation.Aggregate` | backend/api/services/cost_analysis_service.py:52-64 | the loop fails exactly when some usage date does not parse, and then names the first such row; otherwise it yields the aggregates of the whole batch |
| `Aggregation.AddRow` | backend/api/services/cost_analysis_service.py:53-64 | one row adds its amount to the total, to its day and to its resource, appends a new resource to the insertion order, and keeps the later of the old and new last-use dates |
| `Aggregation.AggregateStep` | backend/api/services/cost_analysis_service.py:52-64 | the step lemma of the aggregation loop: the aggregates of one more row are those of the rows before it, updated with that row as the loop body does |
| `Aggregation.UsageDates` | backend/api/services/cost_analysis_service.py:62 | one parsed date per record, each the valid date that record's text parses to |
| `Aggregation.GroupKeysMeaning` | backend/api/services/cost_analysis_service.py:59-60 | every record's day and resource is a key, and every key is the day or resource of some record |
| `Aggregation.TotalsByMeaning` | backend/api/services/cost_analysis_service.py:59-60 | the daily and per-resource dictionaries have exactly the keys of the batch, and each value is the sum of the amounts of the records with that key, duplicates included |
| `Aggregation.ResourceOrderMeaning` | backend/api/services/cost_analysis_service.py:60 | the insertion order lists every resource of the batch exactly once |
| `Aggregation.OrderMatchesKeys` | backend/api/services/cost_analysis_service.py:105 | the insertion order lists exactly the keys of the per-resource totals |
| `Aggregation.LastDatesMeaning` | backend/api/services/cost_analysis_service.py:62-64 | each resource of the batch has a last-use date; it is the date of one of its records, and no record of the resource is later |
| `Aggregation.PartitionSum` | backend/api/services/cost_analysis_service.py:59-60 | summing the group totals over distinct keys that cover every group gives the total spend |
| `Aggregation.PartitionInvariant` | backend/api/services/cost_analysis_service.py:52-60 | the daily totals and the per-resource totals each add up to the total spend |
| `Aggregation.ResourceCount` | backend/api/services/cost_analysis_service.py:67 | the number of resources is the number of distinct resource ids |
| `Aggregation.SumsPermutation` | backend/api/services/cost_analysis_service.py:53-60 | reordering the rows changes neither the total spend nor the sum of any day or resource |
| `Aggregation.GroupKeysPermutation` | backend/api/services/cost_analysis_service.py:59-60 | reordering the rows changes neither the set of days nor the set of resources |
| `Aggregation.TotalsByPermutation` | backend/api/services/cost_analysis_service.py:59-60 | reordering the rows changes neither the daily dictionary nor the per-resource dictionary |
| `Aggregation.LastDatesPermutation` | backend/api/services/cost_analysis_service.py:62-64 | reordering the rows does not change the last-use date of any resource |
| `Aggregation.AggregatesPermutation` | backend/api/services/cost_analysis_service.py:52-64 | a reordered batch parses alike and has the same total, the same three dictionaries and the same resources; only the insertion order of the resources may differ |
| `Spikes.SortKeys` | backend/api/services/cost_analysis_service.py:71 | the result lists exactly the day keys, each once, in strictly increasing string order |
| `Spikes.SortedUnique` | backend/api/services/cost_analysis_service.py:71 | two strictly sorted lists of the same keys are equal, so the sorted day list is determined by the keys |
| `Spikes.SeverityOf` | backend/api/services/cost_analysis_service.py:82-88 | critical from 70 percent, high from 40 to 70, medium from 20 to 40, info below 20, by magnitude |
| `Spikes.SeverityMonotone` | backend/api/services/cost_analysis_service.py:82-88 | a larger move never lands in a lower band |
| `Spikes.ChangePercent` | backend/api/services/cost_analysis_service.py:81 | the change times the previous total is 100 times the move |
| `Spikes.TransitionSpike` | backend/api/services/cost_analysis_service.py:73-100 | a recorded transition has a positive previous total, runs from the previous day to the day, and is never graded info |
| `Spikes.DetectSpikes` | backend/api/services/cost_analysis_service.py:70-100 | the loop returns the spikes of all consecutive transitions, in day order |
| `Spikes.TransitionSpikeMeaning` | backend/api/services/cost_analysis_service.py:72-100 | a transition is recorded exactly when the previous total is positive and the move is at least 20 percent; the record names both days, its rounded move is at least 20 percent with the sign of the move, and it is never graded info |
| `Spikes.RoundedChange` | backend/api/services/cost_analysis_service.py:81-97 | the rounded move keeps the direction of the totals and the lower bound of its band |
| `Spikes.ChangeSign` | backend/api/services/cost_analysis_service.py:81 | from a positive previous total, the change is positive exactly when the total rose |
| `Spikes.RoundedBand` | backend/api/services/cost_analysis_service.py:83-97 | a move of at least 20 percent keeps its sign and its band's lower bound when rounded to cents |
| `Spikes.SpikesSound` | backend/api/services/cost_analysis_service.py:72-100 | every listed spike is the spike of some transition |
| `Spikes.SpikesComplete` | backend/api/services/cost_analysis_service.py:72-100 | the spike of every recorded transition is listed |
| `Spikes.SpikesCount` | backend/api/services/cost_analysis_service.py:72 | n days give at most n minus 1 spikes |
| `Spikes.SpikesChronological` | backend/api/services/cost_analysis_service.py:71-74 | each spike runs from a smaller day key to a larger one, and spikes are listed in increasing order of their later day |
| `Spikes.SpikesSignificant` | backend/api/services/cost_analysis_service.py:90-98 | every listed spike reports a move of at least 20 percent, is never graded info, and reports at least 40 or 70 percent when graded high or critical |
| `HighCost.AveragePerResource` | backend/api/services/cost_analysis_service.py:103 | the mean times the number of resources is the total, and with no resources the divisor is one |
| `HighCost.CostFactor` | backend/api/services/cost_analysis_service.py:106 | the factor times a positive mean is the resource's total, and the factor is 0 when the mean is not positive |
| `HighCost.HighCostEntry` | backend/api/services/cost_analysis_service.py:106-118 | an entry is made only when the mean is positive; it names the resource and is graded high or medium |
| `HighCost.FindHighCostResources` | backend/api/services/cost_analysis_service.py:104-118 | the loop returns the entries of the flagged resources in insertion order |
| `HighCost.HighCostEntryMeaning` | backend/api/services/cost_analysis_service.py:106-118 | a resource gets an entry exactly when it is flagged; the entry names it with its rounded total and a reported factor of at least 1.5, graded high exactly when its total is at least twice the mean, and medium otherwise |
| `HighCost.HighCostMembership` | backend/api/services/cost_analysis_service.py:105-118 | the list holds exactly the entries of the flagged resources |
| `HighCost.HighCostCount` | backend/api/services/cost_analysis_service.py:105-118 | there is at most one entry per resource, and one per resource only when every resource is flagged |
| `HighCost.NotAllHighCost` | backend/api/services/cost_analysis_service.py:103-118 | when the totals add up to the total spend, fewer resources are flagged than there are resources |
| `HighCost.SomeNotFlagged` | backend/api/services/cost_analysis_service.py:103-107 | when the totals add up to the total spend, some resource is not flagged |
| `HighCost.SingleResourceNotHighCost` | backend/api/services/cost_analysis_service.py:103-107 | a batch with a single resource flags nothing |
| `HighCost.HighCostReordered` | backend/api/services/cost_analysis_service.py:105-118 | iterating the same distinct resources in another order lists the same entries, as many of them |
| `Staleness.LatestDate` | backend/api/services/cost_analysis_service.py:122 | the latest last-use date is one of the last-use dates, and none is later |
| `Staleness.LatestReordered` | backend/api/services/cost_analysis_service.py:122 | the latest last-use date does not depend on the order of the resources |
| `Staleness.StaleEntry` | backend/api/services/cost_analysis_service.py:127-135 | an entry is made only for a last use before the latest date; it names the resource and its age is at least 7 days |
| `Staleness.FindStaleResources` | backend/api/services/cost_analysis_service.py:124-136 | the loop returns the entries of the stale resources in insertion order |
| `Staleness.StaleEntryMeaning` | backend/api/services/cost_analysis_service.py:127-135 | a resource gets an entry exactly when its last use is at least 7 days before the latest date; the entry's date text parses back to that last use, and it carries the age and the rounded total |
| `Staleness.StaleMembership` | backend/api/services/cost_analysis_service.py:126-136 | the list holds exactly the entries of the stale resources |
| `Staleness.StaleSound` | backend/api/services/cost_analysis_service.py:126-136 | every listed entry is the entry of a resource in the insertion order |
| `Staleness.StaleComplete` | backend/api/services/cost_analysis_service.py:126-136 | the entry of every stale resource is listed |
| `Staleness.LatestNeverStale` | backend/api/services/cost_analysis_service.py:122-128 | no age is negative, and a resource last used on the latest date is never listed |
| `Staleness.StaleAtLeastAWeek` | backend/api/services/cost_analysis_service.py:128 | every listed resource is at least 7 days old |
| `Staleness.StaleReordered` | backend/api/services/cost_analysis_service.py:126-136 | iterating the same distinct resources in another order lists the same stale entries, as many of them |
| `Scoring.TrendMeaning` | backend/api/services/cost_analysis_service.py:140-157 | there is no overall change exactly when the first day's total is not positive; a reported rise or fall matches the totals; a single positive day reports a change of 0 |
| `Scoring.TrendOf` | backend/api/services/cost_analysis_service.py:140-157 | the trend runs from the first listed day to the last, and has no overall change exactly when the first day's total is not positive |
| `Scoring.RoundedTrend` | backend/api/services/cost_analysis_service.py:146-157 | the rounded change from a positive first total has the direction of the move, and is 0 for equal totals |
| `Scoring.TrendSpansDays` | backend/api/services/cost_analysis_service.py:140-142 | the trend runs from the least day key to the greatest |
| `Scoring.TopSpike` | backend/api/services/cost_analysis_service.py:166 | the selected spike has the largest absolute reported move, and is the first spike with it |
| `Scoring.SpikeRisk` | backend/api/services/cost_analysis_service.py:165-172 | the risk is 0 exactly when there are no spikes, and otherwise one of 15, 30 and 50 |
| `Scoring.SpikeRiskMeaning` | backend/api/services/cost_analysis_service.py:165-172 | no spikes give 0; otherwise between 15 and 50, 50 exactly when some reported move reaches 70 percent, and at least 30 exactly when some reaches 40 |
| `Scoring.SpikeRiskCoversSeverity` | backend/api/services/cost_analysis_service.py:165-172 | a critical spike gives risk 50, and a high one at least 30 |
| `Scoring.RoundedMoveCanScoreHigher` | backend/api/services/cost_analysis_service.py:83-168 | every move whose magnitude is from 69.995 up to 70 percent is graded high, yet rounds to a magnitude of 70.0, which scores as critical |
| `Scoring.ScoreOf` | backend/api/services/cost_analysis_service.py:162-177 | cost risk lies in 0 to 80, waste risk in 0 to 40 and health in 0 to 100; health is 100 exactly when there are no spikes, no high-cost and no stale resources |
| `Scoring.ScoreMonotone` | backend/api/services/cost_analysis_service.py:174-177 | more high-cost or stale resources never lower a risk nor raise the health |
| `Scoring.ScoreSaturates` | backend/api/services/cost_analysis_service.py:174-175 | beyond 3 high-cost and 4 stale resources the score no longer changes |
| `Scoring.TopDriver` | backend/api/services/cost_analysis_service.py:205 | the selected resource has the largest rounded total, and is the first with it |
| `Scoring.ExplanationOf` | backend/api/services/cost_analysis_service.py:186-227 | the explanation of a batch with records has five sentences, opening with the spend summary and closing with the health line, and is never the idle sentence |
| `Scoring.Explain` | backend/api/services/cost_analysis_service.py:186-227 | the explanation assembled by appending parts is the specified five-sentence explanation |
| `Scoring.ExplanationMeaning` | backend/api/services/cost_analysis_service.py:186-225 | the explanation has five sentences: the spend summary; the largest swing (a spike's days, its absolute move, its direction, no spike larger) exactly when there are spikes; the top cost driver (a listed resource, none with a larger total) exactly when there are high-cost resources; the stale count; the health line |
| `Scoring.LargestSwingSignificant` | backend/api/services/cost_analysis_service.py:193-200 | the largest swing mentioned is at least 20 percent |
| `Analysis.EmptyReport` | backend/api/services/cost_analysis_service.py:24-42 | the idle report: zero spend in USD, no records, resources, spikes or listed resources, no trend, the score of nothing (health 100, no risk) and the single idle sentence |
| `Analysis.CurrencyOf` | backend/api/services/cost_analysis_service.py:46 | the record's own currency when it has one, and USD otherwise |
| `Analysis.ReportOf` | backend/api/services/cost_analysis_service.py:45-243 | the report counts the given records, reports the given currency, has a trend and a five-sentence explanation, and its score is the score of its own spikes, high-cost count and stale count |
| `Analysis.ReportFor` | backend/api/services/cost_analysis_service.py:45-243 | the report of a batch counts its records, reports its first record's currency, and its score is the score of its own lists |
| `Analysis.Analyze` | backend/api/services/cost_analysis_service.py:24-243 | an empty batch gets the idle report; otherwise the call fails exactly when some usage date does not parse, naming the first such row, and succeeds with the report of the batch over its sorted days |
| `Analysis.ReportDeterminate` | backend/api/services/cost_analysis_service.py:71 | any two strictly sorted lists of the day keys give the same report, so the report is a function of the batch alone |
| `Analysis.ReportPermutation` | backend/api/services/cost_analysis_service.py:45-243 | a reordered batch succeeds alike over the same sorted days and has the same total, counts, spikes, trend and score, and lists the same high-cost and stale entries |
| `Analysis.ReportSummary` | backend/api/services/cost_analysis_service.py:45-67 | the summary counts every record and every distinct resource, reports the first record's currency and the rounded total spend, and the daily and per-resource totals each add up to that spend |
| `Analysis.DayKeysParse` | backend/api/services/cost_analysis_service.py:59-62 | every day key is the text of a usage date that parses |
| `Analysis.SpikesDated` | backend/api/services/cost_analysis_service.py:71-100 | over days that all parse, every spike runs from a day to a chronologically later one |
| `Analysis.SpikesInDayOrder` | backend/api/services/cost_analysis_service.py:71-100 | over days that all parse, spikes are listed in chronological order of their later day |
| `Analysis.FewDaysNoSpikes` | backend/api/services/cost_analysis_service.py:71-72 | fewer than two distinct days give no spikes |
| `Analysis.DailySpikes` | backend/api/services/cost_analysis_service.py:71-100 | over sorted days that all parse, the spikes are significant, dated forward and chronological, and fewer than two days give none |
| `Analysis.ReportSpikes` | backend/api/services/cost_analysis_service.py:69-100 | in the report: fewer than two usage days give no spikes; each spike is at least 20 percent, graded above info, from a usage day to a later one; spikes are in chronological order |
| `Analysis.TrendDated` | backend/api/services/cost_analysis_service.py:140-142 | over days that all parse, the trend's first day is chronologically no later than any day and its last day no earlier |
| `Analysis.ReportTrend` | backend/api/services/cost_analysis_service.py:138-158 | the trend runs from the earliest usage date of the batch to the latest |
| `Analysis.HighCostFlagged` | backend/api/services/cost_analysis_service.py:103-118 | when the totals add up to the total spend, fewer entries than resources are listed, each a flagged resource with its rounded total |
| `Analysis.ReportHighCost` | backend/api/services/cost_analysis_service.py:102-118 | fewer resources are flagged than there are; each flagged one occurs in the batch, carries its rounded total, and spent at least 1.5 times the mean |
| `Analysis.LatestIsBatchLatest` | backend/api/services/cost_analysis_service.py:122 | the date staleness is measured from is the usage date of some record, and no record is later |
| `Analysis.OlderStillStale` | backend/api/services/cost_analysis_service.py:127-128 | a use no later than a stale last use is at least as old |
| `Analysis.StaleFromBatch` | backend/api/services/cost_analysis_service.py:120-136 | the facts of `ReportStale`, for an entry of the stale list of the batch's aggregates |
| `Analysis.ReportStale` | backend/api/services/cost_analysis_service.py:120-136 | a stale resource occurs in the batch; its date text is that of one of its records; all its records are at least 7 days before the batch's latest usage date; its savings are its rounded total |

## Left out

- `fetch_all_costs` (line 22) reads the records from the database. The model takes the batch as a parameter instead; database access, routes, ingestion and the frontend are not part of this model.
- `Dates.ParseDate` accepts only the `YYYY-MM-DD` form with a valid calendar date. `datetime.fromisoformat` also accepts other ISO 8601 forms (basic format such as `20240105`, week dates, times and offsets). Those texts are rejected by the model, so a batch holding them fails here but not in the source. Day keys of those forms, and time-of-day parts in the age computation, are not modelled.
- Amounts are exact real numbers. The `float(...)` conversion of `cost_amount` (line 53) and its failure on text that is not a number are not modelled, nor is binary floating-point accumulation.
- `Metrics.Round2` rounds the exact value half to even. Python's `round(x, 2)` rounds the nearest binary double, so it can differ on values such as 2.675.
- `Scoring.ExplanationOf` and `Scoring.Explain` model each sentence as the variant chosen and the values it mentions. The f-string number formatting and the final `" ".join` (line 227) are not modelled. The idle report's explanation is the single sentence `NoDataYet`.
- `Analysis.CurrencyOf` reads the currency as present or absent. A record whose currency key is present with the value `None` is not distinguished from one without the key.
- `Spikes.SortKeys` is a selection of the least remaining key, proved to yield the unique strictly sorted list of the keys. The algorithm of Python's `sorted` is not modelled, only its result.
- When a date fails to parse, the source raises partway through the aggregation loop. The model returns the error of the first such row. The partial dictionaries built before the failure are discarded in both, so nothing observable is lost.
- `Analysis.ReportPermutation` does not claim the whole report is unchanged when the records are reordered, because the source does not promise that. The currency comes from the first record (line 46). The high-cost and stale lists follow the insertion order of the resources (lines 105 and 126). The explanation names the first largest spike and the first largest driver (lines 166 and 205), so ties can resolve differently.
- The `category` field of a record is not read by the engine and is omitted from `Aggregation.Record`.
