/**
 * `analyze_costs`: the whole report for a batch of cost records. An empty
 * batch yields the canned idle report; a batch with an unparsable usage date
 * yields the error of its first such row and no report; any other batch runs
 * the five stages in order and yields the summary, the spikes, the
 * high-cost and stale resources, the trend, the score and the explanation.
 */
module Analysis {
  import opened Wrappers
  import opened LexOrder
  import opened Dates
  import opened Metrics
  import opened Aggregation
  import opened Spikes
  import opened HighCost
  import opened Staleness
  import opened Scoring

  /** The currency reported when the first record names none. */
  const DefaultCurrency: string := "USD"

  datatype Summary = Summary(totalCost: real, currency: string, numRecords: nat, numResources: nat)

  /** The payload; `trends` is `None` for the empty dictionary of the idle report. */
  datatype Report = Report(
    summary: Summary,
    spikes: seq<Spike>,
    highCostResources: seq<HighCostResource>,
    unusedResources: seq<StaleResource>,
    trends: Option<Trends>,
    score: Score,
    explanation: seq<Sentence>)

  /**
   * The report for a batch with no records: nothing found, no trend, the
   * score that nothing flagged earns, and the idle sentence alone.
   */
  function EmptyReport(): (r: Report)
    ensures r.summary.totalCost == 0.0 && r.summary.currency == DefaultCurrency
    ensures r.summary.numRecords == 0 && r.summary.numResources == 0
    ensures r.spikes == [] && r.highCostResources == [] && r.unusedResources == [] && r.trends.None?
    ensures r.score == ScoreOf([], 0, 0)
    ensures r.explanation == [NoDataYet]
  {
    Report(Summary(0.0, DefaultCurrency, 0, 0), [], [], [], None, Score(100, 0, 0), [NoDataYet])
  }

  /** `costs[0].get("currency", "USD")`. */
  function CurrencyOf(r: Record): (c: string)
    ensures r.currency.Some? ==> c == r.currency.value
    ensures r.currency.None? ==> c == DefaultCurrency
  {
    match r.currency
    case Some(c) => c
    case None => DefaultCurrency
  }

  /**
   * What the later stages rely on in the aggregates of a non-empty batch:
   * every resource in the insertion order has a total and a valid last-use
   * date, and there is at least one resource.
   */
  predicate WellFormed(a: Aggregates)
  {
    && Keyed(a.resourceOrder, a.resourceTotals)
    && Dated(a.resourceOrder, a.resourceLastDate, a.resourceTotals)
    && |a.resourceOrder| > 0
  }

  /** Every resource in the insertion order has a valid last-use date and a total. */
  lemma {:induction false} OrderDated(rs: seq<Record>)
    requires AllDatesParse(rs)
    ensures Dated(ResourceOrderOf(rs), LastDatesOf(rs, UsageDates(rs)), TotalsBy(rs, ByResource))
  {
    var dates := UsageDates(rs);
    var order, lastDates := ResourceOrderOf(rs), LastDatesOf(rs, dates);
    OrderMatchesKeys(rs);
    ResourceOrderMeaning(rs);
    LastDatesMeaning(rs, dates);
    forall i | 0 <= i < |order|
      ensures order[i] in lastDates && ValidDate(lastDates[order[i]])
    {
      var k := order[i];
      assert k in lastDates;
      var j :| 0 <= j < |rs| && rs[j].resourceId == k && dates[j] == lastDates[k];
    }
  }

  /** The first record's day and resource are keys of the aggregates. */
  lemma {:induction false} FirstRecordKeyed(rs: seq<Record>)
    requires rs != []
    ensures rs[0].usageDate in TotalsBy(rs, ByDay)
    ensures rs[0].resourceId in ResourceOrderOf(rs)
  {
    TotalsByMeaning(rs, ByDay);
    ResourceOrderMeaning(rs);
    GroupKeysMeaning(rs, ByDay);
    GroupKeysMeaning(rs, ByResource);
    assert KeyOf(rs[0], ByDay) in GroupKeys(rs, ByDay);
    assert KeyOf(rs[0], ByResource) in GroupKeys(rs, ByResource);
  }

  /** The aggregates of a non-empty batch whose dates all parse are well formed. */
  lemma {:induction false} AggregatesShape(rs: seq<Record>)
    requires rs != [] && AllDatesParse(rs)
    ensures WellFormed(AggregatesOf(rs))
  {
    var a := AggregatesOf(rs);
    assert a.resourceOrder == ResourceOrderOf(rs) && a.resourceTotals == TotalsBy(rs, ByResource);
    assert a.dailyTotals == TotalsBy(rs, ByDay) && a.resourceLastDate == LastDatesOf(rs, UsageDates(rs));
    OrderMatchesKeys(rs);
    OrderDated(rs);
    FirstRecordKeyed(rs);
  }

  /** The report built from well-formed aggregates, with `ds` the sorted usage days. */
  function ReportOf(a: Aggregates, numRecords: nat, currency: string, ds: seq<string>): (r: Report)
    requires WellFormed(a) && SortedKeys(ds, a.dailyTotals) && |ds| > 0
    ensures r.summary.numRecords == numRecords && r.summary.currency == currency
    ensures r.trends.Some? && |r.explanation| == 5
    ensures r.score == ScoreOf(r.spikes, |r.highCostResources|, |r.unusedResources|)
  {
    var numResources := |a.resourceTotals|;
    var spikes := SpikesOf(ds, a.dailyTotals);
    var avg := AveragePerResource(a.totalCost, numResources);
    var hs := HighCostOf(a.resourceOrder, a.resourceTotals, avg);
    var latest := LatestDate(a.resourceOrder, a.resourceLastDate);
    var unused := StaleOf(a.resourceOrder, a.resourceLastDate, a.resourceTotals, latest);
    var score := ScoreOf(spikes, |hs|, |unused|);
    Report(
      Summary(Round2(a.totalCost), currency, numRecords, numResources),
      spikes, hs, unused,
      Some(TrendOf(ds, a.dailyTotals)),
      score,
      ExplanationOf(a.totalCost, currency, numResources, numRecords, spikes, hs, unused, score))
  }

  /** The report of a non-empty batch whose dates all parse, with `ds` its sorted usage days. */
  function ReportFor(rs: seq<Record>, ds: seq<string>): (r: Report)
    requires rs != [] && AllDatesParse(rs)
    requires SortedKeys(ds, AggregatesOf(rs).dailyTotals)
    ensures r.summary.numRecords == |rs| && r.summary.currency == CurrencyOf(rs[0])
    ensures r.score == ScoreOf(r.spikes, |r.highCostResources|, |r.unusedResources|)
  {
    AggregatesShape(rs);
    FirstRecordKeyed(rs);
    assert rs[0].usageDate in ds;
    ReportOf(AggregatesOf(rs), |rs|, CurrencyOf(rs[0]), ds)
  }

  /**
   * The analysis. An empty batch gets the idle report. Otherwise it fails
   * exactly when some usage date does not parse, naming the first such row,
   * and it succeeds with the report of the batch over its sorted usage days.
   */
  method Analyze(rs: seq<Record>) returns (res: Result<Report, DateError>)
    ensures rs == [] ==> res == Success(EmptyReport())
    ensures rs != [] ==> (res.Failure? <==> !AllDatesParse(rs))
    ensures res.Failure? ==> FirstMalformed(rs, res.error)
    ensures rs != [] && res.Success? ==>
              && AllDatesParse(rs)
              && exists ds :: SortedKeys(ds, AggregatesOf(rs).dailyTotals) && res.value == ReportFor(rs, ds)
  {
    if rs == [] {
      return Success(EmptyReport());
    }
    var currency := CurrencyOf(rs[0]);
    var aggregated := Aggregate(rs);
    if aggregated.Failure? {
      return Failure(aggregated.error);
    }
    var a := aggregated.value;
    AggregatesShape(rs);
    var numRecords, numResources := |rs|, |a.resourceTotals|;

    var datesSorted := SortKeys(a.dailyTotals);
    var spikes := DetectSpikes(datesSorted, a.dailyTotals);

    var avgPerResource := a.totalCost / Max(numResources, 1) as real;
    var highCost := FindHighCostResources(a.resourceOrder, a.resourceTotals, avgPerResource);

    var latestDate := LatestDate(a.resourceOrder, a.resourceLastDate);
    var unused := FindStaleResources(a.resourceOrder, a.resourceLastDate, a.resourceTotals, latestDate);

    FirstRecordKeyed(rs);
    assert rs[0].usageDate in datesSorted;
    var trends := TrendOf(datesSorted, a.dailyTotals);
    var score := ScoreOf(spikes, |highCost|, |unused|);
    var explanation := Explain(a.totalCost, currency, numResources, numRecords, spikes, highCost, unused, score);

    res := Success(Report(
      Summary(Round2(a.totalCost), currency, numRecords, numResources),
      spikes, highCost, unused, Some(trends), score, explanation));
    assert res.value == ReportOf(a, |rs|, currency, datesSorted);
  }

  // ---------- Properties of the report ----------

  /** The report of a batch is the report of its aggregates. */
  lemma {:induction false} ReportUnfold(rs: seq<Record>, ds: seq<string>)
    requires rs != [] && AllDatesParse(rs)
    requires SortedKeys(ds, AggregatesOf(rs).dailyTotals)
    ensures WellFormed(AggregatesOf(rs)) && |ds| > 0
    ensures ReportFor(rs, ds) == ReportOf(AggregatesOf(rs), |rs|, CurrencyOf(rs[0]), ds)
  {
    AggregatesShape(rs);
    FirstRecordKeyed(rs);
    assert rs[0].usageDate in ds;
  }

  /** Each section of the report is the result of its stage. */
  lemma {:induction false} ReportFields(a: Aggregates, numRecords: nat, currency: string, ds: seq<string>)
    requires WellFormed(a) && SortedKeys(ds, a.dailyTotals) && |ds| > 0
    ensures var r := ReportOf(a, numRecords, currency, ds);
            && r.summary == Summary(Round2(a.totalCost), currency, numRecords, |a.resourceTotals|)
            && r.spikes == SpikesOf(ds, a.dailyTotals)
            && r.highCostResources
               == HighCostOf(a.resourceOrder, a.resourceTotals, AveragePerResource(a.totalCost, |a.resourceTotals|))
            && r.unusedResources
               == StaleOf(a.resourceOrder, a.resourceLastDate, a.resourceTotals,
                          LatestDate(a.resourceOrder, a.resourceLastDate))
            && r.trends == Some(TrendOf(ds, a.dailyTotals))
  {
  }

  /** The sorted day list is determined by the batch, so the report is too. */
  lemma {:induction false} ReportDeterminate(rs: seq<Record>, ds1: seq<string>, ds2: seq<string>)
    requires rs != [] && AllDatesParse(rs)
    requires SortedKeys(ds1, AggregatesOf(rs).dailyTotals) && SortedKeys(ds2, AggregatesOf(rs).dailyTotals)
    ensures ReportFor(rs, ds1) == ReportFor(rs, ds2)
  {
    SortedUnique(ds1, ds2);
  }

  lemma {:induction false} SortedDistinct(ds: seq<string>)
    requires StrictlySorted(ds)
    ensures NoDuplicates(ds)
  {
    forall i, j | 0 <= i < j < |ds|
      ensures ds[i] != ds[j]
    {
      LexIrreflexive(ds[i]);
    }
  }

  /**
   * The summary counts every record and every distinct resource, and its
   * total is the rounded spend of all records, which is also what the daily
   * totals and the per-resource totals each add up to.
   */
  lemma {:induction false} ReportSummary(rs: seq<Record>, ds: seq<string>)
    requires rs != [] && AllDatesParse(rs)
    requires SortedKeys(ds, AggregatesOf(rs).dailyTotals)
    ensures ReportFor(rs, ds).summary.numRecords == |rs|
    ensures ReportFor(rs, ds).summary.numResources == |GroupKeys(rs, ByResource)|
    ensures ReportFor(rs, ds).summary.totalCost == Round2(Total(rs))
    ensures SumValues(AggregatesOf(rs).dailyTotals, ds) == Total(rs)
    ensures SumValues(AggregatesOf(rs).resourceTotals, AggregatesOf(rs).resourceOrder) == Total(rs)
    ensures ReportFor(rs, ds).summary.currency == CurrencyOf(rs[0])
  {
    ReportUnfold(rs, ds);
    ReportFields(AggregatesOf(rs), |rs|, CurrencyOf(rs[0]), ds);
    SortedDistinct(ds);
    PartitionInvariant(rs, ds);
    ResourceCount(rs);
  }

  /** Every key of the daily totals is the usage date of some record, so it parses. */
  lemma {:induction false} DayKeysParse(rs: seq<Record>)
    requires AllDatesParse(rs)
    ensures forall k :: k in AggregatesOf(rs).dailyTotals ==> ParseDate(k).Some?
  {
    TotalsByMeaning(rs, ByDay);
    GroupKeysMeaning(rs, ByDay);
  }

  /** Both days of the spike parse, and the first is chronologically before the second. */
  predicate DatedSpike(s: Spike)
  {
    && ParseDate(s.fromDate).Some? && ParseDate(s.toDate).Some?
    && Ordinal(ParseDate(s.fromDate).value) < Ordinal(ParseDate(s.toDate).value)
  }

  /** The later days of the spikes parse and are in strictly increasing chronological order. */
  predicate InDayOrder(spikes: seq<Spike>)
  {
    forall p, q :: 0 <= p < q < |spikes| ==>
      && ParseDate(spikes[p].toDate).Some? && ParseDate(spikes[q].toDate).Some?
      && Ordinal(ParseDate(spikes[p].toDate).value) < Ordinal(ParseDate(spikes[q].toDate).value)
  }

  /**
   * Over days that all parse, every spike runs from a day to a
   * chronologically later one.
   */
  lemma {:induction false} SpikesDated(ds: seq<string>, daily: map<string, real>)
    requires SortedKeys(ds, daily)
    requires forall k :: k in daily ==> ParseDate(k).Some?
    ensures forall s :: s in SpikesOf(ds, daily) ==> DatedSpike(s)
  {
    var spikes := SpikesOf(ds, daily);
    SpikesChronological(ds, daily, |ds|);
    forall s | s in spikes
      ensures DatedSpike(s)
    {
      var p :| 0 <= p < |spikes| && spikes[p] == s;
      SpikesSound(ds, daily, |ds|, p);
      LexIsChronological(s.fromDate, s.toDate);
    }
  }

  /** Over days that all parse, the spikes are listed in chronological order of their later day. */
  lemma {:induction false} SpikesInDayOrder(ds: seq<string>, daily: map<string, real>)
    requires SortedKeys(ds, daily)
    requires forall k :: k in daily ==> ParseDate(k).Some?
    ensures InDayOrder(SpikesOf(ds, daily))
  {
    var spikes := SpikesOf(ds, daily);
    SpikesChronological(ds, daily, |ds|);
    forall p, q | 0 <= p < q < |spikes|
      ensures ParseDate(spikes[p].toDate).Some? && ParseDate(spikes[q].toDate).Some?
      ensures Ordinal(ParseDate(spikes[p].toDate).value) < Ordinal(ParseDate(spikes[q].toDate).value)
    {
      SpikesSound(ds, daily, |ds|, p);
      SpikesSound(ds, daily, |ds|, q);
      LexIsChronological(spikes[p].toDate, spikes[q].toDate);
    }
  }

  /**
   * Fewer than two usage days give no spikes. Every spike reports a move of
   * at least 20 percent and is graded above "info", runs from a usage day to
   * a chronologically later one, and the spikes are listed in chronological
   * order.
   */
  lemma {:induction false} ReportSpikes(rs: seq<Record>, ds: seq<string>)
    requires rs != [] && AllDatesParse(rs)
    requires SortedKeys(ds, AggregatesOf(rs).dailyTotals)
    ensures |AggregatesOf(rs).dailyTotals| < 2 ==> ReportFor(rs, ds).spikes == []
    ensures forall s :: s in ReportFor(rs, ds).spikes ==> GradedByChange(s) && DatedSpike(s)
    ensures InDayOrder(ReportFor(rs, ds).spikes)
  {
    BatchSpikes(rs, ds);
    DayKeysParse(rs);
    DailySpikes(ds, AggregatesOf(rs).dailyTotals);
  }

  /** The facts of `ReportSpikes`, for the spikes over any sorted days that all parse. */
  lemma {:induction false} DailySpikes(ds: seq<string>, daily: map<string, real>)
    requires SortedKeys(ds, daily)
    requires forall k :: k in daily ==> ParseDate(k).Some?
    ensures |daily| < 2 ==> SpikesOf(ds, daily) == []
    ensures forall s :: s in SpikesOf(ds, daily) ==> GradedByChange(s) && DatedSpike(s)
    ensures InDayOrder(SpikesOf(ds, daily))
  {
    FewDaysNoSpikes(ds, daily);
    SpikesSignificant(ds, daily, |ds|);
    SpikesDated(ds, daily);
    SpikesInDayOrder(ds, daily);
  }

  /** The spikes of the report are those of the batch's daily totals. */
  lemma {:induction false} BatchSpikes(rs: seq<Record>, ds: seq<string>)
    requires rs != [] && AllDatesParse(rs)
    requires SortedKeys(ds, AggregatesOf(rs).dailyTotals)
    ensures ReportFor(rs, ds).spikes == SpikesOf(ds, AggregatesOf(rs).dailyTotals)
  {
    ReportUnfold(rs, ds);
    ReportFields(AggregatesOf(rs), |rs|, CurrencyOf(rs[0]), ds);
  }

  /** Fewer than two days have no transition, so no spike. */
  lemma {:induction false} FewDaysNoSpikes(ds: seq<string>, daily: map<string, real>)
    requires SortedKeys(ds, daily)
    ensures |daily| < 2 ==> SpikesOf(ds, daily) == []
  {
    SortedDistinct(ds);
    DistinctCount(ds, daily.Keys);
    SpikesCount(ds, daily, |ds|);
  }

  /**
   * Over days that all parse, the trend's first day is chronologically no
   * later than any day and its last day no earlier.
   */
  lemma {:induction false} TrendDated(ds: seq<string>, daily: map<string, real>)
    requires SortedKeys(ds, daily) && |ds| > 0
    requires forall k :: k in daily ==> ParseDate(k).Some?
    ensures var t := TrendOf(ds, daily);
            && ParseDate(t.firstDay.date).Some? && ParseDate(t.lastDay.date).Some?
            && forall k :: k in daily ==>
                 && Ordinal(ParseDate(t.firstDay.date).value) <= Ordinal(ParseDate(k).value)
                 && Ordinal(ParseDate(k).value) <= Ordinal(ParseDate(t.lastDay.date).value)
  {
    var t := TrendOf(ds, daily);
    TrendSpansDays(ds, daily);
    assert t.firstDay.date in daily && t.lastDay.date in daily;
    forall k | k in daily
      ensures Ordinal(ParseDate(t.firstDay.date).value) <= Ordinal(ParseDate(k).value)
      ensures Ordinal(ParseDate(k).value) <= Ordinal(ParseDate(t.lastDay.date).value)
    {
      LexIsChronological(t.firstDay.date, k);
      LexIsChronological(k, t.lastDay.date);
    }
  }

  /**
   * The trend's first day is the earliest usage date of the batch and its
   * last day the latest, chronologically.
   */
  lemma {:induction false} ReportTrend(rs: seq<Record>, ds: seq<string>)
    requires rs != [] && AllDatesParse(rs)
    requires SortedKeys(ds, AggregatesOf(rs).dailyTotals)
    ensures ReportFor(rs, ds).trends.Some?
    ensures var t := ReportFor(rs, ds).trends.value;
            && ParseDate(t.firstDay.date).Some? && ParseDate(t.lastDay.date).Some?
            && forall i :: 0 <= i < |rs| ==>
                 && Ordinal(ParseDate(t.firstDay.date).value) <= Ordinal(UsageDates(rs)[i])
                 && Ordinal(UsageDates(rs)[i]) <= Ordinal(ParseDate(t.lastDay.date).value)
  {
    var daily := AggregatesOf(rs).dailyTotals;
    ReportUnfold(rs, ds);
    ReportFields(AggregatesOf(rs), |rs|, CurrencyOf(rs[0]), ds);
    DayKeysParse(rs);
    TrendDated(ds, daily);
    TotalsByMeaning(rs, ByDay);
    GroupKeysMeaning(rs, ByDay);
    forall i | 0 <= i < |rs|
      ensures rs[i].usageDate in daily && ParseDate(rs[i].usageDate) == Some(UsageDates(rs)[i])
    {
      assert KeyOf(rs[i], ByDay) in GroupKeys(rs, ByDay);
    }
  }

  /**
   * No more than all but one resource is flagged as high-cost, and each
   * flagged resource occurs in the batch, with its rounded total, and spent at
   * least one and a half times the average per resource.
   */
  lemma {:induction false} ReportHighCost(rs: seq<Record>, ds: seq<string>)
    requires rs != [] && AllDatesParse(rs)
    requires SortedKeys(ds, AggregatesOf(rs).dailyTotals)
    ensures |ReportFor(rs, ds).highCostResources| < ReportFor(rs, ds).summary.numResources
    ensures forall h :: h in ReportFor(rs, ds).highCostResources ==>
              && h.resourceId in GroupKeys(rs, ByResource)
              && h.totalCost == Round2(GroupTotal(rs, ByResource, h.resourceId))
              && Flagged(GroupTotal(rs, ByResource, h.resourceId),
                         AveragePerResource(Total(rs), |GroupKeys(rs, ByResource)|))
  {
    var a := AggregatesOf(rs);
    ReportUnfold(rs, ds);
    ReportFields(a, |rs|, CurrencyOf(rs[0]), ds);
    SortedDistinct(ds);
    PartitionInvariant(rs, ds);
    ResourceCount(rs);
    var avg := AveragePerResource(a.totalCost, |a.resourceOrder|);
    HighCostFlagged(a.resourceOrder, a.resourceTotals, a.totalCost);
    ResourceOrderMeaning(rs);
    TotalsByMeaning(rs, ByResource);
  }

  /**
   * When the totals of the resources in `order` add up to `total`, fewer
   * entries than resources are listed, and each listed entry names a
   * flagged resource of `order` with its rounded total.
   */
  lemma {:induction false} HighCostFlagged(order: seq<string>, totals: map<string, real>, total: real)
    requires Keyed(order, totals) && |order| > 0
    requires SumValues(totals, order) == total
    ensures var hs := HighCostOf(order, totals, AveragePerResource(total, |order|));
            && |hs| < |order|
            && forall h :: h in hs ==>
                 && h.resourceId in order
                 && h.totalCost == Round2(totals[h.resourceId])
                 && Flagged(totals[h.resourceId], AveragePerResource(total, |order|))
  {
    var avg := AveragePerResource(total, |order|);
    var hs := HighCostOf(order, totals, avg);
    NotAllHighCost(order, totals, total);
    HighCostMembership(order, totals, avg, |order|);
    assert order[..|order|] == order;
    forall h | h in hs
      ensures h.totalCost == Round2(totals[h.resourceId]) && Flagged(totals[h.resourceId], avg)
    {
      HighCostEntryMeaning(h.resourceId, totals[h.resourceId], avg);
    }
  }

  /**
   * The date the stale check measures from is the latest usage date of the
   * whole batch: one record has it and no record is later.
   */
  lemma {:induction false} LatestIsBatchLatest(rs: seq<Record>)
    requires rs != [] && AllDatesParse(rs)
    ensures var a := AggregatesShapeHolds(rs);
            var latest := LatestDate(a.resourceOrder, a.resourceLastDate);
            && (exists i :: 0 <= i < |rs| && UsageDates(rs)[i] == latest)
            && forall i :: 0 <= i < |rs| ==> !Before(latest, UsageDates(rs)[i])
  {
    var a := AggregatesShapeHolds(rs);
    LastDatesMeaning(rs, UsageDates(rs));
    ResourceOrderMeaning(rs);
    LatestIsLatestRecord(rs, a.resourceOrder, a.resourceLastDate);
  }

  /**
   * When `lastDates` holds the last use of each resource of the batch, the
   * latest of them is the usage date of some record and no record is later.
   */
  lemma {:induction false} LatestIsLatestRecord(rs: seq<Record>, order: seq<string>, lastDates: map<string, Date>)
    requires AllDatesParse(rs)
    requires LastDated(order, lastDates) && |order| > 0
    requires LastUses(rs, UsageDates(rs), lastDates)
    requires forall k :: k in order <==> k in GroupKeys(rs, ByResource)
    ensures var latest := LatestDate(order, lastDates);
            && (exists i :: 0 <= i < |rs| && UsageDates(rs)[i] == latest)
            && forall i :: 0 <= i < |rs| ==> !Before(latest, UsageDates(rs)[i])
  {
    var dates := UsageDates(rs);
    var latest := LatestDate(order, lastDates);
    var r :| 0 <= r < |order| && latest == lastDates[order[r]];
    var j :| 0 <= j < |rs| && rs[j].resourceId == order[r] && dates[j] == lastDates[order[r]];
    forall i | 0 <= i < |rs|
      ensures !Before(latest, dates[i])
    {
      LatestCoversRecord(rs, order, lastDates, i);
    }
  }

  /** No record is dated after the latest last-use date. */
  lemma {:induction false} LatestCoversRecord(rs: seq<Record>, order: seq<string>, lastDates: map<string, Date>,
                                              i: nat)
    requires AllDatesParse(rs) && i < |rs|
    requires LastDated(order, lastDates) && |order| > 0
    requires LastUses(rs, UsageDates(rs), lastDates)
    requires forall k :: k in order <==> k in GroupKeys(rs, ByResource)
    ensures !Before(LatestDate(order, lastDates), UsageDates(rs)[i])
  {
    var latest := LatestDate(order, lastDates);
    var rid := rs[i].resourceId;
    GroupKeysMeaning(rs, ByResource);
    assert KeyOf(rs[i], ByResource) in GroupKeys(rs, ByResource);
    var p :| 0 <= p < |order| && order[p] == rid;
    OrdinalOrder(latest, lastDates[rid]);
    OrdinalOrder(lastDates[rid], UsageDates(rs)[i]);
    OrdinalOrder(latest, UsageDates(rs)[i]);
  }

  /** `AggregatesOf(rs)`, for a batch the later stages accept. */
  function AggregatesShapeHolds(rs: seq<Record>): (a: Aggregates)
    requires rs != [] && AllDatesParse(rs)
    ensures a == AggregatesOf(rs)
    ensures WellFormed(a)
  {
    AggregatesShape(rs);
    AggregatesOf(rs)
  }

  /**
   * Every stale resource occurs in the batch; its reported last usage date is
   * the usage date text of one of its records; every one of its records is
   * dated at least seven days before the latest usage date of the batch; and
   * its estimated savings are its rounded total spend.
   */
  lemma {:induction false} ReportStale(rs: seq<Record>, ds: seq<string>, u: StaleResource)
    requires rs != [] && AllDatesParse(rs)
    requires SortedKeys(ds, AggregatesOf(rs).dailyTotals)
    requires u in ReportFor(rs, ds).unusedResources
    ensures u.daysSinceLastUse >= StaleThresholdDays
    ensures u.estimatedSavingsIfDeleted == Round2(GroupTotal(rs, ByResource, u.resourceId))
    ensures exists j :: 0 <= j < |rs| && rs[j].resourceId == u.resourceId && rs[j].usageDate == u.lastUsageDate
    ensures var a := AggregatesShapeHolds(rs);
            var latest := LatestDate(a.resourceOrder, a.resourceLastDate);
            forall i :: 0 <= i < |rs| && rs[i].resourceId == u.resourceId ==>
              DaysBetween(UsageDates(rs)[i], latest) >= StaleThresholdDays
  {
    var a := AggregatesShapeHolds(rs);
    ReportUnfold(rs, ds);
    ReportFields(a, |rs|, CurrencyOf(rs[0]), ds);
    StaleFromBatch(rs, u);
  }

  /** The facts of `ReportStale`, for an entry of the stale list of the batch's aggregates. */
  lemma {:induction false} StaleFromBatch(rs: seq<Record>, u: StaleResource)
    requires rs != [] && AllDatesParse(rs)
    requires var a := AggregatesShapeHolds(rs);
             u in StaleOf(a.resourceOrder, a.resourceLastDate, a.resourceTotals,
                          LatestDate(a.resourceOrder, a.resourceLastDate))
    ensures u.daysSinceLastUse >= StaleThresholdDays
    ensures u.estimatedSavingsIfDeleted == Round2(GroupTotal(rs, ByResource, u.resourceId))
    ensures exists j :: 0 <= j < |rs| && rs[j].resourceId == u.resourceId && rs[j].usageDate == u.lastUsageDate
    ensures var a := AggregatesShapeHolds(rs);
            var latest := LatestDate(a.resourceOrder, a.resourceLastDate);
            forall i :: 0 <= i < |rs| && rs[i].resourceId == u.resourceId ==>
              DaysBetween(UsageDates(rs)[i], latest) >= StaleThresholdDays
  {
    var a := AggregatesShapeHolds(rs);
    var latest := LatestDate(a.resourceOrder, a.resourceLastDate);
    StaleMembership(a.resourceOrder, a.resourceLastDate, a.resourceTotals, latest, |a.resourceOrder|);
    assert a.resourceOrder[..|a.resourceOrder|] == a.resourceOrder;
    LastDatesMeaning(rs, UsageDates(rs));
    TotalsByMeaning(rs, ByResource);
    StaleEntryFacts(rs, a.resourceLastDate, a.resourceTotals, latest, u);
  }

  /**
   * When `lastDates` holds the last use of each resource of the batch and
   * `totals` its total spend, a stale entry measured from `latest` quotes one
   * of the resource's records' date text, finds all its records at least a
   * week old, and offers its rounded total as savings.
   */
  lemma {:induction false} StaleEntryFacts(rs: seq<Record>, lastDates: map<string, Date>, totals: map<string, real>,
                        latest: Date, u: StaleResource)
    requires AllDatesParse(rs) && ValidDate(latest)
    requires LastUses(rs, UsageDates(rs), lastDates)
    requires forall k :: k in totals ==> totals[k] == GroupTotal(rs, ByResource, k)
    requires u.resourceId in lastDates && ValidDate(lastDates[u.resourceId]) && u.resourceId in totals
    requires StaleEntry(u.resourceId, lastDates[u.resourceId], latest, totals[u.resourceId]) == Some(u)
    ensures u.daysSinceLastUse >= StaleThresholdDays
    ensures u.estimatedSavingsIfDeleted == Round2(GroupTotal(rs, ByResource, u.resourceId))
    ensures exists j :: 0 <= j < |rs| && rs[j].resourceId == u.resourceId && rs[j].usageDate == u.lastUsageDate
    ensures forall i :: 0 <= i < |rs| && rs[i].resourceId == u.resourceId ==>
              DaysBetween(UsageDates(rs)[i], latest) >= StaleThresholdDays
  {
    var rid := u.resourceId;
    StaleEntryMeaning(rid, lastDates[rid], latest, totals[rid]);
    var j := LastUseWitness(rs, lastDates, rid);
    StaleEntryFromRecords(rs, lastDates[rid], latest, u, j);
  }

  /**
   * A stale entry for the resource of record `j`, whose date is the
   * resource's last use, quotes that record's date text, and finds every
   * record of the resource at least a week old.
   */
  lemma {:induction false} StaleEntryFromRecords(rs: seq<Record>, last: Date, latest: Date, u: StaleResource, j: nat)
    requires AllDatesParse(rs) && ValidDate(last) && ValidDate(latest)
    requires j < |rs| && rs[j].resourceId == u.resourceId && UsageDates(rs)[j] == last
    requires forall i :: 0 <= i < |rs| && rs[i].resourceId == u.resourceId ==> !Before(last, UsageDates(rs)[i])
    requires u.lastUsageDate == FormatDate(last) && u.daysSinceLastUse == DaysBetween(last, latest)
    requires u.daysSinceLastUse >= StaleThresholdDays
    ensures rs[j].usageDate == u.lastUsageDate
    ensures forall i :: 0 <= i < |rs| && rs[i].resourceId == u.resourceId ==>
              DaysBetween(UsageDates(rs)[i], latest) >= StaleThresholdDays
  {
    FormatParse(rs[j].usageDate);
    forall i | 0 <= i < |rs| && rs[i].resourceId == u.resourceId
      ensures DaysBetween(UsageDates(rs)[i], latest) >= StaleThresholdDays
    {
      OlderStillStale(UsageDates(rs)[i], last, latest);
    }
  }

  /** A resource's last use is the usage date of one of its records. */
  lemma {:induction false} LastUseWitness(rs: seq<Record>, lastDates: map<string, Date>, rid: string) returns (j: nat)
    requires AllDatesParse(rs)
    requires LastUses(rs, UsageDates(rs), lastDates)
    requires rid in lastDates
    ensures j < |rs| && rs[j].resourceId == rid && UsageDates(rs)[j] == lastDates[rid]
    ensures forall i :: 0 <= i < |rs| && rs[i].resourceId == rid ==> !Before(lastDates[rid], UsageDates(rs)[i])
  {
    j :| 0 <= j < |rs| && rs[j].resourceId == rid && UsageDates(rs)[j] == lastDates[rid];
  }

  /** A use no later than a stale last use is at least as old. */
  lemma {:induction false} OlderStillStale(d: Date, last: Date, latest: Date)
    requires ValidDate(d) && ValidDate(last) && ValidDate(latest)
    requires !Before(last, d)
    requires DaysBetween(last, latest) >= StaleThresholdDays
    ensures DaysBetween(d, latest) >= StaleThresholdDays
  {
    OrdinalOrder(last, d);
  }

  /**
   * Reordering the records changes little: the totals, the counts, the
   * spikes, the trend and the score stay the same, and the high-cost and
   * stale lists hold the same entries. Only the currency (read from the
   * first record), the order of those two lists and what the explanation
   * quotes from them may change.
   */
  lemma {:induction false} ReportPermutation(rs1: seq<Record>, rs2: seq<Record>, ds: seq<string>)
    requires rs1 != [] && AllDatesParse(rs1) && multiset(rs1) == multiset(rs2)
    requires SortedKeys(ds, AggregatesOf(rs1).dailyTotals)
    ensures rs2 != [] && AllDatesParse(rs2) && SortedKeys(ds, AggregatesOf(rs2).dailyTotals)
    ensures var r1, r2 := ReportFor(rs1, ds), ReportFor(rs2, ds);
            && r1.summary.totalCost == r2.summary.totalCost
            && r1.summary.numRecords == r2.summary.numRecords
            && r1.summary.numResources == r2.summary.numResources
            && r1.spikes == r2.spikes
            && r1.trends == r2.trends
            && (forall h :: h in r1.highCostResources <==> h in r2.highCostResources)
            && (forall u :: u in r1.unusedResources <==> u in r2.unusedResources)
            && r1.score == r2.score
  {
    assert |rs2| == |multiset(rs2)| == |multiset(rs1)| == |rs1|;
    AggregatesPermutation(rs1, rs2);
    var a1, a2 := AggregatesOf(rs1), AggregatesOf(rs2);
    ReportUnfold(rs1, ds);
    ReportUnfold(rs2, ds);
    ReportFields(a1, |rs1|, CurrencyOf(rs1[0]), ds);
    ReportFields(a2, |rs2|, CurrencyOf(rs2[0]), ds);
    ResourceOrderMeaning(rs1);
    ResourceOrderMeaning(rs2);
    var avg := AveragePerResource(a1.totalCost, |a1.resourceTotals|);
    HighCostReordered(a1.resourceOrder, a2.resourceOrder, a1.resourceTotals, avg);
    LatestReordered(a1.resourceOrder, a2.resourceOrder, a1.resourceLastDate);
    var latest := LatestDate(a1.resourceOrder, a1.resourceLastDate);
    StaleReordered(a1.resourceOrder, a2.resourceOrder, a1.resourceLastDate, a1.resourceTotals, latest);
  }
}
