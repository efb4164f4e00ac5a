/**
 * The summary stages: the first-day-to-last-day trend, the risk scores and
 * the overall health, and the five-sentence explanation, modelled as the
 * choice of sentence for each slot together with the values it mentions.
 */
module Scoring {
  import opened Wrappers
  import opened LexOrder
  import opened Metrics
  import opened Spikes
  import opened HighCost
  import opened Staleness

  // ---------- Trend ----------

  datatype DayTotal = DayTotal(date: string, totalCost: real)

  /** The trend entry: first and last day with rounded totals, and the rounded change between them. */
  datatype Trends = Trends(firstDay: DayTotal, lastDay: DayTotal, overallChangePercent: Option<real>)

  /** The trend over the sorted days `ds`. */
  function TrendOf(ds: seq<string>, daily: map<string, real>): (t: Trends)
    requires Covers(ds, daily) && |ds| > 0
    ensures t.firstDay.date == ds[0] && t.lastDay.date == ds[|ds| - 1]
    ensures t.overallChangePercent.None? <==> daily[ds[0]] <= 0.0
  {
    var firstTotal, lastTotal := daily[ds[0]], daily[ds[|ds| - 1]];
    var change := if firstTotal > 0.0 then Some(ChangePercent(firstTotal, lastTotal)) else None;
    Trends(
      DayTotal(ds[0], Round2(firstTotal)),
      DayTotal(ds[|ds| - 1], Round2(lastTotal)),
      if change.Some? then Some(Round2(change.value)) else None)
  }

  /**
   * There is no overall change exactly when the first day's total is not
   * positive. A reported rise means the last day cost more than the first,
   * a reported fall that it cost less, and a single positive day reports
   * no change.
   */
  lemma TrendMeaning(ds: seq<string>, daily: map<string, real>)
    requires Covers(ds, daily) && |ds| > 0
    ensures TrendOf(ds, daily).overallChangePercent.None? <==> daily[ds[0]] <= 0.0
    ensures TrendOf(ds, daily).overallChangePercent.Some? ==>
              && (TrendOf(ds, daily).overallChangePercent.value > 0.0 ==> daily[ds[|ds| - 1]] > daily[ds[0]])
              && (TrendOf(ds, daily).overallChangePercent.value < 0.0 ==> daily[ds[|ds| - 1]] < daily[ds[0]])
    ensures |ds| == 1 && daily[ds[0]] > 0.0 ==> TrendOf(ds, daily).overallChangePercent == Some(0.0)
  {
    var first, last := daily[ds[0]], daily[ds[|ds| - 1]];
    if first > 0.0 {
      RoundedTrend(first, last);
    }
  }

  /** The rounded change from a positive first total keeps the direction of the move. */
  lemma RoundedTrend(first: real, last: real)
    requires first > 0.0
    ensures Round2(ChangePercent(first, last)) > 0.0 ==> last > first
    ensures Round2(ChangePercent(first, last)) < 0.0 ==> last < first
    ensures last == first ==> Round2(ChangePercent(first, last)) == 0.0
  {
    var change := ChangePercent(first, last);
    assert change == (last - first) * (100.0 / first);
    RoundKeepsBound(change, 0);
    if last == first {
      assert change == 0.0;
      RoundZero();
    }
  }

  /** On sorted days the trend runs from the least day key to the greatest. */
  lemma TrendSpansDays(ds: seq<string>, daily: map<string, real>)
    requires SortedKeys(ds, daily) && |ds| > 0
    ensures forall k :: k in daily ==>
              && (k == TrendOf(ds, daily).firstDay.date || LexLess(TrendOf(ds, daily).firstDay.date, k))
              && (k == TrendOf(ds, daily).lastDay.date || LexLess(k, TrendOf(ds, daily).lastDay.date))
  {
    forall k | k in daily
      ensures (k == ds[0] || LexLess(ds[0], k)) && (k == ds[|ds| - 1] || LexLess(k, ds[|ds| - 1]))
    {
      assert k in ds;
      var i :| 0 <= i < |ds| && ds[i] == k;
    }
  }

  // ---------- Scores ----------

  /** Cost-risk points for the largest spike, by band, and the caps of the per-item points. */
  const CriticalSpikeRisk: int := 50
  const HighSpikeRisk: int := 30
  const MediumSpikeRisk: int := 15
  const RiskPerItem: int := 10
  const MaxHighCostRisk: int := 30
  const MaxWasteRisk: int := 40

  datatype Score = Score(overallHealth: int, costRisk: int, wasteRisk: int)

  function Magnitudes(spikes: seq<Spike>): (ms: seq<real>)
    ensures |ms| == |spikes|
    ensures forall i :: 0 <= i < |spikes| ==> ms[i] == Abs(spikes[i].changePercent)
  {
    seq(|spikes|, i requires 0 <= i < |spikes| => Abs(spikes[i].changePercent))
  }

  /** `max(spikes, key=abs(change_percent))`: the first spike of largest reported magnitude. */
  function TopSpike(spikes: seq<Spike>): (t: Spike)
    requires |spikes| > 0
    ensures t in spikes
    ensures forall s :: s in spikes ==> Abs(s.changePercent) <= Abs(t.changePercent)
    ensures exists k :: 0 <= k < |spikes| && spikes[k] == t
                        && forall j :: 0 <= j < k ==> Abs(spikes[j].changePercent) < Abs(t.changePercent)
  {
    var k := FirstMaxIndex(Magnitudes(spikes));
    assert forall j :: 0 <= j < k ==> Magnitudes(spikes)[j] < Magnitudes(spikes)[k];
    spikes[k]
  }

  /** The cost-risk points of the spike list. */
  function SpikeRisk(spikes: seq<Spike>): (points: int)
    ensures points == 0 <==> spikes == []
    ensures points == 0 || points == MediumSpikeRisk || points == HighSpikeRisk || points == CriticalSpikeRisk
  {
    if spikes == [] then 0
    else
      var m := Abs(TopSpike(spikes).changePercent);
      if m >= CriticalChange then CriticalSpikeRisk
      else if m >= HighChange then HighSpikeRisk
      else MediumSpikeRisk
  }

  /**
   * The spike points reflect the largest move in the list: 50 exactly when
   * some spike reports a move of 70 percent or more, at least 30 exactly when
   * some spike reports 40 percent or more, and at least 15 whenever there is
   * a spike at all.
   */
  lemma SpikeRiskMeaning(spikes: seq<Spike>)
    ensures spikes == [] ==> SpikeRisk(spikes) == 0
    ensures spikes != [] ==>
              && MediumSpikeRisk <= SpikeRisk(spikes) <= CriticalSpikeRisk
              && (SpikeRisk(spikes) == CriticalSpikeRisk
                  <==> exists s :: s in spikes && Abs(s.changePercent) >= CriticalChange)
              && (SpikeRisk(spikes) >= HighSpikeRisk
                  <==> exists s :: s in spikes && Abs(s.changePercent) >= HighChange)
  {
    if spikes != [] {
      var t := TopSpike(spikes);
      assert t in spikes;
    }
  }

  /**
   * The spike points are at least those of the worst severity in the list:
   * a "critical" spike scores 50 and a "high" one at least 30.
   */
  lemma SpikeRiskCoversSeverity(spikes: seq<Spike>)
    requires forall s :: s in spikes ==> GradedByChange(s)
    ensures (exists s :: s in spikes && s.severity == Critical) ==> SpikeRisk(spikes) == CriticalSpikeRisk
    ensures (exists s :: s in spikes && s.severity == High) ==> SpikeRisk(spikes) >= HighSpikeRisk
  {
    SpikeRiskMeaning(spikes);
  }

  /**
   * The points can exceed the severity: the severity grades the exact move
   * while the points read the rounded one, so every move from 69.995 up to
   * (not including) 70 percent, either way, is graded "high" yet reported
   * as a move of 70.0 and scored like a critical one.
   */
  lemma RoundedMoveCanScoreHigher(change: real)
    requires 69.995 <= Abs(change) < CriticalChange
    ensures SeverityOf(change) == High
    ensures Abs(Round2(change)) == CriticalChange
    ensures SpikeRisk([Spike("", "", 0.0, 0.0, Round2(change), High)]) == CriticalSpikeRisk
  {
    var x := change * 100.0;
    var n := RoundHalfEven(x);
    if change > 0.0 {
      assert 6999.5 <= x < 7000.0;
      assert n == 7000;
    } else {
      assert -7000.0 < x <= -6999.5;
      assert n == -7000;
    }
    assert Round2(change) == n as real / 100.0;
  }

  /** The score of a report with these spikes and this many high-cost and stale resources. */
  function ScoreOf(spikes: seq<Spike>, numHighCost: nat, numStale: nat): (s: Score)
    ensures 0 <= s.costRisk <= CriticalSpikeRisk + MaxHighCostRisk
    ensures 0 <= s.wasteRisk <= MaxWasteRisk
    ensures 0 <= s.overallHealth <= 100
    ensures s.overallHealth == 100 <==> spikes == [] && numHighCost == 0 && numStale == 0
  {
    SpikeRiskMeaning(spikes);
    var costRisk := SpikeRisk(spikes) + Min(numHighCost * RiskPerItem, MaxHighCostRisk);
    var wasteRisk := Min(numStale * RiskPerItem, MaxWasteRisk);
    Score(Max(0, 100 - (costRisk + wasteRisk)), costRisk, wasteRisk)
  }

  /** More high-cost or stale resources never raise the health nor lower a risk. */
  lemma ScoreMonotone(spikes: seq<Spike>, h1: nat, h2: nat, u1: nat, u2: nat)
    requires h1 <= h2 && u1 <= u2
    ensures ScoreOf(spikes, h2, u2).costRisk >= ScoreOf(spikes, h1, u1).costRisk
    ensures ScoreOf(spikes, h2, u2).wasteRisk >= ScoreOf(spikes, h1, u1).wasteRisk
    ensures ScoreOf(spikes, h2, u2).overallHealth <= ScoreOf(spikes, h1, u1).overallHealth
  {
  }

  /** Past three high-cost and four stale resources, further ones change nothing. */
  lemma ScoreSaturates(spikes: seq<Spike>, h: nat, u: nat)
    requires h >= 3 && u >= 4
    ensures ScoreOf(spikes, h, u) == ScoreOf(spikes, 3, 4)
  {
  }

  // ---------- Explanation ----------

  /** The sentence variants of the explanation, with the values each one mentions. */
  datatype Sentence =
    | NoDataYet
    | SpendSummary(totalCost: real, currency: string, numResources: nat, numRecords: nat)
    | LargestSwing(increase: bool, percent: real, fromDate: string, toDate: string)
    | NoSpikes
    | MajorCostDriver(resourceId: string, totalCost: real, currency: string, relativeToAvg: real)
    | NoHighCost
    | StaleCount(count: nat, thresholdDays: int)
    | NoStale
    | HealthLine(overallHealth: int, costRisk: int, wasteRisk: int)

  /** `sorted(high_cost, key=total_cost, reverse=True)[0]`: the first resource of largest rounded total. */
  function TopDriver(hs: seq<HighCostResource>): (t: HighCostResource)
    requires |hs| > 0
    ensures t in hs
    ensures forall h :: h in hs ==> h.totalCost <= t.totalCost
    ensures exists k :: 0 <= k < |hs| && hs[k] == t && forall j :: 0 <= j < k ==> hs[j].totalCost < t.totalCost
  {
    var k := FirstMaxIndex(ResourceTotals(hs));
    assert forall j :: 0 <= j < k ==> ResourceTotals(hs)[j] < ResourceTotals(hs)[k];
    hs[k]
  }

  function ResourceTotals(hs: seq<HighCostResource>): (ts: seq<real>)
    ensures |ts| == |hs|
    ensures forall i :: 0 <= i < |hs| ==> ts[i] == hs[i].totalCost
  {
    seq(|hs|, i requires 0 <= i < |hs| => hs[i].totalCost)
  }

  /** The five sentences, in order, for a non-empty batch. */
  function ExplanationOf(totalCost: real, currency: string, numResources: nat, numRecords: nat,
                         spikes: seq<Spike>, hs: seq<HighCostResource>, unused: seq<StaleResource>, score: Score)
    : (parts: seq<Sentence>)
    ensures |parts| == 5 && parts[0].SpendSummary? && parts[4].HealthLine?
    ensures NoDataYet !in parts
  {
    [ SpendSummary(Round2(totalCost), currency, numResources, numRecords),
      if spikes == [] then NoSpikes
      else
        var top := TopSpike(spikes);
        LargestSwing(top.changePercent > 0.0, Abs(top.changePercent), top.fromDate, top.toDate),
      if hs == [] then NoHighCost
      else
        var top := TopDriver(hs);
        MajorCostDriver(top.resourceId, top.totalCost, currency, top.relativeToAvg),
      if unused == [] then NoStale else StaleCount(|unused|, StaleThresholdDays),
      HealthLine(score.overallHealth, score.costRisk, score.wasteRisk) ]
  }

  /** The explanation loop: append one sentence per slot. */
  method Explain(totalCost: real, currency: string, numResources: nat, numRecords: nat,
                 spikes: seq<Spike>, hs: seq<HighCostResource>, unused: seq<StaleResource>, score: Score)
    returns (parts: seq<Sentence>)
    ensures parts == ExplanationOf(totalCost, currency, numResources, numRecords, spikes, hs, unused, score)
  {
    parts := [];
    parts := parts + [SpendSummary(Round2(totalCost), currency, numResources, numRecords)];
    if spikes != [] {
      var topSpike := TopSpike(spikes);
      var increase := topSpike.changePercent > 0.0;
      parts := parts + [LargestSwing(increase, Abs(topSpike.changePercent), topSpike.fromDate, topSpike.toDate)];
    } else {
      parts := parts + [NoSpikes];
    }
    if hs != [] {
      var top := TopDriver(hs);
      parts := parts + [MajorCostDriver(top.resourceId, top.totalCost, currency, top.relativeToAvg)];
    } else {
      parts := parts + [NoHighCost];
    }
    if unused != [] {
      parts := parts + [StaleCount(|unused|, StaleThresholdDays)];
    } else {
      parts := parts + [NoStale];
    }
    parts := parts + [HealthLine(score.overallHealth, score.costRisk, score.wasteRisk)];
  }

  /**
   * The explanation has five sentences in a fixed order: the spend summary;
   * the largest swing, which names a recorded spike of largest magnitude and
   * says "increase" exactly when its change is positive, or the no-spike
   * sentence; the major cost driver, a flagged resource of largest total, or
   * the no-driver sentence; the stale count or the no-stale sentence; and
   * the health line repeating the score.
   */
  lemma ExplanationMeaning(totalCost: real, currency: string, numResources: nat, numRecords: nat,
                           spikes: seq<Spike>, hs: seq<HighCostResource>, unused: seq<StaleResource>, score: Score)
    ensures var parts := ExplanationOf(totalCost, currency, numResources, numRecords, spikes, hs, unused, score);
            && |parts| == 5
            && parts[0] == SpendSummary(Round2(totalCost), currency, numResources, numRecords)
            && (parts[1].NoSpikes? <==> spikes == [])
            && (parts[1].LargestSwing? <==> spikes != [])
            && (parts[1].LargestSwing? ==>
                  && (exists s :: s in spikes && s.fromDate == parts[1].fromDate && s.toDate == parts[1].toDate
                                 && Abs(s.changePercent) == parts[1].percent
                                 && (parts[1].increase <==> s.changePercent > 0.0))
                  && forall s :: s in spikes ==> Abs(s.changePercent) <= parts[1].percent)
            && (parts[2].NoHighCost? <==> hs == [])
            && (parts[2].MajorCostDriver? <==> hs != [])
            && (parts[2].MajorCostDriver? ==>
                  && (exists h :: h in hs && h.resourceId == parts[2].resourceId && h.totalCost == parts[2].totalCost)
                  && forall h :: h in hs ==> h.totalCost <= parts[2].totalCost)
            && (parts[3] == if unused == [] then NoStale else StaleCount(|unused|, StaleThresholdDays))
            && parts[4] == HealthLine(score.overallHealth, score.costRisk, score.wasteRisk)
  {
  }

  /** With graded spikes the reported largest swing is at least 20 percent. */
  lemma LargestSwingSignificant(totalCost: real, currency: string, numResources: nat, numRecords: nat,
                                spikes: seq<Spike>, hs: seq<HighCostResource>, unused: seq<StaleResource>, score: Score)
    requires forall s :: s in spikes ==> GradedByChange(s)
    ensures var parts := ExplanationOf(totalCost, currency, numResources, numRecords, spikes, hs, unused, score);
            parts[1].LargestSwing? ==> parts[1].percent >= MediumChange
  {
    if spikes != [] {
      assert TopSpike(spikes) in spikes;
    }
  }
}
