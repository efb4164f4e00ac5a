/**
 * The aggregation stage of `analyze_costs`: one pass over the records that
 * sums the spend, the spend per usage day and the spend per resource, and
 * keeps each resource's most recent usage date. The pass aborts on the
 * first usage date `_parse_date` rejects.
 */
module Aggregation {
  import opened Wrappers
  import opened Dates

  /** One cost row as the records source supplies it. */
  datatype Record = Record(resourceId: string, costAmount: real, currency: Option<string>, usageDate: string)

  /** The exception that aborts the analysis: the row's position and its date text. */
  datatype DateError = MalformedDate(index: nat, text: string)

  /**
   * The dictionaries the pass builds. `resourceOrder` lists the keys of
   * `resourceTotals` in insertion order, the order in which the later
   * stages iterate over the dictionary.
   */
  datatype Aggregates = Aggregates(
    totalCost: real,
    dailyTotals: map<string, real>,
    resourceTotals: map<string, real>,
    resourceOrder: seq<string>,
    resourceLastDate: map<string, Date>)

  const NoAggregates := Aggregates(0.0, map[], map[], [], map[])

  predicate AllDatesParse(rs: seq<Record>)
  {
    forall i :: 0 <= i < |rs| ==> ParseDate(rs[i].usageDate).Some?
  }

  /** `e` describes the first row whose date does not parse. */
  predicate FirstMalformed(rs: seq<Record>, e: DateError)
  {
    && e.index < |rs|
    && ParseDate(rs[e.index].usageDate).None?
    && e.text == rs[e.index].usageDate
    && AllDatesParse(rs[..e.index])
  }

  predicate NoDuplicates(s: seq<string>)
  {
    forall i, j :: 0 <= i < j < |s| ==> s[i] != s[j]
  }

  /** Specification of the sums: the spend of every record, in any order. */
  function Total(rs: seq<Record>): real
  {
    if rs == [] then 0.0 else Total(rs[..|rs| - 1]) + rs[|rs| - 1].costAmount
  }

  datatype Grouping = ByDay | ByResource

  function KeyOf(r: Record, g: Grouping): string
  {
    match g
    case ByDay => r.usageDate
    case ByResource => r.resourceId
  }

  /** The summed spend of every record whose key is `k` (duplicates are summed). */
  function GroupTotal(rs: seq<Record>, g: Grouping, k: string): real
  {
    if rs == [] then 0.0
    else
      var r := rs[|rs| - 1];
      GroupTotal(rs[..|rs| - 1], g, k) + (if KeyOf(r, g) == k then r.costAmount else 0.0)
  }

  /** The keys that occur among the records. */
  function GroupKeys(rs: seq<Record>, g: Grouping): set<string>
  {
    if rs == [] then {} else GroupKeys(rs[..|rs| - 1], g) + {KeyOf(rs[|rs| - 1], g)}
  }

  /** The parsed usage date of every record. */
  function UsageDates(rs: seq<Record>): (ds: seq<Date>)
    requires AllDatesParse(rs)
    ensures |ds| == |rs|
    ensures forall i :: 0 <= i < |rs| ==> ParseDate(rs[i].usageDate) == Some(ds[i]) && ValidDate(ds[i])
  {
    if rs == [] then []
    else UsageDates(rs[..|rs| - 1]) + [ParseDate(rs[|rs| - 1].usageDate).value]
  }

  /**
   * `m` holds the last usage date of every resource of the records, whose
   * dates are `ds`: each entry is the date of one of that resource's
   * records, and no record of the resource is dated after it.
   */
  ghost predicate LastUses(rs: seq<Record>, ds: seq<Date>, m: map<string, Date>)
    requires |ds| == |rs|
  {
    && (forall k :: k in m ==> exists i :: 0 <= i < |rs| && rs[i].resourceId == k && ds[i] == m[k])
    && (forall i :: 0 <= i < |rs| ==> rs[i].resourceId in m && !Before(m[rs[i].resourceId], ds[i]))
  }

  /** `m[k] += amount` on a `defaultdict(float)`. */
  function AddTo(m: map<string, real>, k: string, amount: real): map<string, real>
  {
    m[k := (if k in m then m[k] else 0.0) + amount]
  }

  /** The per-key sums the loop accumulates: `daily_totals` or `resource_totals`. */
  function TotalsBy(rs: seq<Record>, g: Grouping): map<string, real>
  {
    if rs == [] then map[]
    else
      var r := rs[|rs| - 1];
      AddTo(TotalsBy(rs[..|rs| - 1], g), KeyOf(r, g), r.costAmount)
  }

  /** The insertion order of `resource_totals`: resource ids by first appearance. */
  function ResourceOrderOf(rs: seq<Record>): seq<string>
  {
    if rs == [] then []
    else
      var order, rid := ResourceOrderOf(rs[..|rs| - 1]), rs[|rs| - 1].resourceId;
      if rid in order then order else order + [rid]
  }

  /** The `resource_last_date` update of one row: keep the later of the two dates. */
  function LastDateUpdate(m: map<string, Date>, rid: string, d: Date): map<string, Date>
  {
    if rid !in m || Before(m[rid], d) then m[rid := d] else m
  }

  /** `resource_last_date` after the pass over records whose dates are `ds`. */
  function LastDatesOf(rs: seq<Record>, ds: seq<Date>): map<string, Date>
    requires |ds| == |rs|
  {
    if rs == [] then map[]
    else
      var n := |rs| - 1;
      LastDateUpdate(LastDatesOf(rs[..n], ds[..n]), rs[n].resourceId, ds[n])
  }

  /** The aggregates after the whole pass over records whose dates parsed to `ds`. */
  function AggregateOf(rs: seq<Record>, ds: seq<Date>): Aggregates
    requires |ds| == |rs|
  {
    Aggregates(Total(rs), TotalsBy(rs, ByDay), TotalsBy(rs, ByResource), ResourceOrderOf(rs), LastDatesOf(rs, ds))
  }

  /** The aggregates of records whose dates all parse. */
  function AggregatesOf(rs: seq<Record>): Aggregates
    requires AllDatesParse(rs)
  {
    AggregateOf(rs, UsageDates(rs))
  }

  /**
   * The aggregation loop. It fails exactly when some usage date does not
   * parse, reporting the first such row; otherwise it returns the
   * aggregates of all the records.
   */
  method Aggregate(rs: seq<Record>) returns (res: Result<Aggregates, DateError>)
    ensures res.Failure? <==> !AllDatesParse(rs)
    ensures res.Failure? ==> FirstMalformed(rs, res.error)
    ensures res.Success? ==> AllDatesParse(rs) && res.value == AggregatesOf(rs)
  {
    var totalCost := 0.0;
    var dailyTotals: map<string, real> := map[];
    var resourceTotals: map<string, real> := map[];
    var resourceOrder: seq<string> := [];
    var resourceLastDate: map<string, Date> := map[];
    var i := 0;
    while i < |rs|
      invariant 0 <= i <= |rs|
      invariant AllDatesParse(rs[..i])
      invariant totalCost == Total(rs[..i])
      invariant dailyTotals == TotalsBy(rs[..i], ByDay)
      invariant resourceTotals == TotalsBy(rs[..i], ByResource)
      invariant resourceOrder == ResourceOrderOf(rs[..i])
      invariant resourceLastDate == LastDatesOf(rs[..i], UsageDates(rs[..i]))
    {
      var row := rs[i];
      var dateObj := ParseDate(row.usageDate);
      if dateObj.None? {
        assert rs[..i + 1][..i] == rs[..i];
        return Failure(MalformedDate(i, row.usageDate));
      }
      OrderMatchesKeys(rs[..i]);
      AggregateStep(rs, i);
      totalCost, dailyTotals, resourceTotals, resourceOrder, resourceLastDate :=
        AddRow(totalCost, dailyTotals, resourceTotals, resourceOrder, resourceLastDate, row, dateObj.value);
      i := i + 1;
    }
    assert rs[..i] == rs;
    return Success(Aggregates(totalCost, dailyTotals, resourceTotals, resourceOrder, resourceLastDate));
  }

  /** Extending the processed prefix by one row is one step of each running value. */
  lemma AggregateStep(rs: seq<Record>, i: nat)
    requires i < |rs| && AllDatesParse(rs[..i]) && ParseDate(rs[i].usageDate).Some?
    ensures AllDatesParse(rs[..i + 1])
    ensures Total(rs[..i + 1]) == Total(rs[..i]) + rs[i].costAmount
    ensures TotalsBy(rs[..i + 1], ByDay) == AddTo(TotalsBy(rs[..i], ByDay), rs[i].usageDate, rs[i].costAmount)
    ensures TotalsBy(rs[..i + 1], ByResource)
            == AddTo(TotalsBy(rs[..i], ByResource), rs[i].resourceId, rs[i].costAmount)
    ensures ResourceOrderOf(rs[..i + 1])
            == if rs[i].resourceId in ResourceOrderOf(rs[..i]) then ResourceOrderOf(rs[..i])
               else ResourceOrderOf(rs[..i]) + [rs[i].resourceId]
    ensures LastDatesOf(rs[..i + 1], UsageDates(rs[..i + 1]))
            == LastDateUpdate(LastDatesOf(rs[..i], UsageDates(rs[..i])), rs[i].resourceId,
                              ParseDate(rs[i].usageDate).value)
  {
    assert rs[..i + 1][..i] == rs[..i];
    assert UsageDates(rs[..i + 1])[..i] == UsageDates(rs[..i]);
  }

  /**
   * The body of the aggregation loop: add row `r`, whose date parsed to `d`,
   * to the running sums, the insertion order and the last-use dictionary.
   */
  method AddRow(totalCost: real, dailyTotals: map<string, real>, resourceTotals: map<string, real>,
                resourceOrder: seq<string>, resourceLastDate: map<string, Date>, r: Record, d: Date)
    returns (totalCost': real, dailyTotals': map<string, real>, resourceTotals': map<string, real>,
             resourceOrder': seq<string>, resourceLastDate': map<string, Date>)
    requires forall k :: k in resourceOrder <==> k in resourceTotals
    ensures totalCost' == totalCost + r.costAmount
    ensures dailyTotals' == AddTo(dailyTotals, r.usageDate, r.costAmount)
    ensures resourceTotals' == AddTo(resourceTotals, r.resourceId, r.costAmount)
    ensures resourceOrder' == if r.resourceId in resourceOrder then resourceOrder else resourceOrder + [r.resourceId]
    ensures resourceLastDate' == LastDateUpdate(resourceLastDate, r.resourceId, d)
  {
    var amount := r.costAmount;
    totalCost' := totalCost + amount;
    var dateStr, resourceId := r.usageDate, r.resourceId;
    var dayTotal := if dateStr in dailyTotals then dailyTotals[dateStr] else 0.0;
    dailyTotals' := dailyTotals[dateStr := dayTotal + amount];
    resourceOrder' := resourceOrder;
    if resourceId !in resourceTotals {
      resourceOrder' := resourceOrder + [resourceId];
    }
    var resourceTotal := if resourceId in resourceTotals then resourceTotals[resourceId] else 0.0;
    resourceTotals' := resourceTotals[resourceId := resourceTotal + amount];
    resourceLastDate' := resourceLastDate;
    if resourceId !in resourceLastDate || Before(resourceLastDate[resourceId], d) {
      resourceLastDate' := resourceLastDate[resourceId := d];
    }
  }

  /** The keys are exactly the keys the records carry. */
  lemma {:induction false} GroupKeysMeaning(rs: seq<Record>, g: Grouping)
    ensures forall i :: 0 <= i < |rs| ==> KeyOf(rs[i], g) in GroupKeys(rs, g)
    ensures forall k :: k in GroupKeys(rs, g) ==> exists i :: 0 <= i < |rs| && KeyOf(rs[i], g) == k
    decreases |rs|
  {
    if rs != [] {
      var n := |rs| - 1;
      GroupKeysMeaning(rs[..n], g);
      assert forall i :: 0 <= i < n ==> rs[..n][i] == rs[i];
    }
  }

  /** A key that no record carries has no spend. */
  lemma {:induction false} GroupTotalAbsent(rs: seq<Record>, g: Grouping)
    ensures forall k :: k !in GroupKeys(rs, g) ==> GroupTotal(rs, g, k) == 0.0
    decreases |rs|
  {
    if rs != [] {
      GroupTotalAbsent(rs[..|rs| - 1], g);
    }
  }

  /**
   * `daily_totals` and `resource_totals` map every key that occurs among the
   * records, and only those, to the summed spend of the records carrying it.
   */
  lemma {:induction false} TotalsByMeaning(rs: seq<Record>, g: Grouping)
    ensures forall k :: k in TotalsBy(rs, g) <==> k in GroupKeys(rs, g)
    ensures forall k :: k in TotalsBy(rs, g) ==> TotalsBy(rs, g)[k] == GroupTotal(rs, g, k)
    decreases |rs|
  {
    if rs != [] {
      TotalsByMeaning(rs[..|rs| - 1], g);
      GroupTotalAbsent(rs[..|rs| - 1], g);
    }
  }

  /** The insertion order lists every resource exactly once. */
  lemma {:induction false} ResourceOrderMeaning(rs: seq<Record>)
    ensures forall k :: k in ResourceOrderOf(rs) <==> k in GroupKeys(rs, ByResource)
    ensures NoDuplicates(ResourceOrderOf(rs))
    decreases |rs|
  {
    if rs != [] {
      ResourceOrderMeaning(rs[..|rs| - 1]);
    }
  }

  lemma OrderMatchesKeys(rs: seq<Record>)
    ensures forall k :: k in ResourceOrderOf(rs) <==> k in TotalsBy(rs, ByResource)
  {
    ResourceOrderMeaning(rs);
    TotalsByMeaning(rs, ByResource);
  }

  /**
   * `resource_last_date` has an entry for every resource and only those;
   * each entry is the date of one of that resource's records and no record
   * of the resource is dated after it.
   */
  lemma {:induction false} LastDatesMeaning(rs: seq<Record>, ds: seq<Date>)
    requires |ds| == |rs|
    ensures forall k :: k in LastDatesOf(rs, ds) <==> k in GroupKeys(rs, ByResource)
    ensures LastUses(rs, ds, LastDatesOf(rs, ds))
    decreases |rs|
  {
    if rs != [] {
      var n := |rs| - 1;
      LastDatesMeaning(rs[..n], ds[..n]);
      assert rs[..n] == rs[..|rs| - 1];
      LastDateWitnessed(rs, ds);
      LastDateMaximal(rs, ds);
    }
  }

  lemma LastDateWitnessed(rs: seq<Record>, ds: seq<Date>)
    requires |ds| == |rs| && rs != []
    requires LastUses(rs[..|rs| - 1], ds[..|rs| - 1], LastDatesOf(rs[..|rs| - 1], ds[..|rs| - 1]))
    ensures forall k :: k in LastDatesOf(rs, ds) ==>
              exists i :: 0 <= i < |rs| && rs[i].resourceId == k && ds[i] == LastDatesOf(rs, ds)[k]
  {
    forall k | k in LastDatesOf(rs, ds)
      ensures exists i :: 0 <= i < |rs| && rs[i].resourceId == k && ds[i] == LastDatesOf(rs, ds)[k]
    {
      var i := LastDateWitnessAt(rs, ds, k);
    }
  }

  /** The record whose date an entry of `resource_last_date` is. */
  lemma LastDateWitnessAt(rs: seq<Record>, ds: seq<Date>, k: string) returns (i: nat)
    requires |ds| == |rs| && rs != []
    requires LastUses(rs[..|rs| - 1], ds[..|rs| - 1], LastDatesOf(rs[..|rs| - 1], ds[..|rs| - 1]))
    requires k in LastDatesOf(rs, ds)
    ensures i < |rs| && rs[i].resourceId == k && ds[i] == LastDatesOf(rs, ds)[k]
  {
    var n := |rs| - 1;
    var before := LastDatesOf(rs[..n], ds[..n]);
    assert LastDatesOf(rs, ds) == LastDateUpdate(before, rs[n].resourceId, ds[n]);
    if k == rs[n].resourceId && LastDatesOf(rs, ds)[k] == ds[n] {
      i := n;
    } else {
      assert k in before && LastDatesOf(rs, ds)[k] == before[k];
      var j :| 0 <= j < n && rs[..n][j].resourceId == k && ds[..n][j] == before[k];
      i := j;
    }
  }

  lemma LastDateMaximal(rs: seq<Record>, ds: seq<Date>)
    requires |ds| == |rs| && rs != []
    requires LastUses(rs[..|rs| - 1], ds[..|rs| - 1], LastDatesOf(rs[..|rs| - 1], ds[..|rs| - 1]))
    ensures forall i :: 0 <= i < |rs| ==>
              rs[i].resourceId in LastDatesOf(rs, ds) &&
              !Before(LastDatesOf(rs, ds)[rs[i].resourceId], ds[i])
  {
    forall i | 0 <= i < |rs|
      ensures rs[i].resourceId in LastDatesOf(rs, ds) && !Before(LastDatesOf(rs, ds)[rs[i].resourceId], ds[i])
    {
      LastDateMaximalAt(rs, ds, i);
    }
  }

  /** No record of a resource is dated after its `resource_last_date` entry. */
  lemma LastDateMaximalAt(rs: seq<Record>, ds: seq<Date>, i: nat)
    requires |ds| == |rs| && i < |rs|
    requires LastUses(rs[..|rs| - 1], ds[..|rs| - 1], LastDatesOf(rs[..|rs| - 1], ds[..|rs| - 1]))
    ensures rs[i].resourceId in LastDatesOf(rs, ds) && !Before(LastDatesOf(rs, ds)[rs[i].resourceId], ds[i])
  {
    var n := |rs| - 1;
    var before := LastDatesOf(rs[..n], ds[..n]);
    assert LastDatesOf(rs, ds) == LastDateUpdate(before, rs[n].resourceId, ds[n]);
    if i < n {
      var k, e := rs[..n][i].resourceId, ds[..n][i];
      LastDateUpdateKeeps(before, rs[n].resourceId, ds[n], k, e);
    } else {
      LastDateUpdateNew(before, rs[n].resourceId, ds[n]);
    }
  }

  /** After the update the row's own resource is dated no earlier than the row. */
  lemma LastDateUpdateNew(m: map<string, Date>, rid: string, d: Date)
    ensures rid in LastDateUpdate(m, rid, d) && !Before(LastDateUpdate(m, rid, d)[rid], d)
  {
  }

  /** An entry no earlier than `e` stays so after the update. */
  lemma LastDateUpdateKeeps(m: map<string, Date>, rid: string, d: Date, k: string, e: Date)
    requires k in m && !Before(m[k], e)
    ensures k in LastDateUpdate(m, rid, d) && !Before(LastDateUpdate(m, rid, d)[k], e)
  {
  }

  /**
   * Python's `sum` of the values of `m` listed in the order `ks`; a key
   * missing from `m` reads as 0, as in a `defaultdict(float)`.
   */
  function SumValues(m: map<string, real>, ks: seq<string>): real
  {
    if ks == [] then 0.0
    else
      var k := ks[|ks| - 1];
      SumValues(m, ks[..|ks| - 1]) + (if k in m then m[k] else 0.0)
  }

  /** The per-key totals over a duplicate-free key list. */
  function SumGroups(rs: seq<Record>, g: Grouping, ks: seq<string>): real
  {
    if ks == [] then 0.0 else SumGroups(rs, g, ks[..|ks| - 1]) + GroupTotal(rs, g, ks[|ks| - 1])
  }

  lemma {:induction false} SumGroupsStep(rs: seq<Record>, r: Record, g: Grouping, ks: seq<string>)
    requires NoDuplicates(ks)
    ensures SumGroups(rs + [r], g, ks)
            == SumGroups(rs, g, ks) + (if KeyOf(r, g) in ks then r.costAmount else 0.0)
    decreases |ks|
  {
    assert (rs + [r])[..|rs|] == rs;
    if ks != [] {
      var init := ks[..|ks| - 1];
      assert KeyOf(r, g) in ks <==> KeyOf(r, g) in init || KeyOf(r, g) == ks[|ks| - 1];
      SumGroupsStep(rs, r, g, init);
    }
  }

  /**
   * The groups partition the records: summing the group totals over any
   * duplicate-free list that covers every key gives the total spend.
   */
  lemma {:induction false} PartitionSum(rs: seq<Record>, g: Grouping, ks: seq<string>)
    requires NoDuplicates(ks)
    requires forall k :: k in GroupKeys(rs, g) ==> k in ks
    ensures SumGroups(rs, g, ks) == Total(rs)
    decreases |rs|
  {
    if rs == [] {
      SumGroupsEmpty(ks, g);
    } else {
      var init, r := rs[..|rs| - 1], rs[|rs| - 1];
      assert rs == init + [r];
      PartitionSum(init, g, ks);
      SumGroupsStep(init, r, g, ks);
    }
  }

  lemma {:induction false} SumGroupsEmpty(ks: seq<string>, g: Grouping)
    ensures SumGroups([], g, ks) == 0.0
    decreases |ks|
  {
    if ks != [] {
      SumGroupsEmpty(ks[..|ks| - 1], g);
    }
  }

  lemma {:induction false} SumValuesOfGroups(rs: seq<Record>, g: Grouping, m: map<string, real>, ks: seq<string>)
    requires forall i :: 0 <= i < |ks| ==> ks[i] in m && m[ks[i]] == GroupTotal(rs, g, ks[i])
    ensures SumValues(m, ks) == SumGroups(rs, g, ks)
    decreases |ks|
  {
    if ks != [] {
      SumValuesOfGroups(rs, g, m, ks[..|ks| - 1]);
    }
  }

  /**
   * The partition invariant of the aggregates: the values of `daily_totals`
   * (listed in any duplicate-free order of its keys) and the values of
   * `resource_totals` both sum to `total_cost`.
   */
  lemma PartitionInvariant(rs: seq<Record>, days: seq<string>)
    requires NoDuplicates(days)
    requires forall d :: d in days <==> d in TotalsBy(rs, ByDay)
    ensures SumValues(TotalsBy(rs, ByDay), days) == Total(rs)
    ensures SumValues(TotalsBy(rs, ByResource), ResourceOrderOf(rs)) == Total(rs)
  {
    TotalsByMeaning(rs, ByDay);
    TotalsByMeaning(rs, ByResource);
    ResourceOrderMeaning(rs);
    SumValuesOfGroups(rs, ByDay, TotalsBy(rs, ByDay), days);
    PartitionSum(rs, ByDay, days);
    SumValuesOfGroups(rs, ByResource, TotalsBy(rs, ByResource), ResourceOrderOf(rs));
    PartitionSum(rs, ByResource, ResourceOrderOf(rs));
  }

  /** A duplicate-free list has as many elements as the set of its elements. */
  lemma {:induction false} DistinctCount(ks: seq<string>, s: set<string>)
    requires NoDuplicates(ks)
    requires forall k :: k in ks <==> k in s
    ensures |s| == |ks|
    decreases |ks|
  {
    if ks != [] {
      var last := ks[|ks| - 1];
      var init := ks[..|ks| - 1];
      assert last !in init;
      DistinctCount(init, s - {last});
    }
  }

  /** `num_resources` (`len(resource_totals)`) is the number of distinct resource ids. */
  lemma ResourceCount(rs: seq<Record>)
    ensures |TotalsBy(rs, ByResource)| == |GroupKeys(rs, ByResource)|
    ensures |ResourceOrderOf(rs)| == |GroupKeys(rs, ByResource)|
  {
    TotalsByMeaning(rs, ByResource);
    ResourceOrderMeaning(rs);
    assert TotalsBy(rs, ByResource).Keys == GroupKeys(rs, ByResource);
    DistinctCount(ResourceOrderOf(rs), GroupKeys(rs, ByResource));
  }

  // ---------- Order independence ----------

  /** `rs` without its row `j`. */
  function Without(rs: seq<Record>, j: nat): (rest: seq<Record>)
    requires j < |rs|
    ensures |rest| == |rs| - 1
  {
    rs[..j] + rs[j + 1..]
  }

  /** Dropping row `j` takes one copy of it out of the batch. */
  lemma WithoutRow(rs: seq<Record>, j: nat)
    requires j < |rs|
    ensures multiset(Without(rs, j)) == multiset(rs) - multiset{rs[j]}
  {
    assert rs == rs[..j] + [rs[j]] + rs[j + 1..];
  }

  /** Dropping the last row of `rs` commutes with dropping an earlier row `j`. */
  lemma WithoutInit(rs: seq<Record>, j: nat)
    requires j < |rs| - 1
    ensures Without(rs, j)[..|rs| - 2] == Without(rs[..|rs| - 1], j)
    ensures Without(rs, j)[|rs| - 2] == rs[|rs| - 1]
  {
  }

  /** The spend of a batch is the spend without one row plus that row's amount. */
  lemma {:induction false} TotalWithout(rs: seq<Record>, j: nat)
    requires j < |rs|
    ensures Total(rs) == Total(Without(rs, j)) + rs[j].costAmount
    decreases |rs|
  {
    var n := |rs| - 1;
    if j == n {
      assert Without(rs, j) == rs[..n];
    } else {
      TotalWithout(rs[..n], j);
      WithoutInit(rs, j);
    }
  }

  /** The same for the spend of one key. */
  lemma {:induction false} GroupTotalWithout(rs: seq<Record>, g: Grouping, k: string, j: nat)
    requires j < |rs|
    ensures GroupTotal(rs, g, k)
            == GroupTotal(Without(rs, j), g, k) + (if KeyOf(rs[j], g) == k then rs[j].costAmount else 0.0)
    decreases |rs|
  {
    var n := |rs| - 1;
    if j == n {
      assert Without(rs, j) == rs[..n];
    } else {
      GroupTotalWithout(rs[..n], g, k, j);
      WithoutInit(rs, j);
    }
  }

  /** The position of a row of `rs`. */
  lemma IndexOf(rs: seq<Record>, r: Record) returns (j: nat)
    requires r in multiset(rs)
    ensures j < |rs| && rs[j] == r
  {
    assert r in rs;
    j :| 0 <= j < |rs| && rs[j] == r;
  }

  /**
   * Sums do not depend on the order of the rows: two batches holding the
   * same rows, each as often, have the same total spend and the same spend
   * per key.
   */
  lemma {:induction false} SumsPermutation(rs1: seq<Record>, rs2: seq<Record>, g: Grouping, k: string)
    requires multiset(rs1) == multiset(rs2)
    ensures Total(rs1) == Total(rs2)
    ensures GroupTotal(rs1, g, k) == GroupTotal(rs2, g, k)
    decreases |rs1|
  {
    if rs1 != [] {
      var n := |rs1| - 1;
      var r := rs1[n];
      assert rs1 == rs1[..n] + [r];
      assert multiset(rs1) == multiset(rs1[..n]) + multiset{r};
      var j := IndexOf(rs2, r);
      var rest := Without(rs2, j);
      WithoutRow(rs2, j);
      assert multiset(rs1[..n]) == multiset(rs1) - multiset{r};
      SumsPermutation(rs1[..n], rest, g, k);
      TotalWithout(rs2, j);
      GroupTotalWithout(rs2, g, k, j);
    } else {
      assert |rs2| == |multiset(rs2)| == 0;
    }
  }

  /** Batches with the same rows carry the same keys. */
  lemma GroupKeysPermutation(rs1: seq<Record>, rs2: seq<Record>, g: Grouping)
    requires multiset(rs1) == multiset(rs2)
    ensures GroupKeys(rs1, g) == GroupKeys(rs2, g)
  {
    GroupKeysMeaning(rs1, g);
    GroupKeysMeaning(rs2, g);
    forall k | k in GroupKeys(rs1, g)
      ensures k in GroupKeys(rs2, g)
    {
      var i :| 0 <= i < |rs1| && KeyOf(rs1[i], g) == k;
      assert rs1[i] in multiset(rs2);
      var j := IndexOf(rs2, rs1[i]);
    }
    forall k | k in GroupKeys(rs2, g)
      ensures k in GroupKeys(rs1, g)
    {
      var i :| 0 <= i < |rs2| && KeyOf(rs2[i], g) == k;
      assert rs2[i] in multiset(rs1);
      var j := IndexOf(rs1, rs2[i]);
    }
  }

  /** `daily_totals` and `resource_totals` do not depend on the order of the rows. */
  lemma TotalsByPermutation(rs1: seq<Record>, rs2: seq<Record>, g: Grouping)
    requires multiset(rs1) == multiset(rs2)
    ensures TotalsBy(rs1, g) == TotalsBy(rs2, g)
  {
    TotalsByMeaning(rs1, g);
    TotalsByMeaning(rs2, g);
    GroupKeysPermutation(rs1, rs2, g);
    forall k | k in TotalsBy(rs1, g)
      ensures TotalsBy(rs1, g)[k] == TotalsBy(rs2, g)[k]
    {
      SumsPermutation(rs1, rs2, g, k);
    }
  }

  /** Two dates neither of which is before the other are the same date. */
  lemma BeforeTotal(a: Date, b: Date)
    requires !Before(a, b) && !Before(b, a)
    ensures a == b
  {
  }

  /** The entry of `m1` for `k` is not before that of `m2` when both hold the last uses of the same rows. */
  lemma LastUseNotBefore(rs1: seq<Record>, rs2: seq<Record>, m1: map<string, Date>, m2: map<string, Date>, k: string)
    requires multiset(rs1) == multiset(rs2) && AllDatesParse(rs1) && AllDatesParse(rs2)
    requires LastUses(rs1, UsageDates(rs1), m1) && LastUses(rs2, UsageDates(rs2), m2)
    requires k in m1
    ensures k in m2 && !Before(m2[k], m1[k])
  {
    var ds1, ds2 := UsageDates(rs1), UsageDates(rs2);
    var i :| 0 <= i < |rs1| && rs1[i].resourceId == k && ds1[i] == m1[k];
    assert rs1[i] in multiset(rs2);
    var j := IndexOf(rs2, rs1[i]);
    assert ds2[j] == ds1[i];
  }

  /**
   * The aggregates do not depend on the order of the rows: a batch and any
   * reordering of it have the same total, the same dictionaries and the
   * same resources, and all their dates parse alike. Only the insertion
   * order of the resources may differ, and it lists the same resources.
   */
  lemma AggregatesPermutation(rs1: seq<Record>, rs2: seq<Record>)
    requires multiset(rs1) == multiset(rs2) && AllDatesParse(rs1)
    ensures AllDatesParse(rs2)
    ensures var a1, a2 := AggregatesOf(rs1), AggregatesOf(rs2);
            && a1.totalCost == a2.totalCost
            && a1.dailyTotals == a2.dailyTotals
            && a1.resourceTotals == a2.resourceTotals
            && a1.resourceLastDate == a2.resourceLastDate
            && (forall k :: k in a1.resourceOrder <==> k in a2.resourceOrder)
            && |a1.resourceOrder| == |a2.resourceOrder|
  {
    forall i | 0 <= i < |rs2|
      ensures ParseDate(rs2[i].usageDate).Some?
    {
      assert rs2[i] in multiset(rs1);
      var j := IndexOf(rs1, rs2[i]);
    }
    SumsPermutation(rs1, rs2, ByDay, "");
    TotalsByPermutation(rs1, rs2, ByDay);
    TotalsByPermutation(rs1, rs2, ByResource);
    GroupKeysPermutation(rs1, rs2, ByResource);
    ResourceOrderMeaning(rs1);
    ResourceOrderMeaning(rs2);
    ResourceCount(rs1);
    ResourceCount(rs2);
    LastDatesPermutation(rs1, rs2);
  }

  /** `resource_last_date` does not depend on the order of the rows. */
  lemma LastDatesPermutation(rs1: seq<Record>, rs2: seq<Record>)
    requires multiset(rs1) == multiset(rs2) && AllDatesParse(rs1) && AllDatesParse(rs2)
    ensures LastDatesOf(rs1, UsageDates(rs1)) == LastDatesOf(rs2, UsageDates(rs2))
  {
    var m1, m2 := LastDatesOf(rs1, UsageDates(rs1)), LastDatesOf(rs2, UsageDates(rs2));
    LastDatesMeaning(rs1, UsageDates(rs1));
    LastDatesMeaning(rs2, UsageDates(rs2));
    GroupKeysPermutation(rs1, rs2, ByResource);
    assert m1.Keys == m2.Keys;
    LastUsesAgree(rs1, rs2, m1, m2);
  }

  /** Two maps of last uses of the same rows over the same resources are equal. */
  lemma LastUsesAgree(rs1: seq<Record>, rs2: seq<Record>, m1: map<string, Date>, m2: map<string, Date>)
    requires multiset(rs1) == multiset(rs2) && AllDatesParse(rs1) && AllDatesParse(rs2)
    requires LastUses(rs1, UsageDates(rs1), m1) && LastUses(rs2, UsageDates(rs2), m2)
    requires m1.Keys == m2.Keys
    ensures m1 == m2
  {
    forall k | k in m1
      ensures m1[k] == m2[k]
    {
      LastUseNotBefore(rs1, rs2, m1, m2, k);
      LastUseNotBefore(rs2, rs1, m2, m1, k);
      BeforeTotal(m1[k], m2[k]);
    }
  }
}
