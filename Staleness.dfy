/**
 * Stale resources: every resource whose last usage date lies at least seven
 * days before the latest last-usage date of the batch, visited in the
 * insertion order of the last-use dictionary, with its total spend as the
 * estimated savings of deleting it.
 */
module Staleness {
  import opened Wrappers
  import opened Dates
  import opened Metrics
  import opened Aggregation

  /** A resource unused for this many days or more is stale. */
  const StaleThresholdDays: int := 7

  /** One stale resource; the savings are rounded to cents. */
  datatype StaleResource = StaleResource(
    resourceId: string,
    lastUsageDate: string,
    daysSinceLastUse: int,
    estimatedSavingsIfDeleted: real)

  /** Every resource in `order` has a valid last-use date. */
  predicate LastDated(order: seq<string>, lastDates: map<string, Date>)
  {
    forall i :: 0 <= i < |order| ==> order[i] in lastDates && ValidDate(lastDates[order[i]])
  }

  /** Every resource in `order` has a valid last-use date and a total. */
  predicate Dated(order: seq<string>, lastDates: map<string, Date>, totals: map<string, real>)
  {
    LastDated(order, lastDates) && forall i :: 0 <= i < |order| ==> order[i] in totals
  }

  /** `max(resource_last_date.values())`: one of the dates, and none of them is later. */
  function LatestDate(order: seq<string>, lastDates: map<string, Date>): (d: Date)
    requires LastDated(order, lastDates) && |order| > 0
    ensures exists i :: 0 <= i < |order| && d == lastDates[order[i]]
    ensures forall i :: 0 <= i < |order| ==> !Before(d, lastDates[order[i]])
  {
    if |order| == 1 then lastDates[order[0]]
    else
      var earlier := LatestDate(order[..|order| - 1], lastDates);
      var last := lastDates[order[|order| - 1]];
      assert forall i :: 0 <= i < |order| - 1 ==> order[..|order| - 1][i] == order[i];
      if Before(earlier, last) then last else earlier
  }

  /** The entry the loop appends for one resource, if it is stale. */
  function StaleEntry(rid: string, lastSeen: Date, latest: Date, total: real): (r: Option<StaleResource>)
    requires ValidDate(lastSeen) && ValidDate(latest)
    ensures r.Some? ==> r.value.resourceId == rid && Before(lastSeen, latest)
    ensures r.Some? ==> r.value.daysSinceLastUse >= StaleThresholdDays
  {
    var ageDays := DaysBetween(lastSeen, latest);
    if ageDays >= StaleThresholdDays then Some(StaleResource(rid, FormatDate(lastSeen), ageDays, Round2(total)))
    else None
  }

  /** The entries for the first `n` resources of `order`, in that order. */
  function StaleUpTo(order: seq<string>, lastDates: map<string, Date>, totals: map<string, real>, latest: Date, n: nat)
    : seq<StaleResource>
    requires Dated(order, lastDates, totals) && ValidDate(latest) && n <= |order|
  {
    if n == 0 then []
    else
      var earlier := StaleUpTo(order, lastDates, totals, latest, n - 1);
      var rid := order[n - 1];
      match StaleEntry(rid, lastDates[rid], latest, totals[rid])
      case None => earlier
      case Some(u) => earlier + [u]
  }

  function StaleOf(order: seq<string>, lastDates: map<string, Date>, totals: map<string, real>, latest: Date)
    : seq<StaleResource>
    requires Dated(order, lastDates, totals) && ValidDate(latest)
  {
    StaleUpTo(order, lastDates, totals, latest, |order|)
  }

  /** The stale-resource loop over the last-use dictionary in insertion order. */
  method FindStaleResources(order: seq<string>, lastDates: map<string, Date>, totals: map<string, real>, latest: Date)
    returns (unused: seq<StaleResource>)
    requires Dated(order, lastDates, totals) && ValidDate(latest)
    ensures unused == StaleOf(order, lastDates, totals, latest)
  {
    unused := [];
    for i := 0 to |order|
      invariant unused == StaleUpTo(order, lastDates, totals, latest, i)
    {
      var rId := order[i];
      var lastSeen := lastDates[rId];
      var ageDays := DaysBetween(lastSeen, latest);
      StaleStep(order, lastDates, totals, latest, i);
      if ageDays >= StaleThresholdDays {
        unused := unused + [StaleResource(rId, FormatDate(lastSeen), ageDays, Round2(totals[rId]))];
      }
    }
  }

  /** One iteration of the loop appends the entry of the next resource, if it is stale. */
  lemma StaleStep(order: seq<string>, lastDates: map<string, Date>, totals: map<string, real>, latest: Date, i: nat)
    requires Dated(order, lastDates, totals) && ValidDate(latest) && i < |order|
    ensures var rid := order[i];
            StaleUpTo(order, lastDates, totals, latest, i + 1)
            == if DaysBetween(lastDates[rid], latest) >= StaleThresholdDays
               then StaleUpTo(order, lastDates, totals, latest, i)
                    + [StaleResource(rid, FormatDate(lastDates[rid]), DaysBetween(lastDates[rid], latest),
                                     Round2(totals[rid]))]
               else StaleUpTo(order, lastDates, totals, latest, i)
  {
  }

  /**
   * A resource gets an entry exactly when its last use is at least seven
   * days before the latest date. The entry's date text reads back as that
   * last use, and its savings are the resource's rounded total.
   */
  lemma StaleEntryMeaning(rid: string, lastSeen: Date, latest: Date, total: real)
    requires ValidDate(lastSeen) && ValidDate(latest)
    ensures StaleEntry(rid, lastSeen, latest, total).Some? <==> DaysBetween(lastSeen, latest) >= StaleThresholdDays
    ensures StaleEntry(rid, lastSeen, latest, total).Some? ==>
              var u := StaleEntry(rid, lastSeen, latest, total).value;
              && u.resourceId == rid
              && ParseDate(u.lastUsageDate) == Some(lastSeen)
              && u.daysSinceLastUse == DaysBetween(lastSeen, latest)
              && u.estimatedSavingsIfDeleted == Round2(total)
  {
    ParseFormat(lastSeen);
  }

  /**
   * The list holds exactly the entries of the stale resources among the
   * first `n`, in the order the resources were first seen.
   */
  lemma {:induction false} StaleMembership(order: seq<string>, lastDates: map<string, Date>, totals: map<string, real>,
                                           latest: Date, n: nat)
    requires Dated(order, lastDates, totals) && ValidDate(latest) && n <= |order|
    ensures forall u :: u in StaleUpTo(order, lastDates, totals, latest, n) ==>
              u.resourceId in order[..n]
              && StaleEntry(u.resourceId, lastDates[u.resourceId], latest, totals[u.resourceId]) == Some(u)
    ensures forall i :: 0 <= i < n && DaysBetween(lastDates[order[i]], latest) >= StaleThresholdDays ==>
              StaleEntry(order[i], lastDates[order[i]], latest, totals[order[i]]).value
                in StaleUpTo(order, lastDates, totals, latest, n)
  {
    StaleSound(order, lastDates, totals, latest, n);
    StaleComplete(order, lastDates, totals, latest, n);
  }

  /** Every entry among the first `n` is the entry of one of the first `n` resources. */
  lemma {:induction false} StaleSound(order: seq<string>, lastDates: map<string, Date>, totals: map<string, real>,
                                      latest: Date, n: nat)
    requires Dated(order, lastDates, totals) && ValidDate(latest) && n <= |order|
    ensures forall u :: u in StaleUpTo(order, lastDates, totals, latest, n) ==>
              u.resourceId in order[..n]
              && StaleEntry(u.resourceId, lastDates[u.resourceId], latest, totals[u.resourceId]) == Some(u)
    decreases n
  {
    if n > 0 {
      StaleSound(order, lastDates, totals, latest, n - 1);
      var rid := order[n - 1];
      var earlier := StaleUpTo(order, lastDates, totals, latest, n - 1);
      assert order[..n] == order[..n - 1] + [rid];
      forall u | u in StaleUpTo(order, lastDates, totals, latest, n)
        ensures u.resourceId in order[..n]
        ensures StaleEntry(u.resourceId, lastDates[u.resourceId], latest, totals[u.resourceId]) == Some(u)
      {
        if u !in earlier {
          assert StaleEntry(rid, lastDates[rid], latest, totals[rid]) == Some(u);
        }
      }
    }
  }

  /** Every stale resource among the first `n` has its entry among the first `n` entries. */
  lemma {:induction false} StaleComplete(order: seq<string>, lastDates: map<string, Date>, totals: map<string, real>,
                                         latest: Date, n: nat)
    requires Dated(order, lastDates, totals) && ValidDate(latest) && n <= |order|
    ensures forall i :: 0 <= i < n && DaysBetween(lastDates[order[i]], latest) >= StaleThresholdDays ==>
              StaleEntry(order[i], lastDates[order[i]], latest, totals[order[i]]).value
                in StaleUpTo(order, lastDates, totals, latest, n)
    decreases n
  {
    if n > 0 {
      StaleComplete(order, lastDates, totals, latest, n - 1);
      var rid := order[n - 1];
      StaleEntryMeaning(rid, lastDates[rid], latest, totals[rid]);
    }
  }

  /**
   * Measured from the latest date of the batch, no resource's age is
   * negative, and a resource last used on that latest date is never stale.
   */
  lemma LatestNeverStale(order: seq<string>, lastDates: map<string, Date>, totals: map<string, real>, i: nat)
    requires Dated(order, lastDates, totals) && i < |order|
    ensures DaysBetween(lastDates[order[i]], LatestDate(order, lastDates)) >= 0
    ensures lastDates[order[i]] == LatestDate(order, lastDates) ==>
              StaleEntry(order[i], lastDates[order[i]], LatestDate(order, lastDates), totals[order[i]]).None?
  {
    OrdinalOrder(LatestDate(order, lastDates), lastDates[order[i]]);
  }

  /** Every listed resource was last used at least a week before the latest date. */
  lemma StaleAtLeastAWeek(order: seq<string>, lastDates: map<string, Date>, totals: map<string, real>, latest: Date)
    requires Dated(order, lastDates, totals) && ValidDate(latest)
    ensures forall u :: u in StaleOf(order, lastDates, totals, latest) ==> u.daysSinceLastUse >= StaleThresholdDays
  {
    StaleMembership(order, lastDates, totals, latest, |order|);
  }

  /** The latest last-use date does not depend on the order of the resources. */
  lemma LatestReordered(order1: seq<string>, order2: seq<string>, lastDates: map<string, Date>)
    requires LastDated(order1, lastDates) && |order1| > 0
    requires LastDated(order2, lastDates) && |order2| > 0
    requires forall k :: k in order1 <==> k in order2
    ensures LatestDate(order1, lastDates) == LatestDate(order2, lastDates)
  {
    var d1, d2 := LatestDate(order1, lastDates), LatestDate(order2, lastDates);
    var i1 :| 0 <= i1 < |order1| && d1 == lastDates[order1[i1]];
    var i2 :| 0 <= i2 < |order2| && d2 == lastDates[order2[i2]];
    assert order1[i1] in order2 && order2[i2] in order1;
    var j1 :| 0 <= j1 < |order2| && order2[j1] == order1[i1];
    var j2 :| 0 <= j2 < |order1| && order1[j2] == order2[i2];
    assert !Before(d2, d1) && !Before(d1, d2);
    BeforeTotal(d1, d2);
  }

  /** Resource `k` was last used at least a week before `latest`. */
  predicate IsStale(lastDates: map<string, Date>, k: string, latest: Date)
    requires ValidDate(latest)
  {
    k in lastDates && ValidDate(lastDates[k]) && DaysBetween(lastDates[k], latest) >= StaleThresholdDays
  }

  /** The stale resources among the first `n` of `order`. */
  function StaleAmong(order: seq<string>, lastDates: map<string, Date>, latest: Date, n: nat): set<string>
    requires ValidDate(latest) && n <= |order|
  {
    if n == 0 then {}
    else
      var rid := order[n - 1];
      StaleAmong(order, lastDates, latest, n - 1) + (if IsStale(lastDates, rid, latest) then {rid} else {})
  }

  /** The stale set holds exactly the stale resources among the first `n`. */
  lemma {:induction false} StaleAmongMeaning(order: seq<string>, lastDates: map<string, Date>, latest: Date, n: nat)
    requires ValidDate(latest) && n <= |order|
    ensures forall k :: k in StaleAmong(order, lastDates, latest, n) <==> k in order[..n] && IsStale(lastDates, k, latest)
    decreases n
  {
    if n > 0 {
      StaleAmongMeaning(order, lastDates, latest, n - 1);
      assert order[..n] == order[..n - 1] + [order[n - 1]];
    }
  }

  /** How many of the first `n` resources of `order` are stale. */
  function StaleCount(order: seq<string>, lastDates: map<string, Date>, latest: Date, n: nat): nat
    requires ValidDate(latest) && n <= |order|
  {
    if n == 0 then 0
    else StaleCount(order, lastDates, latest, n - 1) + (if IsStale(lastDates, order[n - 1], latest) then 1 else 0)
  }

  /** The list has one entry per stale resource visited. */
  lemma {:induction false} StaleUpToCount(order: seq<string>, lastDates: map<string, Date>,
                                          totals: map<string, real>, latest: Date, n: nat)
    requires Dated(order, lastDates, totals) && ValidDate(latest) && n <= |order|
    ensures |StaleUpTo(order, lastDates, totals, latest, n)| == StaleCount(order, lastDates, latest, n)
    decreases n
  {
    if n > 0 {
      StaleUpToCount(order, lastDates, totals, latest, n - 1);
      StaleStepCount(order, lastDates, totals, latest, n - 1);
    }
  }

  /** Over distinct resources, the count of stale ones is the size of the stale set. */
  lemma {:induction false} StaleCountDistinct(order: seq<string>, lastDates: map<string, Date>, latest: Date, n: nat)
    requires ValidDate(latest) && NoDuplicates(order) && n <= |order|
    ensures StaleCount(order, lastDates, latest, n) == |StaleAmong(order, lastDates, latest, n)|
    decreases n
  {
    if n > 0 {
      StaleCountDistinct(order, lastDates, latest, n - 1);
      StaleNotYetCounted(order, lastDates, latest, n);
    }
  }

  /** Over distinct resources, the next resource is not yet in the stale set. */
  lemma StaleNotYetCounted(order: seq<string>, lastDates: map<string, Date>, latest: Date, n: nat)
    requires ValidDate(latest) && NoDuplicates(order) && 0 < n <= |order|
    ensures order[n - 1] !in StaleAmong(order, lastDates, latest, n - 1)
  {
    StaleAmongMeaning(order, lastDates, latest, n - 1);
    assert order[n - 1] !in order[..n - 1];
  }

  /** One iteration adds one entry exactly when the resource is stale. */
  lemma StaleStepCount(order: seq<string>, lastDates: map<string, Date>, totals: map<string, real>, latest: Date, i: nat)
    requires Dated(order, lastDates, totals) && ValidDate(latest) && i < |order|
    ensures |StaleUpTo(order, lastDates, totals, latest, i + 1)|
            == |StaleUpTo(order, lastDates, totals, latest, i)| + (if IsStale(lastDates, order[i], latest) then 1 else 0)
  {
    StaleStep(order, lastDates, totals, latest, i);
  }

  /**
   * The stale entries do not depend on the order in which the distinct
   * resources are visited: two orders of the same resources list the same
   * entries, equally many.
   */
  lemma StaleReordered(order1: seq<string>, order2: seq<string>, lastDates: map<string, Date>,
                       totals: map<string, real>, latest: Date)
    requires ValidDate(latest)
    requires Dated(order1, lastDates, totals) && NoDuplicates(order1)
    requires Dated(order2, lastDates, totals) && NoDuplicates(order2)
    requires forall k :: k in order1 <==> k in order2
    ensures forall u :: u in StaleOf(order1, lastDates, totals, latest) <==> u in StaleOf(order2, lastDates, totals, latest)
    ensures |StaleOf(order1, lastDates, totals, latest)| == |StaleOf(order2, lastDates, totals, latest)|
  {
    StaleUpToCount(order1, lastDates, totals, latest, |order1|);
    StaleUpToCount(order2, lastDates, totals, latest, |order2|);
    StaleCountDistinct(order1, lastDates, latest, |order1|);
    StaleCountDistinct(order2, lastDates, latest, |order2|);
    StaleAmongMeaning(order1, lastDates, latest, |order1|);
    StaleAmongMeaning(order2, lastDates, latest, |order2|);
    assert order1[..|order1|] == order1 && order2[..|order2|] == order2;
    assert StaleAmong(order1, lastDates, latest, |order1|) == StaleAmong(order2, lastDates, latest, |order2|);
    StaleListedIn(order1, order2, lastDates, totals, latest);
    StaleListedIn(order2, order1, lastDates, totals, latest);
  }

  /** Every entry of the first order's list is in the second's. */
  lemma StaleListedIn(order1: seq<string>, order2: seq<string>, lastDates: map<string, Date>,
                      totals: map<string, real>, latest: Date)
    requires ValidDate(latest) && Dated(order1, lastDates, totals) && Dated(order2, lastDates, totals)
    requires forall k :: k in order1 <==> k in order2
    ensures forall u :: u in StaleOf(order1, lastDates, totals, latest) ==> u in StaleOf(order2, lastDates, totals, latest)
  {
    StaleMembership(order1, lastDates, totals, latest, |order1|);
    StaleMembership(order2, lastDates, totals, latest, |order2|);
    assert order1[..|order1|] == order1 && order2[..|order2|] == order2;
    forall u | u in StaleOf(order1, lastDates, totals, latest)
      ensures u in StaleOf(order2, lastDates, totals, latest)
    {
      var i :| 0 <= i < |order2| && order2[i] == u.resourceId;
      StaleEntryMeaning(u.resourceId, lastDates[u.resourceId], latest, totals[u.resourceId]);
    }
  }
}
