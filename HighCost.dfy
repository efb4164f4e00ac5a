/**
 * High-cost resources: every resource whose total spend is at least one and
 * a half times the average spend per resource, visited in the insertion
 * order of the per-resource totals; twice the average or more is graded
 * "high", less is graded "medium".
 */
module HighCost {
  import opened Wrappers
  import opened Metrics
  import opened Aggregation

  /** The factor at which a resource is flagged, and the one at which it is graded high. */
  const FlagFactor: real := 1.5
  const HighFactor: real := 2.0

  /** One flagged resource; its total and its factor are rounded to cents. */
  datatype HighCostResource = HighCostResource(
    resourceId: string,
    totalCost: real,
    relativeToAvg: real,
    severity: Severity)

  /** The mean spend per resource, dividing by one when there are no resources. */
  function AveragePerResource(total: real, numResources: nat): (avg: real)
    ensures numResources == 0 ==> avg == total
    ensures numResources > 0 ==> avg * numResources as real == total
  {
    total / Max(numResources, 1) as real
  }

  /** How many averages a resource's total amounts to; 0 when the average is not positive. */
  function CostFactor(resourceTotal: real, avg: real): (f: real)
    ensures avg > 0.0 ==> f * avg == resourceTotal
    ensures avg <= 0.0 ==> f == 0.0
  {
    if avg > 0.0 then resourceTotal / avg else 0.0
  }

  /** The entry the loop appends for one resource, if it is flagged. */
  function HighCostEntry(rid: string, resourceTotal: real, avg: real): (r: Option<HighCostResource>)
    ensures r.Some? ==> avg > 0.0 && r.value.resourceId == rid
    ensures r.Some? ==> r.value.severity == High || r.value.severity == Medium
  {
    var factor := CostFactor(resourceTotal, avg);
    if factor >= FlagFactor then
      Some(HighCostResource(rid, Round2(resourceTotal), Round2(factor), if factor >= HighFactor then High else Medium))
    else None
  }

  /** Every resource in `order` has a total. */
  predicate Keyed(order: seq<string>, totals: map<string, real>)
  {
    forall i :: 0 <= i < |order| ==> order[i] in totals
  }

  /** The entries for the first `n` resources of `order`, in that order. */
  function HighCostUpTo(order: seq<string>, totals: map<string, real>, avg: real, n: nat): seq<HighCostResource>
    requires Keyed(order, totals) && n <= |order|
  {
    if n == 0 then []
    else
      var earlier := HighCostUpTo(order, totals, avg, n - 1);
      match HighCostEntry(order[n - 1], totals[order[n - 1]], avg)
      case None => earlier
      case Some(h) => earlier + [h]
  }

  function HighCostOf(order: seq<string>, totals: map<string, real>, avg: real): seq<HighCostResource>
    requires Keyed(order, totals)
  {
    HighCostUpTo(order, totals, avg, |order|)
  }

  /** The high-cost loop over the per-resource totals in insertion order. */
  method FindHighCostResources(order: seq<string>, totals: map<string, real>, avg: real)
    returns (hs: seq<HighCostResource>)
    requires Keyed(order, totals)
    ensures hs == HighCostOf(order, totals, avg)
  {
    hs := [];
    for i := 0 to |order|
      invariant hs == HighCostUpTo(order, totals, avg, i)
    {
      var rId := order[i];
      var rTotal := totals[rId];
      var factor := if avg > 0.0 then rTotal / avg else 0.0;
      if factor >= FlagFactor {
        var severity := Medium;
        if factor >= HighFactor {
          severity := High;
        }
        hs := hs + [HighCostResource(rId, Round2(rTotal), Round2(factor), severity)];
      }
    }
  }

  /** A resource is flagged when its total is at least 1.5 times a positive average. */
  predicate Flagged(resourceTotal: real, avg: real)
  {
    avg > 0.0 && resourceTotal >= FlagFactor * avg
  }

  /**
   * An entry exists exactly for a flagged resource. It carries the resource's
   * rounded total and a rounded factor of at least 1.5, and is graded "high"
   * exactly when the total is at least twice the average, "medium" otherwise.
   */
  lemma HighCostEntryMeaning(rid: string, resourceTotal: real, avg: real)
    ensures HighCostEntry(rid, resourceTotal, avg).Some? <==> Flagged(resourceTotal, avg)
    ensures HighCostEntry(rid, resourceTotal, avg).Some? ==>
              var h := HighCostEntry(rid, resourceTotal, avg).value;
              && h.resourceId == rid
              && h.totalCost == Round2(resourceTotal)
              && h.relativeToAvg >= FlagFactor
              && (h.severity == High <==> resourceTotal >= HighFactor * avg)
              && (h.severity == High || h.severity == Medium)
  {
    var factor := CostFactor(resourceTotal, avg);
    if avg > 0.0 {
      ScaleCompare(factor, avg, FlagFactor, resourceTotal);
      ScaleCompare(factor, avg, HighFactor, resourceTotal);
    }
    if factor >= FlagFactor {
      RoundKeepsBound(factor, 150);
    }
  }

  /** For a positive average, comparing the factor is comparing the total. */
  lemma ScaleCompare(f: real, avg: real, c: real, total: real)
    requires avg > 0.0 && f * avg == total
    ensures f >= c <==> total >= c * avg
  {
    if f >= c {
      assert (f - c) * avg >= 0.0;
    } else {
      assert (c - f) * avg > 0.0;
    }
  }

  /**
   * The list holds exactly the entries of the flagged resources among the
   * first `n`, each once per occurrence in `order`.
   */
  lemma {:induction false} HighCostMembership(order: seq<string>, totals: map<string, real>, avg: real, n: nat)
    requires Keyed(order, totals) && n <= |order|
    ensures forall h :: h in HighCostUpTo(order, totals, avg, n) ==>
              h.resourceId in order[..n] && HighCostEntry(h.resourceId, totals[h.resourceId], avg) == Some(h)
    ensures forall i :: 0 <= i < n && Flagged(totals[order[i]], avg) ==>
              HighCostEntry(order[i], totals[order[i]], avg).value in HighCostUpTo(order, totals, avg, n)
    decreases n
  {
    if n > 0 {
      HighCostMembership(order, totals, avg, n - 1);
      assert order[..n] == order[..n - 1] + [order[n - 1]];
      forall i | 0 <= i < n
        ensures Flagged(totals[order[i]], avg) <==> HighCostEntry(order[i], totals[order[i]], avg).Some?
      {
        HighCostEntryMeaning(order[i], totals[order[i]], avg);
      }
    }
  }

  /** The list has at most one entry per resource visited, and one for each only when all are flagged. */
  lemma {:induction false} HighCostCount(order: seq<string>, totals: map<string, real>, avg: real, n: nat)
    requires Keyed(order, totals) && n <= |order|
    ensures |HighCostUpTo(order, totals, avg, n)| <= n
    ensures |HighCostUpTo(order, totals, avg, n)| == n ==> forall i :: 0 <= i < n ==> Flagged(totals[order[i]], avg)
    decreases n
  {
    if n > 0 {
      HighCostCount(order, totals, avg, n - 1);
      forall i | 0 <= i < n
        ensures Flagged(totals[order[i]], avg) <==> HighCostEntry(order[i], totals[order[i]], avg).Some?
      {
        HighCostEntryMeaning(order[i], totals[order[i]], avg);
      }
    }
  }

  /** A sum of values each at least `c` is at least `c` times their number. */
  lemma {:induction false} SumAtLeast(m: map<string, real>, ks: seq<string>, c: real)
    requires forall i :: 0 <= i < |ks| ==> ks[i] in m && m[ks[i]] >= c
    ensures SumValues(m, ks) >= c * |ks| as real
    decreases |ks|
  {
    if ks != [] {
      var n := |ks| - 1;
      SumAtLeast(m, ks[..n], c);
      assert c * |ks| as real == c * n as real + c;
    }
  }

  /**
   * Not every resource can be far above the average: when the per-resource
   * totals add up to the total spend and the average is taken over those
   * resources, at least one resource is not flagged.
   */
  lemma NotAllHighCost(order: seq<string>, totals: map<string, real>, total: real)
    requires Keyed(order, totals) && |order| > 0
    requires SumValues(totals, order) == total
    ensures |HighCostOf(order, totals, AveragePerResource(total, |order|))| < |order|
  {
    HighCostCount(order, totals, AveragePerResource(total, |order|), |order|);
    SomeNotFlagged(order, totals, total);
  }

  /** Some resource's total is below 1.5 times the average over all of them. */
  lemma SomeNotFlagged(order: seq<string>, totals: map<string, real>, total: real)
    requires Keyed(order, totals) && |order| > 0
    requires SumValues(totals, order) == total
    ensures exists i :: 0 <= i < |order| && !Flagged(totals[order[i]], AveragePerResource(total, |order|))
  {
    var avg := AveragePerResource(total, |order|);
    if forall i :: 0 <= i < |order| ==> Flagged(totals[order[i]], avg) {
      SumAtLeast(totals, order, FlagFactor * avg);
      ScaledSumExceeds(avg, |order| as real, total);
      assert false;
    }
  }

  lemma ScaledSumExceeds(avg: real, count: real, s: real)
    requires avg > 0.0 && count >= 1.0 && s >= (FlagFactor * avg) * count
    ensures s > avg * count
  {
    assert (FlagFactor * avg) * count == avg * count + (0.5 * avg) * count;
    assert (0.5 * avg) * count > 0.0;
  }

  /** With a single resource nothing is flagged. */
  lemma SingleResourceNotHighCost(rid: string, totals: map<string, real>, total: real)
    requires rid in totals && totals[rid] == total
    ensures HighCostOf([rid], totals, AveragePerResource(total, 1)) == []
  {
    assert SumValues(totals, [rid]) == total;
    NotAllHighCost([rid], totals, total);
  }

  /** The flagged resources among the first `n` of `order`. */
  function FlaggedAmong(order: seq<string>, totals: map<string, real>, avg: real, n: nat): set<string>
    requires Keyed(order, totals) && n <= |order|
  {
    if n == 0 then {}
    else
      var rid := order[n - 1];
      FlaggedAmong(order, totals, avg, n - 1) + (if Flagged(totals[rid], avg) then {rid} else {})
  }

  /** The flagged set holds exactly the flagged resources among the first `n`. */
  lemma {:induction false} FlaggedAmongMeaning(order: seq<string>, totals: map<string, real>, avg: real, n: nat)
    requires Keyed(order, totals) && n <= |order|
    ensures forall k :: k in FlaggedAmong(order, totals, avg, n) <==> k in order[..n] && Flagged(totals[k], avg)
    decreases n
  {
    if n > 0 {
      FlaggedAmongMeaning(order, totals, avg, n - 1);
      assert order[..n] == order[..n - 1] + [order[n - 1]];
    }
  }

  /** How many of the first `n` resources of `order` are flagged. */
  function FlaggedCount(order: seq<string>, totals: map<string, real>, avg: real, n: nat): nat
    requires Keyed(order, totals) && n <= |order|
  {
    if n == 0 then 0
    else FlaggedCount(order, totals, avg, n - 1) + (if Flagged(totals[order[n - 1]], avg) then 1 else 0)
  }

  /** The list has one entry per flagged resource visited. */
  lemma {:induction false} HighCostUpToCount(order: seq<string>, totals: map<string, real>, avg: real, n: nat)
    requires Keyed(order, totals) && n <= |order|
    ensures |HighCostUpTo(order, totals, avg, n)| == FlaggedCount(order, totals, avg, n)
    decreases n
  {
    if n > 0 {
      HighCostUpToCount(order, totals, avg, n - 1);
      HighCostEntryMeaning(order[n - 1], totals[order[n - 1]], avg);
    }
  }

  /** Over distinct resources, the count of flagged ones is the size of the flagged set. */
  lemma {:induction false} FlaggedCountDistinct(order: seq<string>, totals: map<string, real>, avg: real, n: nat)
    requires Keyed(order, totals) && NoDuplicates(order) && n <= |order|
    ensures FlaggedCount(order, totals, avg, n) == |FlaggedAmong(order, totals, avg, n)|
    decreases n
  {
    if n > 0 {
      FlaggedCountDistinct(order, totals, avg, n - 1);
      FlaggedNotYetCounted(order, totals, avg, n);
    }
  }

  /** Over distinct resources, the next resource is not yet in the flagged set. */
  lemma FlaggedNotYetCounted(order: seq<string>, totals: map<string, real>, avg: real, n: nat)
    requires Keyed(order, totals) && NoDuplicates(order) && 0 < n <= |order|
    ensures order[n - 1] !in FlaggedAmong(order, totals, avg, n - 1)
  {
    FlaggedAmongMeaning(order, totals, avg, n - 1);
    assert order[n - 1] !in order[..n - 1];
  }

  /**
   * The high-cost entries do not depend on the order in which the distinct
   * resources are visited: two orders of the same resources list the same
   * entries, equally many.
   */
  lemma HighCostReordered(order1: seq<string>, order2: seq<string>, totals: map<string, real>, avg: real)
    requires Keyed(order1, totals) && NoDuplicates(order1)
    requires Keyed(order2, totals) && NoDuplicates(order2)
    requires forall k :: k in order1 <==> k in order2
    ensures forall h :: h in HighCostOf(order1, totals, avg) <==> h in HighCostOf(order2, totals, avg)
    ensures |HighCostOf(order1, totals, avg)| == |HighCostOf(order2, totals, avg)|
  {
    HighCostUpToCount(order1, totals, avg, |order1|);
    HighCostUpToCount(order2, totals, avg, |order2|);
    FlaggedCountDistinct(order1, totals, avg, |order1|);
    FlaggedCountDistinct(order2, totals, avg, |order2|);
    FlaggedAmongMeaning(order1, totals, avg, |order1|);
    FlaggedAmongMeaning(order2, totals, avg, |order2|);
    assert order1[..|order1|] == order1 && order2[..|order2|] == order2;
    assert FlaggedAmong(order1, totals, avg, |order1|) == FlaggedAmong(order2, totals, avg, |order2|);
    HighCostListedOnce(order1, order2, totals, avg);
    HighCostListedOnce(order2, order1, totals, avg);
  }

  /** Every entry of the first order's list is in the second's. */
  lemma HighCostListedOnce(order1: seq<string>, order2: seq<string>, totals: map<string, real>, avg: real)
    requires Keyed(order1, totals) && Keyed(order2, totals)
    requires forall k :: k in order1 <==> k in order2
    ensures forall h :: h in HighCostOf(order1, totals, avg) ==> h in HighCostOf(order2, totals, avg)
  {
    HighCostMembership(order1, totals, avg, |order1|);
    HighCostMembership(order2, totals, avg, |order2|);
    assert order1[..|order1|] == order1 && order2[..|order2|] == order2;
    forall h | h in HighCostOf(order1, totals, avg)
      ensures h in HighCostOf(order2, totals, avg)
    {
      var i :| 0 <= i < |order2| && order2[i] == h.resourceId;
      HighCostEntryMeaning(h.resourceId, totals[h.resourceId], avg);
    }
  }
}
