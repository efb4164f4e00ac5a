/**
 * Day-over-day spike detection: the usage days in string order, and every
 * pair of consecutive days whose total moved by at least 20 percent of a
 * positive previous total, graded into severity bands by the size of the
 * move.
 */
module Spikes {
  import opened Wrappers
  import opened LexOrder
  import opened Metrics

  /** Lower bounds, in percent, of the medium, high and critical bands. */
  const MediumChange: real := 20.0
  const HighChange: real := 40.0
  const CriticalChange: real := 70.0

  /** One recorded spike; the totals and the percentage are rounded to cents. */
  datatype Spike = Spike(
    fromDate: string,
    toDate: string,
    previousTotal: real,
    currentTotal: real,
    changePercent: real,
    severity: Severity)

  // ---------- The day keys in sorted order ----------

  predicate StrictlySorted(ds: seq<string>)
  {
    forall i, j :: 0 <= i < j < |ds| ==> LexLess(ds[i], ds[j])
  }

  /** `ds` is `sorted(m.keys())`: every key once, in ascending string order. */
  ghost predicate SortedKeys(ds: seq<string>, m: map<string, real>)
  {
    StrictlySorted(ds) && (forall k :: k in ds <==> k in m)
  }

  /** Every non-empty set of strings has a least element. */
  lemma {:induction false} LeastExists(s: set<string>)
    requires s != {}
    ensures exists k :: k in s && forall k' :: k' in s && k' != k ==> LexLess(k, k')
    decreases |s|
  {
    var x :| x in s;
    var rest := s - {x};
    if rest == {} {
      assert forall k' :: k' in s && k' != x ==> k' in rest;
    } else {
      LeastExists(rest);
      var y :| y in rest && forall k' :: k' in rest && k' != y ==> LexLess(y, k');
      LexTotal(x, y);
      if LexLess(x, y) {
        forall k' | k' in s && k' != x
          ensures LexLess(x, k')
        {
          if k' != y {
            LexTransitive(x, y, k');
          }
        }
      } else {
        assert forall k' :: k' in s && k' != y ==> LexLess(y, k');
      }
    }
  }

  /** `sorted(m.keys())`, by repeatedly taking the least remaining key. */
  method SortKeys(m: map<string, real>) returns (ds: seq<string>)
    ensures SortedKeys(ds, m)
  {
    ds := [];
    var rest := m.Keys;
    while rest != {}
      invariant StrictlySorted(ds)
      invariant forall k :: k in m <==> k in ds || k in rest
      invariant forall i, k :: 0 <= i < |ds| && k in rest ==> LexLess(ds[i], k)
      decreases |rest|
    {
      LeastExists(rest);
      var k :| k in rest && forall k' :: k' in rest && k' != k ==> LexLess(k, k');
      ds := ds + [k];
      rest := rest - {k};
    }
  }

  /** The sorted key list is unique: two strictly sorted lists of the same strings are equal. */
  lemma {:induction false} SortedUnique(a: seq<string>, b: seq<string>)
    requires StrictlySorted(a) && StrictlySorted(b)
    requires forall k :: k in a <==> k in b
    ensures a == b
    decreases |a|
  {
    SameElementsEmpty(a, b);
    if a != [] {
      assert b[0] in a && a[0] in b;
      var i :| 0 <= i < |a| && a[i] == b[0];
      var j :| 0 <= j < |b| && b[j] == a[0];
      if i > 0 {
        if j > 0 {
          LexAsymmetric(a[0], a[i]);
        } else {
          LexIrreflexive(a[0]);
        }
      } else if j > 0 {
        LexIrreflexive(b[0]);
      }
      assert a[0] == b[0];
      forall k
        ensures k in a[1..] <==> k in b[1..]
      {
        if k in a[1..] {
          var p :| 0 <= p < |a| - 1 && a[1..][p] == k;
          assert LexLess(a[0], a[p + 1]);
          LexIrreflexive(a[0]);
          assert k in b;
          var q :| 0 <= q < |b| && b[q] == k;
          assert q != 0;
          assert b[1..][q - 1] == k;
        }
        if k in b[1..] {
          var q :| 0 <= q < |b| - 1 && b[1..][q] == k;
          assert LexLess(b[0], b[q + 1]);
          LexIrreflexive(b[0]);
          assert k in a;
          var p :| 0 <= p < |a| && a[p] == k;
          assert p != 0;
          assert a[1..][p - 1] == k;
        }
      }
      SortedUnique(a[1..], b[1..]);
      assert a == [a[0]] + a[1..] && b == [b[0]] + b[1..];
    }
  }

  lemma SameElementsEmpty(a: seq<string>, b: seq<string>)
    requires forall k :: k in a <==> k in b
    ensures a == [] <==> b == []
  {
    if a != [] {
      assert a[0] in b;
    }
    if b != [] {
      assert b[0] in a;
    }
  }

  // ---------- Grading one transition ----------

  /** The relative change from `prev` to `cur`, in percent of `prev`. */
  function ChangePercent(prev: real, cur: real): (change: real)
    requires prev != 0.0
    ensures change * prev == (cur - prev) * 100.0
  {
    ((cur - prev) / prev) * 100.0
  }

  /** The severity band of a change, by its magnitude. */
  function SeverityOf(change: real): (s: Severity)
    ensures s == Critical <==> Abs(change) >= CriticalChange
    ensures s == High <==> HighChange <= Abs(change) < CriticalChange
    ensures s == Medium <==> MediumChange <= Abs(change) < HighChange
    ensures s == Info <==> Abs(change) < MediumChange
  {
    if Abs(change) >= CriticalChange then Critical
    else if Abs(change) >= HighChange then High
    else if Abs(change) >= MediumChange then Medium
    else Info
  }

  function Rank(s: Severity): nat
  {
    match s
    case Info => 0
    case Medium => 1
    case High => 2
    case Critical => 3
  }

  /** A larger move never lands in a lower band. */
  lemma SeverityMonotone(a: real, b: real)
    requires Abs(a) <= Abs(b)
    ensures Rank(SeverityOf(a)) <= Rank(SeverityOf(b))
  {
  }

  /** Every day in `ds` has a total. */
  predicate Covers(ds: seq<string>, daily: map<string, real>)
  {
    forall i :: 0 <= i < |ds| ==> ds[i] in daily
  }

  /** The spike the loop records for the transition from day `i - 1` to day `i`, if any. */
  function TransitionSpike(ds: seq<string>, daily: map<string, real>, i: nat): (r: Option<Spike>)
    requires Covers(ds, daily) && 0 < i < |ds|
    ensures r.Some? ==> daily[ds[i - 1]] > 0.0 && r.value.fromDate == ds[i - 1] && r.value.toDate == ds[i]
    ensures r.Some? ==> r.value.severity != Info
  {
    var prev, cur := daily[ds[i - 1]], daily[ds[i]];
    if prev <= 0.0 then None
    else
      var change := ChangePercent(prev, cur);
      if Abs(change) >= MediumChange then
        Some(Spike(ds[i - 1], ds[i], Round2(prev), Round2(cur), Round2(change), SeverityOf(change)))
      else None
  }

  /** The spikes of the transitions into days `1 .. n - 1`, in day order. */
  function SpikesUpTo(ds: seq<string>, daily: map<string, real>, n: nat): seq<Spike>
    requires Covers(ds, daily) && n <= |ds|
  {
    if n <= 1 then []
    else
      var earlier := SpikesUpTo(ds, daily, n - 1);
      match TransitionSpike(ds, daily, n - 1)
      case None => earlier
      case Some(s) => earlier + [s]
  }

  /** The spikes of all transitions of `ds`. */
  function SpikesOf(ds: seq<string>, daily: map<string, real>): seq<Spike>
    requires Covers(ds, daily)
  {
    SpikesUpTo(ds, daily, |ds|)
  }

  /** The spike-detection loop over consecutive sorted days. */
  method DetectSpikes(ds: seq<string>, daily: map<string, real>) returns (spikes: seq<Spike>)
    requires Covers(ds, daily)
    ensures spikes == SpikesOf(ds, daily)
  {
    spikes := [];
    if |ds| < 2 {
      return;
    }
    for i := 1 to |ds|
      invariant spikes == SpikesUpTo(ds, daily, i)
    {
      var prevVal, curVal := daily[ds[i - 1]], daily[ds[i]];
      if prevVal > 0.0 {
        var changePct := ((curVal - prevVal) / prevVal) * 100.0;
        var severity := Info;
        if Abs(changePct) >= CriticalChange {
          severity := Critical;
        } else if Abs(changePct) >= HighChange {
          severity := High;
        } else if Abs(changePct) >= MediumChange {
          severity := Medium;
        }
        if Abs(changePct) >= MediumChange {
          spikes := spikes + [Spike(ds[i - 1], ds[i], Round2(prevVal), Round2(curVal), Round2(changePct), severity)];
        }
      }
    }
  }

  // ---------- What a recorded spike says ----------

  /** The reported (rounded) move of a spike is at least the lower bound of its band. */
  predicate GradedByChange(s: Spike)
  {
    && Abs(s.changePercent) >= MediumChange
    && s.severity != Info
    && (s.severity == Critical ==> Abs(s.changePercent) >= CriticalChange)
    && (s.severity == High ==> Abs(s.changePercent) >= HighChange)
  }

  /**
   * A transition is recorded exactly when the previous day's total is
   * positive and the day's total moved by at least 20 percent of it; the
   * record names the two days, reports a rounded move of at least 20
   * percent whose sign is the direction of the move, and is never graded
   * "info".
   */
  lemma TransitionSpikeMeaning(ds: seq<string>, daily: map<string, real>, i: nat)
    requires Covers(ds, daily) && 0 < i < |ds|
    ensures TransitionSpike(ds, daily, i).Some?
            <==> daily[ds[i - 1]] > 0.0 && Abs(ChangePercent(daily[ds[i - 1]], daily[ds[i]])) >= MediumChange
    ensures TransitionSpike(ds, daily, i).Some? ==>
              var s := TransitionSpike(ds, daily, i).value;
              && s.fromDate == ds[i - 1] && s.toDate == ds[i]
              && Abs(s.changePercent) >= MediumChange
              && (s.changePercent > 0.0 <==> daily[ds[i]] > daily[ds[i - 1]])
              && s.severity != Info
              && s.severity == SeverityOf(ChangePercent(daily[ds[i - 1]], daily[ds[i]]))
              && (s.severity == Critical ==> Abs(s.changePercent) >= CriticalChange)
              && (s.severity == High ==> Abs(s.changePercent) >= HighChange)
  {
    var prev, cur := daily[ds[i - 1]], daily[ds[i]];
    if prev > 0.0 && Abs(ChangePercent(prev, cur)) >= MediumChange {
      RoundedChange(prev, cur);
    }
  }

  /**
   * A move of at least 20 percent keeps, once rounded to cents, its
   * direction and the lower bound of its severity band.
   */
  lemma RoundedChange(prev: real, cur: real)
    requires prev > 0.0 && Abs(ChangePercent(prev, cur)) >= MediumChange
    ensures var change := ChangePercent(prev, cur);
            && Abs(Round2(change)) >= MediumChange
            && (Round2(change) > 0.0 <==> cur > prev)
            && (SeverityOf(change) == Critical ==> Abs(Round2(change)) >= CriticalChange)
            && (SeverityOf(change) == High ==> Abs(Round2(change)) >= HighChange)
  {
    ChangeSign(prev, cur);
    RoundedBand(ChangePercent(prev, cur));
  }

  /** The change from a positive total is positive exactly when the total rose. */
  lemma ChangeSign(prev: real, cur: real)
    requires prev > 0.0
    ensures ChangePercent(prev, cur) > 0.0 <==> cur > prev
  {
    assert ChangePercent(prev, cur) == (cur - prev) * (100.0 / prev);
  }

  /** A change of at least 20 percent keeps its sign and the lower bound of its band when rounded to cents. */
  lemma RoundedBand(change: real)
    requires Abs(change) >= MediumChange
    ensures Abs(Round2(change)) >= MediumChange
    ensures Round2(change) > 0.0 <==> change > 0.0
    ensures SeverityOf(change) == Critical ==> Abs(Round2(change)) >= CriticalChange
    ensures SeverityOf(change) == High ==> Abs(Round2(change)) >= HighChange
  {
    if Abs(change) >= CriticalChange {
      RoundKeepsMagnitude(change, 7000);
    } else if Abs(change) >= HighChange {
      RoundKeepsMagnitude(change, 4000);
    } else {
      RoundKeepsMagnitude(change, 2000);
    }
  }

  /** Spikes come from transitions, in order: each list entry is the spike of some transition below `n`. */
  lemma {:induction false} SpikesSound(ds: seq<string>, daily: map<string, real>, n: nat, k: nat)
    requires Covers(ds, daily) && n <= |ds| && k < |SpikesUpTo(ds, daily, n)|
    ensures exists i :: 0 < i < n && TransitionSpike(ds, daily, i) == Some(SpikesUpTo(ds, daily, n)[k])
    decreases n
  {
    var earlier := SpikesUpTo(ds, daily, n - 1);
    if k < |earlier| {
      SpikesSound(ds, daily, n - 1, k);
    } else {
      assert TransitionSpike(ds, daily, n - 1) == Some(SpikesUpTo(ds, daily, n)[k]);
    }
  }

  /** Every transition that produces a spike is in the list. */
  lemma {:induction false} SpikesComplete(ds: seq<string>, daily: map<string, real>, n: nat, i: nat)
    requires Covers(ds, daily) && n <= |ds| && 0 < i < n
    requires TransitionSpike(ds, daily, i).Some?
    ensures TransitionSpike(ds, daily, i).value in SpikesUpTo(ds, daily, n)
    decreases n
  {
    if i < n - 1 {
      SpikesComplete(ds, daily, n - 1, i);
    }
  }

  /** At most one spike per transition. */
  lemma {:induction false} SpikesCount(ds: seq<string>, daily: map<string, real>, n: nat)
    requires Covers(ds, daily) && n <= |ds|
    ensures |SpikesUpTo(ds, daily, n)| <= if n == 0 then 0 else n - 1
    decreases n
  {
    if n > 1 {
      SpikesCount(ds, daily, n - 1);
    }
  }

  /** The spikes of a sorted day list are listed in strictly increasing order of their days. */
  lemma {:induction false} SpikesChronological(ds: seq<string>, daily: map<string, real>, n: nat)
    requires Covers(ds, daily) && StrictlySorted(ds) && n <= |ds|
    ensures forall p :: 0 <= p < |SpikesUpTo(ds, daily, n)| ==>
              LexLess(SpikesUpTo(ds, daily, n)[p].fromDate, SpikesUpTo(ds, daily, n)[p].toDate)
    ensures forall p, q :: 0 <= p < q < |SpikesUpTo(ds, daily, n)| ==>
              LexLess(SpikesUpTo(ds, daily, n)[p].toDate, SpikesUpTo(ds, daily, n)[q].toDate)
    decreases n
  {
    if n > 1 {
      SpikesChronological(ds, daily, n - 1);
      var earlier := SpikesUpTo(ds, daily, n - 1);
      forall p | 0 <= p < |earlier|
        ensures exists i :: 0 < i < n - 1 && earlier[p].toDate == ds[i]
      {
        SpikesSound(ds, daily, n - 1, p);
        var i :| 0 < i < n - 1 && TransitionSpike(ds, daily, i) == Some(earlier[p]);
        TransitionSpikeMeaning(ds, daily, i);
      }
      TransitionSpikeMeaning(ds, daily, n - 1);
    }
  }

  /**
   * Every recorded spike reports a move of at least 20 percent and is graded
   * above "info"; a "critical" one reports at least 70 percent and a "high"
   * one at least 40.
   */
  lemma SpikesSignificant(ds: seq<string>, daily: map<string, real>, n: nat)
    requires Covers(ds, daily) && n <= |ds|
    ensures forall s :: s in SpikesUpTo(ds, daily, n) ==> GradedByChange(s)
  {
    forall s | s in SpikesUpTo(ds, daily, n)
      ensures GradedByChange(s)
    {
      var k :| 0 <= k < |SpikesUpTo(ds, daily, n)| && SpikesUpTo(ds, daily, n)[k] == s;
      SpikesSound(ds, daily, n, k);
      var i :| 0 < i < n && TransitionSpike(ds, daily, i) == Some(s);
      TransitionSpikeMeaning(ds, daily, i);
    }
  }
}
