/** The whole prediction: when will the customer run out of lenses? */
module Prediction {
  import opened Options
  import opened Rounding
  import opened Orders
  import opened Grouping
  import opened Estimation
  import opened Selection

  /** The estimate of every lens-power group, in the order the groups were
      opened; the number of groups decides the halving. */
  function Estimates(ts: seq<Tagged>): (ds: seq<Date>)
    ensures |ds| == |Powers(ts)|
  {
    var ps := Powers(ts);
    seq(|ps|, i requires 0 <= i < |ps| => EstimateFor(ts, ps[i]))
  }

  /** The estimate of the group of lens power p. */
  function EstimateFor(ts: seq<Tagged>, p: string): (est: Date)
    requires p in Powers(ts)
  {
    PowersFacts(ts);
    GroupEstimate(Select(ts, p), |Powers(ts)|)
  }

  /** The predicted run-out date: the latest of the group estimates, or no
      prediction when there is no purchase at all. */
  function Predict(catalog: Catalog, history: History): (r: Option<Date>)
    requires HistoryOk(catalog, history)
  {
    var ts := Flatten(catalog, history);
    if Powers(ts) == [] then None else Some(Latest(Estimates(ts)))
  }

  /** The per-group body of the source's estimation loop: scan the group,
      take the day count between its first and last dates, the units bought
      before the last purchase, the rate (one unit a day as fallback), the
      rounded days, the halving for a single group, and the run-out date. */
  method EstimateGroup(es: seq<Entry>, groupCount: nat) returns (estimation: Date)
    requires es != []
    ensures estimation == GroupEstimate(es, groupCount)
  {
    var first, last, lastAmount, total := ScanGroup(es);
    ElapsedNonNegative(es);
    var days := if last >= first then last - first else first - last;
    total := total - lastAmount;
    // lastAmount / (total / days) rounded, that is lastAmount * days / total rounded
    var estimate := if days > 0 && total > 0 then RoundDiv(lastAmount * days, total) else lastAmount;
    if groupCount == 1 {
      estimate := RoundDiv(estimate, 2);
    }
    estimation := last + estimate;
  }

  /** The source's per-group loop: one estimate per lens-power group, in
      the key order of the groups. */
  method EstimateGroups(ghost ts: seq<Tagged>, powers: seq<string>, groups: map<string, seq<Entry>>)
    returns (estimates: seq<Date>)
    requires powers == Powers(ts) && groups == Grouped(ts)
    ensures estimates == Estimates(ts)
  {
    estimates := [];
    ghost var all := Estimates(ts);
    for i := 0 to |powers|
      invariant estimates == all[..i]
    {
      var es := groups[powers[i]];
      EstimatesAt(ts, i, es);
      var estimate := EstimateGroup(es, |powers|);
      assert all[..i + 1] == all[..i] + [all[i]];
      estimates := estimates + [estimate];
    }
    assert all[..|powers|] == all;
  }

  /** The i-th estimate is that of the group of the i-th power, a group
      that is not empty. */
  lemma EstimatesAt(ts: seq<Tagged>, i: nat, es: seq<Entry>)
    requires i < |Powers(ts)| && es == Grouped(ts)[Powers(ts)[i]]
    ensures es == Select(ts, Powers(ts)[i]) != []
    ensures Estimates(ts)[i] == GroupEstimate(es, |Powers(ts)|)
  {
    var p := Powers(ts)[i];
    assert Select(ts, p) != [] by {
      PowersFacts(ts);
    }
    assert Estimates(ts)[i] == EstimateFor(ts, p);
  }

  /** predictDate of the source: group the purchases by lens power, scan
      each group for its first and last dates, last amount and total,
      derive the group's run-out date, and keep the latest of them. */
  method PredictDate(catalog: Catalog, history: History) returns (r: Option<Date>)
    requires HistoryOk(catalog, history)
    ensures r == Predict(catalog, history)
  {
    r := None;
    if |history| > 0 {
      var powers, groups := GroupByPower(catalog, history);
      var estimates := EstimateGroups(Flatten(catalog, history), powers, groups);
      r := SelectLatest(estimates);
    }
  }

  /** There is no prediction exactly when the history holds no order line;
      in particular an empty history yields none. */
  lemma NoPredictionIffNoOrders(catalog: Catalog, history: History)
    requires HistoryOk(catalog, history)
    ensures Predict(catalog, history) == None <==> LineCount(history) == 0
  {
    var ts := Flatten(catalog, history);
    FlattenPreservesOrders(catalog, history);
    PowersFacts(ts);
    if ts != [] {
      assert ts[0].power in Powers(ts);
    }
  }

  /** Grouping keeps every order: the groups hold one entry per order line
      and, together, the units of all order lines. */
  lemma GroupsHoldEveryOrder(catalog: Catalog, history: History)
    requires HistoryOk(catalog, history)
    ensures var ts := Flatten(catalog, history);
      EntryCount(Powers(ts), ts) == LineCount(history) &&
      GroupUnits(Powers(ts), ts) == OrderedUnits(catalog, history)
  {
    var ts := Flatten(catalog, history);
    FlattenPreservesOrders(catalog, history);
    GroupingPreservesPurchases(ts);
  }

  /** The latest estimate is that of some group, and no group's estimate
      is later. */
  lemma LatestEstimateIsMaximal(ts: seq<Tagged>)
    requires Powers(ts) != []
    ensures exists p :: p in Powers(ts) && Latest(Estimates(ts)) == EstimateFor(ts, p)
    ensures forall p :: p in Powers(ts) ==> EstimateFor(ts, p) <= Latest(Estimates(ts))
  {
    var ps := Powers(ts);
    var ds := Estimates(ts);
    var d := Latest(ds);
    var i :| 0 <= i < |ds| && ds[i] == d;
    assert ps[i] in ps;
    forall p | p in ps ensures EstimateFor(ts, p) <= d {
      var j :| 0 <= j < |ps| && ps[j] == p;
      assert ds[j] <= d;
    }
  }

  /** The prediction is the estimate of one of the groups and no group is
      estimated later: the latest, not the nearest, estimate is chosen. */
  lemma PredictionIsLatestEstimate(catalog: Catalog, history: History, d: Date)
    requires HistoryOk(catalog, history)
    requires Predict(catalog, history) == Some(d)
    ensures exists p :: p in Powers(Flatten(catalog, history)) && d == EstimateFor(Flatten(catalog, history), p)
    ensures forall p :: p in Powers(Flatten(catalog, history)) ==> EstimateFor(Flatten(catalog, history), p) <= d
  {
    var ts := Flatten(catalog, history);
    assert Powers(ts) != [] && d == Latest(Estimates(ts));
    LatestEstimateIsMaximal(ts);
  }

  /** The prediction is never earlier than any purchase in the history. */
  lemma PredictionNotBeforeAnyPurchase(catalog: Catalog, history: History, i: nat, j: nat)
    requires HistoryOk(catalog, history)
    requires i < |history| && j < |history[i].lines|
    ensures Predict(catalog, history).Some?
    ensures history[i].date <= Predict(catalog, history).value
  {
    var ts := Flatten(catalog, history);
    var ps := Powers(ts);
    FlattenCoversDay(catalog, history, i, j);
    var k :| 0 <= k < |ts| && ts[k] ==
      Tagged(history[i].lines[j].power, Entry(history[i].date, Units(catalog, history[i].lines[j])));
    PowersFacts(ts);
    assert ts[k].power in ps;
    NoPredictionIffNoOrders(catalog, history);
    assert LineCount(history) > 0 by { LineCountPositive(history, i); }
    var d := Predict(catalog, history).value;
    PredictionIsLatestEstimate(catalog, history, d);
    var p := ts[k].power;
    var es := Select(ts, p);
    SelectContains(ts, k);
    FlattenNonNegative(catalog, history);
    assert NonNegative(es) by {
      forall e | e in es ensures e.units >= 0 {
        SelectSound(ts, p, e);
      }
    }
    EstimateNotBeforeLastPurchase(es, |ps|);
    assert EstimateFor(ts, p) == GroupEstimate(es, |ps|);
    var m :| 0 <= m < |es| && es[m] == ts[k].entry;
    assert es[m].date <= MaxDate(es);
  }
}
