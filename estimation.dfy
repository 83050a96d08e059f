/** Step two of the prediction: the estimate of one lens-power group. */
module Estimation {
  import opened Rounding
  import opened Orders
  import opened Options

  /** Earliest purchase date of a group. */
  function MinDate(es: seq<Entry>): (d: Date)
    requires es != []
    ensures exists k :: 0 <= k < |es| && es[k].date == d
    ensures forall k :: 0 <= k < |es| ==> d <= es[k].date
  {
    if |es| == 1 then es[0].date
    else
      var d0 := MinDate(es[..|es| - 1]);
      var x := es[|es| - 1];
      assert forall k :: 0 <= k < |es| - 1 ==> es[..|es| - 1][k] == es[k];
      if x.date < d0 then x.date else d0
  }

  /** Latest purchase date of a group. */
  function MaxDate(es: seq<Entry>): (d: Date)
    requires es != []
    ensures exists k :: 0 <= k < |es| && es[k].date == d
    ensures forall k :: 0 <= k < |es| ==> es[k].date <= d
  {
    if |es| == 1 then es[0].date
    else
      var d0 := MaxDate(es[..|es| - 1]);
      var x := es[|es| - 1];
      assert forall k :: 0 <= k < |es| - 1 ==> es[..|es| - 1][k] == es[k];
      if x.date > d0 then x.date else d0
  }

  /** Index of the first purchase on the given date, or |es| if none. */
  function FirstOn(es: seq<Entry>, date: Date): (k: nat)
    ensures k <= |es|
    ensures k < |es| ==> es[k].date == date
    ensures forall j :: 0 <= j < k ==> es[j].date != date
  {
    if es == [] then 0
    else if es[0].date == date then 0
    else 1 + FirstOn(es[1..], date)
  }

  /** Units bought on the last purchase date: those of the FIRST purchase,
      in scan order, on that date. */
  function LastAmount(es: seq<Entry>): (amount: int)
    requires es != []
  {
    var k := FirstOn(es, MaxDate(es));
    es[k].units
  }

  /** Days that the last purchase is expected to last: the last amount
      divided by the average daily consumption, prior units over elapsed
      days, rounded. With no elapsed days or no prior units the rate is one
      unit a day. */
  function EstimatedDays(es: seq<Entry>): (n: int)
    requires es != []
  {
    var days := MaxDate(es) - MinDate(es);
    var amount := LastAmount(es);
    var prior := SumUnits(es) - amount;
    if days > 0 && prior > 0 then RoundDiv(amount * days, prior) else amount
  }

  /** The group's estimated run-out date: the last purchase date plus the
      estimated days, halved (rounded) when the customer has only one
      lens-power group in all. */
  function GroupEstimate(es: seq<Entry>, groupCount: nat): (est: Date)
    requires es != []
  {
    var days := EstimatedDays(es);
    MaxDate(es) + (if groupCount == 1 then RoundDiv(days, 2) else days)
  }

  /** The last amount is that of the first purchase that carries the latest
      date: every purchase before it is strictly earlier. */
  lemma LastAmountIsFirstAtLatest(es: seq<Entry>)
    requires es != []
    ensures exists k :: (0 <= k < |es| && es[k].date == MaxDate(es) && es[k].units == LastAmount(es) &&
                         forall j :: 0 <= j < k ==> es[j].date < MaxDate(es))
  {
    var k := FirstOn(es, MaxDate(es));
    assert k < |es|;
  }

  /** Adding a purchase moves the last amount only when it is strictly later
      than every purchase so far. */
  lemma LastAmountStep(es: seq<Entry>, x: Entry)
    requires es != []
    ensures MinDate(es + [x]) == if x.date < MinDate(es) then x.date else MinDate(es)
    ensures MaxDate(es + [x]) == if x.date > MaxDate(es) then x.date else MaxDate(es)
    ensures LastAmount(es + [x]) == if x.date > MaxDate(es) then x.units else LastAmount(es)
  {
    var s := es + [x];
    assert s[..|s| - 1] == es;
    var m := MaxDate(s);
    var k := FirstOn(s, m);
    if x.date > MaxDate(es) {
      assert forall j :: 0 <= j < |es| ==> s[j].date < m;
      assert k == |es|;
    } else {
      var k0 := FirstOn(es, m);
      assert k0 < |es|;
      assert s[k0] == es[k0];
      assert !(k0 < k);
      assert !(k < k0);
    }
  }

  /** Elapsed days of a group are never negative. */
  lemma ElapsedNonNegative(es: seq<Entry>)
    requires es != []
    ensures MaxDate(es) - MinDate(es) >= 0
  {
    assert es[0].date <= MaxDate(es);
    assert MinDate(es) <= es[0].date;
  }

  /** All purchases of a group bought a non-negative number of units. */
  predicate NonNegative(es: seq<Entry>)
  {
    forall e :: e in es ==> e.units >= 0
  }

  /** Without elapsed days or without prior units the rate falls back to one
      unit a day, so the estimate is the last amount itself. */
  lemma FallbackRate(es: seq<Entry>)
    requires es != []
    requires MaxDate(es) == MinDate(es) || SumUnits(es) - LastAmount(es) <= 0
    ensures EstimatedDays(es) == LastAmount(es)
  {
    ElapsedNonNegative(es);
  }

  /** Otherwise the estimate is the last amount over the average rate, prior
      units / elapsed days, to the nearest day (a half rounds up). */
  lemma AveragedRate(es: seq<Entry>)
    requires es != [] && NonNegative(es)
    requires MaxDate(es) > MinDate(es) && SumUnits(es) - LastAmount(es) > 0
    ensures var days, prior := MaxDate(es) - MinDate(es), SumUnits(es) - LastAmount(es);
      -prior <= 2 * (LastAmount(es) * days) - 2 * EstimatedDays(es) * prior < prior
  {
    LastAmountNonNegative(es);
    RateRounding(LastAmount(es), MaxDate(es) - MinDate(es), SumUnits(es) - LastAmount(es));
  }

  lemma RateRounding(amount: int, days: int, prior: int)
    requires amount >= 0 && days > 0 && prior > 0
    ensures -prior <= 2 * (amount * days) - 2 * RoundDiv(amount * days, prior) * prior < prior
  {
    MulNonNegative(amount, days);
  }

  /** The estimated days of a group with non-negative purchases are not
      negative. */
  lemma EstimatedDaysNonNegative(es: seq<Entry>)
    requires es != [] && NonNegative(es)
    ensures EstimatedDays(es) >= 0
  {
    var amount, days, prior := LastAmount(es), MaxDate(es) - MinDate(es), SumUnits(es) - LastAmount(es);
    LastAmountNonNegative(es);
    ElapsedNonNegative(es);
    MulNonNegative(amount, days);
    if days > 0 && prior > 0 {
      assert EstimatedDays(es) == RoundDiv(amount * days, prior);
    } else {
      assert EstimatedDays(es) == amount;
    }
  }

  lemma LastAmountNonNegative(es: seq<Entry>)
    requires es != [] && NonNegative(es)
    ensures LastAmount(es) >= 0
  {
    var k := FirstOn(es, MaxDate(es));
    assert es[k] in es;
  }

  lemma MulNonNegative(a: int, b: int)
    requires a >= 0 && b >= 0
    ensures a * b >= 0
  {
  }

  /** Halving happens exactly for a customer with a single lens-power group:
      then the group's days are half the estimate, rounded up; otherwise
      they are the estimate unchanged. */
  lemma HalvingIffSingleGroup(es: seq<Entry>, groupCount: nat)
    requires es != [] && NonNegative(es)
    ensures groupCount == 1 ==> 0 <= 2 * (GroupEstimate(es, groupCount) - MaxDate(es)) - EstimatedDays(es) <= 1
    ensures groupCount != 1 ==> GroupEstimate(es, groupCount) - MaxDate(es) == EstimatedDays(es)
  {
    EstimatedDaysNonNegative(es);
  }

  /** A group never runs out before its own last purchase. */
  lemma EstimateNotBeforeLastPurchase(es: seq<Entry>, groupCount: nat)
    requires es != [] && NonNegative(es)
    ensures GroupEstimate(es, groupCount) >= MaxDate(es)
  {
    EstimatedDaysNonNegative(es);
  }

  /** A group of one purchase: its date is first and last, its units are
      the last amount and the total. */
  lemma ScanFirst(es: seq<Entry>)
    requires es != []
    ensures MinDate(es[..1]) == es[0].date && MaxDate(es[..1]) == es[0].date
    ensures LastAmount(es[..1]) == es[0].units && SumUnits(es[..1]) == es[0].units
  {
    assert es[..1][..0] == [];
  }

  /** Extending a prefix of a group by its next purchase. */
  lemma ScanNext(es: seq<Entry>, i: nat)
    requires 0 < i < |es|
    ensures MinDate(es[..i + 1]) == if es[i].date < MinDate(es[..i]) then es[i].date else MinDate(es[..i])
    ensures MaxDate(es[..i + 1]) == if es[i].date > MaxDate(es[..i]) then es[i].date else MaxDate(es[..i])
    ensures LastAmount(es[..i + 1]) == if es[i].date > MaxDate(es[..i]) then es[i].units else LastAmount(es[..i])
    ensures SumUnits(es[..i + 1]) == SumUnits(es[..i]) + es[i].units
  {
    assert es[..i + 1] == es[..i] + [es[i]];
    LastAmountStep(es[..i], es[i]);
  }

  /** The per-group scan of the source: a running minimum and maximum of
      the dates, the units of the purchase that first set the maximum
      (strict comparison), and the running total of units. */
  method ScanGroup(es: seq<Entry>) returns (first: Date, last: Date, lastAmount: int, total: int)
    requires es != []
    ensures first == MinDate(es) && last == MaxDate(es)
    ensures lastAmount == LastAmount(es) && total == SumUnits(es)
  {
    var firstSeen: Option<Date> := None;
    var lastSeen: Option<Date> := None;
    lastAmount, total := 0, 0;
    for i := 0 to |es|
      invariant i == 0 ==> firstSeen == None && lastSeen == None && total == 0
      invariant i > 0 ==> firstSeen == Some(MinDate(es[..i])) && lastSeen == Some(MaxDate(es[..i]))
      invariant i > 0 ==> lastAmount == LastAmount(es[..i]) && total == SumUnits(es[..i])
    {
      var e := es[i];
      if i == 0 {
        ScanFirst(es);
      } else {
        ScanNext(es, i);
      }
      if firstSeen == None || firstSeen.value > e.date {
        firstSeen := Some(e.date);
      }
      if lastSeen == None || lastSeen.value < e.date {
        lastSeen := Some(e.date);
        lastAmount := e.units;
      }
      total := total + e.units;
    }
    assert es[..|es|] == es;
    first, last := firstSeen.value, lastSeen.value;
  }
}
