/** The customers of the repository's unit tests, as concrete checks. */
module Scenarios {
  import opened Options
  import opened Rounding
  import opened Orders
  import opened Grouping
  import opened Estimation
  import opened Selection
  import opened Prediction

  /** Day number of a Gregorian calendar date, counted from 1970-01-01;
      used only to write the scenarios' dates. */
  function DayNumber(year: int, month: int, day: int): (n: Date)
    requires year >= 1 && 1 <= month <= 12 && 1 <= day <= 31
  {
    var y := if month <= 2 then year - 1 else year;
    var era := y / 400;
    var yoe := y - era * 400;
    var mp := if month > 2 then month - 3 else month + 9;
    var doy := (153 * mp + 2) / 5 + day - 1;
    var doe := yoe * 365 + yoe / 4 - yoe / 100 + doy;
    era * 146097 + doe - 719468
  }

  /** The test catalogue: two Biofinity packs and a pack of dailies. */
  function Goods(): (c: Catalog)
  {
    map[1 := 180, 2 := 90, 3 := 30]
  }

  /** The empty-orders test: no history, no prediction. */
  lemma EmptyOrders()
    ensures Predict(Goods(), []) == None
  {
  }

  /** A history whose only date carries no order line opens no group, so it
      yields no prediction either. */
  lemma DateWithoutOrders()
    ensures Predict(Goods(), [DayOrders(16526, [])]) == None
  {
    var h := [DayOrders(16526, [])];
    NoPredictionIffNoOrders(Goods(), h);
    assert h[..0] == [];
    assert LineCount(h) == 0;
  }

  /** The dates of the scenarios, one at a time. */
  lemma Apr1st2015()
    ensures DayNumber(2015, 4, 1) == 16526
  {
  }

  lemma Mar26th2016()
    ensures DayNumber(2016, 3, 26) == 16886
  {
  }

  lemma Oct1st2014()
    ensures DayNumber(2014, 10, 1) == 16344
  {
  }

  lemma Jan1st2015()
    ensures DayNumber(2015, 1, 1) == 16436
  {
  }

  lemma Apr15th2015()
    ensures DayNumber(2015, 4, 15) == 16540
  {
  }

  lemma Jun3rd2015()
    ensures DayNumber(2015, 6, 3) == 16589
  {
  }

  lemma Aug1st2014()
    ensures DayNumber(2014, 8, 1) == 16283
  {
  }

  lemma Oct30th2014()
    ensures DayNumber(2014, 10, 30) == 16373
  {
  }

  /** The calendar dates of the scenarios as day numbers. */
  lemma ScenarioDates()
    ensures DayNumber(2015, 4, 1) == 16526 && DayNumber(2016, 3, 26) == 16886
    ensures DayNumber(2014, 10, 1) == 16344 && DayNumber(2015, 1, 1) == 16436
    ensures DayNumber(2015, 4, 15) == 16540 && DayNumber(2015, 6, 3) == 16589
    ensures DayNumber(2014, 8, 1) == 16283 && DayNumber(2014, 10, 30) == 16373
  {
    Apr1st2015();
    Mar26th2016();
    Oct1st2014();
    Jan1st2015();
    Apr15th2015();
    Jun3rd2015();
    Aug1st2014();
    Oct30th2014();
  }

  /** A group of a single purchase lasts its own units. */
  lemma SinglePurchaseGroup(e: Entry)
    ensures MinDate([e]) == e.date && MaxDate([e]) == e.date
    ensures SumUnits([e]) == e.units
    ensures LastAmount([e]) == e.units && EstimatedDays([e]) == e.units
  {
    assert SumUnits([e]) == SumUnits([e][..0]) + e.units;
    assert [e][..0] == [];
  }

  function Customer1(): (h: History)
  {
    [DayOrders(16526, [OrderLine(1, 2, "-2.00"), OrderLine(1, 2, "-3.00")])]
  }

  lemma Customer1Groups()
    ensures Flatten(Goods(), Customer1()) == [Tagged("-2.00", Entry(16526, 360)), Tagged("-3.00", Entry(16526, 360))]
  {
    var c, h := Goods(), Customer1();
    var lines := h[0].lines;
    assert c[1] == 180;
    assert lines[..1] == [OrderLine(1, 2, "-2.00")];
    assert lines[..1][..0] == [];
    assert TagLines(c, 16526, lines[..1]) == [Tagged("-2.00", Entry(16526, 360))];
    assert TagLines(c, 16526, lines) == [Tagged("-2.00", Entry(16526, 360)), Tagged("-3.00", Entry(16526, 360))];
    assert h[..0] == [];
    assert Flatten(c, h) == Flatten(c, []) + TagLines(c, 16526, lines);
  }

  lemma Customer1Estimates()
    ensures var ts := [Tagged("-2.00", Entry(16526, 360)), Tagged("-3.00", Entry(16526, 360))];
      Powers(ts) == ["-2.00", "-3.00"] && Estimates(ts) == [16886, 16886]
  {
    assert "-2.00" != "-3.00";
    TwoSingleGroups(Tagged("-2.00", Entry(16526, 360)), Tagged("-3.00", Entry(16526, 360)));
  }

  /** Customer 1 of the tests: one date, two powers, so no halving; each
      group lasts 2 * 180 days and the prediction is 2016-03-26. */
  lemma Customer1Prediction()
    ensures Predict(Goods(), Customer1()) == Some(DayNumber(2016, 3, 26))
  {
    ScenarioDates();
    Customer1Groups();
    Customer1Estimates();
  }

  /** The tagged purchases of a date with two order lines. */
  lemma TwoLines(c: Catalog, date: Date, l1: OrderLine, l2: OrderLine)
    requires LinesOk(c, [l1, l2])
    ensures TagLines(c, date, [l1, l2]) ==
      [Tagged(l1.power, Entry(date, Units(c, l1))), Tagged(l2.power, Entry(date, Units(c, l2)))]
  {
    assert [l1, l2][..1] == [l1] && [l1][..0] == [];
    assert TagLines(c, date, [l1]) == [Tagged(l1.power, Entry(date, Units(c, l1)))];
  }

  /** Two purchases of distinct powers open two groups of one each. */
  lemma TwoPowers(t1: Tagged, t2: Tagged)
    requires t1.power != t2.power
    ensures Powers([t1, t2]) == [t1.power, t2.power]
    ensures Select([t1, t2], t1.power) == [t1.entry] && Select([t1, t2], t2.power) == [t2.entry]
  {
    assert [t1, t2][..1] == [t1] && [t1][..0] == [];
    assert Powers([t1]) == [t1.power];
    assert Select([t1], t1.power) == [t1.entry] && Select([t1], t2.power) == [];
  }

  /** A group of one purchase among two groups lasts its own units. */
  lemma SingleGroupEstimate(e: Entry)
    ensures GroupEstimate([e], 2) == e.date + e.units
  {
    SinglePurchaseGroup(e);
  }

  /** With two groups, the estimates are those of the two powers in order. */
  lemma TwoEstimates(ts: seq<Tagged>, p: string, q: string)
    requires Powers(ts) == [p, q]
    ensures Estimates(ts) == [EstimateFor(ts, p), EstimateFor(ts, q)]
  {
  }

  /** Two purchases of distinct powers: each group lasts its own units,
      without halving. */
  lemma TwoSingleGroups(t1: Tagged, t2: Tagged)
    requires t1.power != t2.power
    ensures Powers([t1, t2]) == [t1.power, t2.power]
    ensures Estimates([t1, t2]) == [t1.entry.date + t1.entry.units, t2.entry.date + t2.entry.units]
  {
    var ts := [t1, t2];
    TwoPowers(t1, t2);
    TwoEstimates(ts, t1.power, t2.power);
    assert EstimateFor(ts, t1.power) == t1.entry.date + t1.entry.units by {
      SingleGroupEstimate(t1.entry);
    }
    assert EstimateFor(ts, t2.power) == t2.entry.date + t2.entry.units by {
      SingleGroupEstimate(t2.entry);
    }
  }

  function Customer2(): (h: History)
  {
    [ DayOrders(16344, [OrderLine(3, 2, "-1.50"), OrderLine(3, 2, "-3.50")]),
      DayOrders(16436, [OrderLine(3, 2, "-1.50"), OrderLine(3, 2, "-3.50")]),
      DayOrders(16540, [OrderLine(3, 1, "-1.50"), OrderLine(3, 1, "-3.50")]) ]
  }

  /** The purchases of one date of customer 2: one of each power. */
  function Customer2Day(date: Date, units: int): (day: seq<Tagged>)
  {
    [Tagged("-1.50", Entry(date, units)), Tagged("-3.50", Entry(date, units))]
  }

  lemma Customer2Flatten()
    ensures Flatten(Goods(), Customer2()) ==
      Customer2Day(16344, 60) + Customer2Day(16436, 60) + Customer2Day(16540, 30)
  {
    var c, h := Goods(), Customer2();
    assert c[3] == 30;
    TwoLines(c, 16344, OrderLine(3, 2, "-1.50"), OrderLine(3, 2, "-3.50"));
    TwoLines(c, 16436, OrderLine(3, 2, "-1.50"), OrderLine(3, 2, "-3.50"));
    TwoLines(c, 16540, OrderLine(3, 1, "-1.50"), OrderLine(3, 1, "-3.50"));
    assert h[..2][..1] == h[..1] && h[..1][..0] == [];
    assert h[..2] == h[..1] + [h[1]];
    assert Flatten(c, h[..1]) == Customer2Day(16344, 60);
    assert Flatten(c, h[..2]) == Customer2Day(16344, 60) + Customer2Day(16436, 60);
  }

  /** The scan of customer 2's group: first and last dates, last amount
      and total. */
  lemma Customer2Scan(e1: Entry, e2: Entry, e3: Entry)
    requires e1 == Entry(16344, 60) && e2 == Entry(16436, 60) && e3 == Entry(16540, 30)
    ensures MinDate([e1, e2, e3]) == 16344 && MaxDate([e1, e2, e3]) == 16540
    ensures LastAmount([e1, e2, e3]) == 30 && SumUnits([e1, e2, e3]) == 150
  {
    assert [e1, e2][..1] == [e1] && [e1][..0] == [] && [e1, e2, e3][..2] == [e1, e2];
    assert [e1] + [e2] == [e1, e2] && [e1, e2] + [e3] == [e1, e2, e3];
    SinglePurchaseGroup(e1);
    LastAmountStep([e1], e2);
    LastAmountStep([e1, e2], e3);
    assert SumUnits([e1, e2]) == 120;
  }

  /** Each power of customer 2 has a group of three purchases ending in 30
      units: 120 prior units over 196 days, so 49 more days. */
  lemma Customer2Group()
    ensures GroupEstimate([Entry(16344, 60), Entry(16436, 60), Entry(16540, 30)], 2) == 16589
  {
    Customer2Scan(Entry(16344, 60), Entry(16436, 60), Entry(16540, 30));
    assert RoundDiv(30 * 196, 120) == 49;
  }

  /** Customer 2's purchases open two groups. */
  lemma Customer2Powers()
    ensures Powers(Customer2Day(16344, 60) + Customer2Day(16436, 60) + Customer2Day(16540, 30)) == ["-1.50", "-3.50"]
  {
    var d1, d2, d3 := Customer2Day(16344, 60), Customer2Day(16436, 60), Customer2Day(16540, 30);
    assert "-1.50" != "-3.50";
    TwoPowers(d1[0], d1[1]);
    PowersAppendSeen(d1, d2);
    PowersAppendSeen(d1 + d2, d3);
  }

  /** Both groups of customer 2 hold the same three purchases. */
  lemma Customer2Select(p: string)
    requires p == "-1.50" || p == "-3.50"
    ensures Select(Customer2Day(16344, 60) + Customer2Day(16436, 60) + Customer2Day(16540, 30), p)
         == [Entry(16344, 60), Entry(16436, 60), Entry(16540, 30)]
  {
    var d1, d2, d3 := Customer2Day(16344, 60), Customer2Day(16436, 60), Customer2Day(16540, 30);
    assert "-1.50" != "-3.50";
    TwoPowers(d1[0], d1[1]);
    TwoPowers(d2[0], d2[1]);
    TwoPowers(d3[0], d3[1]);
    SelectAppend(d1, d2, p);
    SelectAppend(d1 + d2, d3, p);
  }

  lemma Customer2Estimates()
    ensures var ts := Customer2Day(16344, 60) + Customer2Day(16436, 60) + Customer2Day(16540, 30);
      Powers(ts) == ["-1.50", "-3.50"] && Estimates(ts) == [16589, 16589]
  {
    var ts := Customer2Day(16344, 60) + Customer2Day(16436, 60) + Customer2Day(16540, 30);
    Customer2Powers();
    Customer2Select("-1.50");
    Customer2Select("-3.50");
    var es := [Entry(16344, 60), Entry(16436, 60), Entry(16540, 30)];
    Customer2Group();
    TwoEstimates(ts, "-1.50", "-3.50");
  }

  /** Customer 2 of the tests: averaged rate, two powers, no halving; the
      prediction is 49 days after 2015-04-15, that is 2015-06-03. */
  lemma Customer2Prediction()
    ensures Predict(Goods(), Customer2()) == Some(DayNumber(2015, 6, 3))
  {
    ScenarioDates();
    Customer2Flatten();
    Customer2Estimates();
  }

  function Customer3(): (h: History)
  {
    [DayOrders(16283, [OrderLine(2, 2, "+0.50")])]
  }

  /** The purchases of a date with one order line. */
  lemma OneLine(c: Catalog, date: Date, l: OrderLine)
    requires LinesOk(c, [l])
    ensures TagLines(c, date, [l]) == [Tagged(l.power, Entry(date, Units(c, l)))]
  {
    assert [l][..0] == [];
  }

  /** A single purchase opens a single group. */
  lemma OnePower(t: Tagged)
    ensures Powers([t]) == [t.power] && Select([t], t.power) == [t.entry]
  {
    assert [t][..0] == [];
  }

  /** Customer 3 of the tests: a single power, so halving; 2 * 90 days
      halved is 90 days after 2014-08-01, that is 2014-10-30. */
  lemma Customer3Prediction()
    ensures Predict(Goods(), Customer3()) == Some(DayNumber(2014, 10, 30))
  {
    ScenarioDates();
    var c, h := Goods(), Customer3();
    assert c[2] == 90;
    OneLine(c, 16283, h[0].lines[0]);
    assert h[..0] == [];
    var t := Tagged("+0.50", Entry(16283, 180));
    assert Flatten(c, h) == [t];
    OnePower(t);
    SinglePurchaseGroup(t.entry);
    assert RoundDiv(180, 2) == 90;
    assert Estimates([t])[0] == EstimateFor([t], "+0.50") == 16373;
  }

  /** Two lines of the same power on one date: 2 and then 1 Biofinity-6. */
  function TieBreakCustomer(): (h: History)
  {
    [DayOrders(16526, [OrderLine(1, 2, "-1.00"), OrderLine(1, 1, "-1.00")])]
  }

  /** The tie on the latest date keeps the first line's 360 units, not the
      second line's 180: with no elapsed days the estimate is 360 days,
      halved to 180 for the single group. Keeping the later line would give
      90 days instead. */
  lemma TieBreakPrediction()
    ensures Predict(Goods(), TieBreakCustomer()) == Some(16526 + 180)
  {
    var t1, t2 := Tagged("-1.00", Entry(16526, 360)), Tagged("-1.00", Entry(16526, 180));
    TieBreakFlatten();
    TieBreakGroups();
    TieBreakGroup();
    assert Estimates([t1, t2])[0] == EstimateFor([t1, t2], "-1.00") == 16706;
  }

  lemma TieBreakFlatten()
    ensures Flatten(Goods(), TieBreakCustomer()) == [Tagged("-1.00", Entry(16526, 360)), Tagged("-1.00", Entry(16526, 180))]
  {
    var c, h := Goods(), TieBreakCustomer();
    assert c[1] == 180;
    TwoLines(c, 16526, h[0].lines[0], h[0].lines[1]);
    assert h[..0] == [];
  }

  lemma TieBreakGroups()
    ensures var ts := [Tagged("-1.00", Entry(16526, 360)), Tagged("-1.00", Entry(16526, 180))];
      Powers(ts) == ["-1.00"] && Select(ts, "-1.00") == [Entry(16526, 360), Entry(16526, 180)]
  {
    var t1, t2 := Tagged("-1.00", Entry(16526, 360)), Tagged("-1.00", Entry(16526, 180));
    OnePower(t1);
    OnePower(t2);
    assert [t1] + [t2] == [t1, t2];
    PowersAppendSeen([t1], [t2]);
    SelectAppend([t1], [t2], "-1.00");
  }

  /** The single group: the first 360 units are the last amount, there are
      no elapsed days, so 360 days, halved to 180. */
  lemma TieBreakGroup()
    ensures GroupEstimate([Entry(16526, 360), Entry(16526, 180)], 1) == 16526 + 180
  {
    var e1, e2 := Entry(16526, 360), Entry(16526, 180);
    var es := [e1, e2];
    SinglePurchaseGroup(e1);
    assert [e1] + [e2] == es;
    LastAmountStep([e1], e2);
    assert es[..1] == [e1];
    assert LastAmount(es) == 360 && SumUnits(es) == 540 && MaxDate(es) == MinDate(es);
    assert EstimatedDays(es) == 360;
    assert RoundDiv(360, 2) == 180;
  }

  /** Two powers on one date whose groups run out 180 and 90 days later. */
  function TwoProductCustomer(): (h: History)
  {
    [DayOrders(16526, [OrderLine(1, 1, "-1.00"), OrderLine(2, 1, "+1.00")])]
  }

  /** The selection keeps the later estimate, 180 days, not the nearer 90. */
  lemma LatestNotNearest()
    ensures Predict(Goods(), TwoProductCustomer()) == Some(16526 + 180)
  {
    TwoProductFlatten();
    TwoProductEstimates();
    LatestUnique([16706, 16616], 16706);
  }

  lemma TwoProductFlatten()
    ensures Flatten(Goods(), TwoProductCustomer()) == [Tagged("-1.00", Entry(16526, 180)), Tagged("+1.00", Entry(16526, 90))]
  {
    var c, h := Goods(), TwoProductCustomer();
    assert c[1] == 180 && c[2] == 90;
    TwoLines(c, 16526, h[0].lines[0], h[0].lines[1]);
    assert h[..0] == [];
  }

  lemma TwoProductEstimates()
    ensures var ts := [Tagged("-1.00", Entry(16526, 180)), Tagged("+1.00", Entry(16526, 90))];
      Powers(ts) != [] && Estimates(ts) == [16706, 16616]
  {
    assert "-1.00" != "+1.00";
    TwoSingleGroups(Tagged("-1.00", Entry(16526, 180)), Tagged("+1.00", Entry(16526, 90)));
  }
}
