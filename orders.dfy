/** The inputs of a prediction: the product catalogue and a customer's
    order history, and the per-order units they stand for. */
module Orders {

  /** A date, as a day number (consecutive calendar days differ by one). */
  type Date = int

  /** Product id -> days one unit of the product lasts. */
  type Catalog = map<int, int>

  /** One order line: product id, quantity and lens power. The power is an
      opaque label that is only compared for equality. */
  datatype OrderLine = OrderLine(product: int, quantity: int, power: string)

  /** The order lines placed on one date, in the order they were placed. */
  datatype DayOrders = DayOrders(date: Date, lines: seq<OrderLine>)

  /** A customer's orders, date by date, in the order the caller lists them. */
  type History = seq<DayOrders>

  /** A purchase as a lens-power group sees it: when, and how many days of
      lenses (quantity times the product's duration). */
  datatype Entry = Entry(date: Date, units: int)

  /** A purchase together with the lens power it was bought for. */
  datatype Tagged = Tagged(power: string, entry: Entry)

  /** What the caller must supply: every product ordered is in the
      catalogue, and neither quantities nor durations are negative. */
  predicate LinesOk(catalog: Catalog, lines: seq<OrderLine>)
  {
    forall l :: l in lines ==> l.product in catalog && l.quantity >= 0 && catalog[l.product] >= 0
  }

  predicate HistoryOk(catalog: Catalog, history: History)
  {
    forall day :: day in history ==> LinesOk(catalog, day.lines)
  }

  /** Days of lenses bought by one order line. */
  function Units(catalog: Catalog, line: OrderLine): (u: int)
    requires line.product in catalog && line.quantity >= 0 && catalog[line.product] >= 0
    ensures u >= 0
  {
    line.quantity * catalog[line.product]
  }

  /** The lines of one date as tagged purchases, in order. */
  function TagLines(catalog: Catalog, date: Date, lines: seq<OrderLine>): (tagged: seq<Tagged>)
    requires LinesOk(catalog, lines)
  {
    if lines == [] then []
    else
      var last := lines[|lines| - 1];
      TagLines(catalog, date, lines[..|lines| - 1]) + [Tagged(last.power, Entry(date, Units(catalog, last)))]
  }

  /** Every order line of the history as a tagged purchase, in scan order
      (dates in order, lines of a date in order). */
  function Flatten(catalog: Catalog, history: History): (tagged: seq<Tagged>)
    requires HistoryOk(catalog, history)
  {
    if history == [] then []
    else
      var last := history[|history| - 1];
      Flatten(catalog, history[..|history| - 1]) + TagLines(catalog, last.date, last.lines)
  }

  /** Number of order lines in the history. */
  function LineCount(history: History): (n: nat)
  {
    if history == [] then 0
    else LineCount(history[..|history| - 1]) + |history[|history| - 1].lines|
  }

  /** A date with lines makes the line count positive. */
  lemma {:induction false} LineCountPositive(history: History, i: nat)
    requires i < |history| && history[i].lines != []
    ensures LineCount(history) > 0
  {
    if i < |history| - 1 {
      assert history[..|history| - 1][i] == history[i];
      LineCountPositive(history[..|history| - 1], i);
    }
  }

  /** Days of lenses bought by a list of lines. */
  function LineUnits(catalog: Catalog, lines: seq<OrderLine>): (u: int)
    requires LinesOk(catalog, lines)
  {
    if lines == [] then 0
    else LineUnits(catalog, lines[..|lines| - 1]) + Units(catalog, lines[|lines| - 1])
  }

  /** Days of lenses bought over the whole history: the sum over all order
      lines of quantity times duration. */
  function OrderedUnits(catalog: Catalog, history: History): (u: int)
    requires HistoryOk(catalog, history)
  {
    if history == [] then 0
    else
      var last := history[|history| - 1];
      OrderedUnits(catalog, history[..|history| - 1]) + LineUnits(catalog, last.lines)
  }

  /** Sum of the units of a list of purchases. */
  function SumUnits(es: seq<Entry>): (u: int)
  {
    if es == [] then 0 else SumUnits(es[..|es| - 1]) + es[|es| - 1].units
  }

  lemma {:induction false} SumUnitsAppend(a: seq<Entry>, b: seq<Entry>)
    ensures SumUnits(a + b) == SumUnits(a) + SumUnits(b)
    decreases |b|
  {
    if b != [] {
      assert (a + b)[..|a + b| - 1] == a + b[..|b| - 1];
      SumUnitsAppend(a, b[..|b| - 1]);
    } else {
      assert a + b == a;
    }
  }

  /** Sum of the units of the tagged purchases. */
  function TaggedUnits(ts: seq<Tagged>): (u: int)
  {
    if ts == [] then 0 else TaggedUnits(ts[..|ts| - 1]) + ts[|ts| - 1].entry.units
  }

  lemma {:induction false} TaggedUnitsAppend(a: seq<Tagged>, b: seq<Tagged>)
    ensures TaggedUnits(a + b) == TaggedUnits(a) + TaggedUnits(b)
    decreases |b|
  {
    if b != [] {
      assert (a + b)[..|a + b| - 1] == a + b[..|b| - 1];
      TaggedUnitsAppend(a, b[..|b| - 1]);
    } else {
      assert a + b == a;
    }
  }

  /** One tagged purchase per order line of one date, each carrying that
      date, the line's power and the line's units. */
  lemma {:induction false} TagLinesAt(catalog: Catalog, date: Date, lines: seq<OrderLine>)
    requires LinesOk(catalog, lines)
    ensures |TagLines(catalog, date, lines)| == |lines|
    ensures forall k :: 0 <= k < |lines| ==>
      TagLines(catalog, date, lines)[k] == Tagged(lines[k].power, Entry(date, Units(catalog, lines[k])))
  {
    if lines != [] {
      var init := lines[..|lines| - 1];
      LinesOkPrefix(catalog, lines);
      TagLinesAt(catalog, date, init);
      var front := TagLines(catalog, date, init);
      var last := lines[|lines| - 1];
      var ts := front + [Tagged(last.power, Entry(date, Units(catalog, last)))];
      assert TagLines(catalog, date, lines) == ts;
      forall k | 0 <= k < |lines| - 1
        ensures ts[k] == Tagged(lines[k].power, Entry(date, Units(catalog, lines[k])))
      {
        assert ts[k] == front[k] && init[k] == lines[k];
      }
    }
  }

  /** The tagged purchases of a date carry the units of its lines. */
  lemma {:induction false} TagLinesUnits(catalog: Catalog, date: Date, lines: seq<OrderLine>)
    requires LinesOk(catalog, lines)
    ensures TaggedUnits(TagLines(catalog, date, lines)) == LineUnits(catalog, lines)
  {
    if lines != [] {
      var init := lines[..|lines| - 1];
      LinesOkPrefix(catalog, lines);
      TagLinesUnits(catalog, date, init);
      var front := TagLines(catalog, date, init);
      var last := lines[|lines| - 1];
      var ts := front + [Tagged(last.power, Entry(date, Units(catalog, last)))];
      assert TagLines(catalog, date, lines) == ts;
      assert ts[..|ts| - 1] == front;
    }
  }

  /** Taking one more line of a date appends exactly that line's purchase. */
  lemma TagLinesSnoc(catalog: Catalog, date: Date, lines: seq<OrderLine>, j: nat, done: seq<Tagged>)
    requires LinesOk(catalog, lines) && j < |lines|
    ensures LinesOk(catalog, lines[..j]) && LinesOk(catalog, lines[..j + 1])
    ensures done + TagLines(catalog, date, lines[..j + 1])
         == (done + TagLines(catalog, date, lines[..j])) + [Tagged(lines[j].power, Entry(date, Units(catalog, lines[j])))]
  {
    forall l | l in lines[..j + 1] ensures l in lines { }
    assert lines[..j + 1][..j] == lines[..j];
  }

  lemma LinesOkPrefix(catalog: Catalog, lines: seq<OrderLine>)
    requires LinesOk(catalog, lines) && lines != []
    ensures LinesOk(catalog, lines[..|lines| - 1])
  {
    forall l | l in lines[..|lines| - 1] ensures l in lines { }
  }

  lemma HistoryOkPrefix(catalog: Catalog, history: History)
    requires HistoryOk(catalog, history) && history != []
    ensures HistoryOk(catalog, history[..|history| - 1])
  {
    forall day | day in history[..|history| - 1] ensures day in history { }
  }

  /** Flattening keeps every order line and every unit: one purchase per
      line, and the same total of units as the history. */
  lemma {:induction false} FlattenPreservesOrders(catalog: Catalog, history: History)
    requires HistoryOk(catalog, history)
    ensures |Flatten(catalog, history)| == LineCount(history)
    ensures TaggedUnits(Flatten(catalog, history)) == OrderedUnits(catalog, history)
  {
    if history != [] {
      var init := history[..|history| - 1];
      var last := history[|history| - 1];
      HistoryOkPrefix(catalog, history);
      FlattenPreservesOrders(catalog, init);
      TagLinesAt(catalog, last.date, last.lines);
      TagLinesUnits(catalog, last.date, last.lines);
      TaggedUnitsAppend(Flatten(catalog, init), TagLines(catalog, last.date, last.lines));
    }
  }

  /** Every order line of a date that has lines appears in the flattened
      history with that date. */
  lemma {:induction false} FlattenCoversDay(catalog: Catalog, history: History, i: nat, j: nat)
    requires HistoryOk(catalog, history)
    requires i < |history| && j < |history[i].lines|
    ensures exists k :: (0 <= k < |Flatten(catalog, history)| &&
                         Flatten(catalog, history)[k] ==
                         Tagged(history[i].lines[j].power, Entry(history[i].date, Units(catalog, history[i].lines[j]))))
    decreases |history|
  {
    var init := history[..|history| - 1];
    var last := history[|history| - 1];
    HistoryOkPrefix(catalog, history);
    var front := Flatten(catalog, init);
    var tail := TagLines(catalog, last.date, last.lines);
    assert Flatten(catalog, history) == front + tail;
    if i == |history| - 1 {
      TagLinesAt(catalog, last.date, last.lines);
      assert (front + tail)[|front| + j] == tail[j];
    } else {
      assert init[i] == history[i];
      FlattenCoversDay(catalog, init, i, j);
      var k :| 0 <= k < |front| && front[k] ==
        Tagged(history[i].lines[j].power, Entry(history[i].date, Units(catalog, history[i].lines[j])));
      assert (front + tail)[k] == front[k];
    }
  }

  /** Every flattened purchase bought a non-negative number of units. */
  lemma {:induction false} FlattenNonNegative(catalog: Catalog, history: History)
    requires HistoryOk(catalog, history)
    ensures forall k :: 0 <= k < |Flatten(catalog, history)| ==> Flatten(catalog, history)[k].entry.units >= 0
  {
    if history != [] {
      var init := history[..|history| - 1];
      var last := history[|history| - 1];
      HistoryOkPrefix(catalog, history);
      FlattenNonNegative(catalog, init);
      TagLinesAt(catalog, last.date, last.lines);
      var front: seq<Tagged>, tail: seq<Tagged> := Flatten(catalog, init), TagLines(catalog, last.date, last.lines);
      forall k | 0 <= k < |front + tail| ensures (front + tail)[k].entry.units >= 0 {
        if k >= |front| {
          assert last.lines[k - |front|] in last.lines;
        }
      }
    }
  }
}
