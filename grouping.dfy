/** Step one of the prediction: split the purchases by lens power. */
module Grouping {
  import opened Orders

  /** The distinct lens powers of the purchases, in order of first
      appearance (the key order of the source's per-power array). */
  function Powers(ts: seq<Tagged>): (ps: seq<string>)
  {
    if ts == [] then []
    else
      var ps := Powers(ts[..|ts| - 1]);
      var p := ts[|ts| - 1].power;
      if p in ps then ps else ps + [p]
  }

  /** The purchases bought for lens power p, in scan order. */
  function Select(ts: seq<Tagged>, p: string): (group: seq<Entry>)
  {
    if ts == [] then []
    else
      var t := ts[|ts| - 1];
      Select(ts[..|ts| - 1], p) + (if t.power == p then [t.entry] else [])
  }

  /** The per-power groups: each power that occurs mapped to its purchases. */
  function Grouped(ts: seq<Tagged>): (groups: map<string, seq<Entry>>)
  {
    map p | p in Powers(ts) :: Select(ts, p)
  }

  predicate Distinct(ps: seq<string>)
  {
    forall i, j :: 0 <= i < j < |ps| ==> ps[i] != ps[j]
  }

  /** No power is listed twice; a power is listed exactly when some
      purchase was bought for it, and then its group is not empty. */
  lemma {:induction false} PowersFacts(ts: seq<Tagged>)
    ensures Distinct(Powers(ts))
    ensures forall p :: p in Powers(ts) <==> Select(ts, p) != []
    ensures forall k :: 0 <= k < |ts| ==> ts[k].power in Powers(ts)
  {
    if ts != [] {
      var init := ts[..|ts| - 1];
      PowersFacts(init);
      forall k | 0 <= k < |ts| ensures ts[k].power in Powers(ts) {
        if k < |ts| - 1 {
          assert ts[k] == init[k];
        }
      }
    }
  }

  /** A purchase lies in the group of its own power. */
  lemma {:induction false} SelectContains(ts: seq<Tagged>, k: nat)
    requires k < |ts|
    ensures ts[k].entry in Select(ts, ts[k].power)
  {
    var init := ts[..|ts| - 1];
    if k < |ts| - 1 {
      assert ts[k] == init[k];
      SelectContains(init, k);
    }
  }

  /** Appending a purchase lists its power if that power is new. */
  lemma PowersStep(ts: seq<Tagged>, t: Tagged)
    ensures Powers(ts + [t]) == if t.power in Powers(ts) then Powers(ts) else Powers(ts) + [t.power]
  {
    assert (ts + [t])[..|ts|] == ts;
  }

  /** Appending a purchase extends only the group of its own power. */
  lemma SelectStep(ts: seq<Tagged>, t: Tagged, p: string)
    ensures Select(ts + [t], p) == Select(ts, p) + (if t.power == p then [t.entry] else [])
  {
    assert (ts + [t])[..|ts|] == ts;
  }

  /** Every entry of a group comes from a purchase of that power. */
  lemma {:induction false} SelectSound(ts: seq<Tagged>, p: string, e: Entry)
    requires e in Select(ts, p)
    ensures exists k :: 0 <= k < |ts| && ts[k].power == p && ts[k].entry == e
  {
    var init := ts[..|ts| - 1];
    var t := ts[|ts| - 1];
    if e !in Select(init, p) {
      assert t.power == p && t.entry == e;
    } else {
      SelectSound(init, p, e);
      var k :| 0 <= k < |init| && init[k].power == p && init[k].entry == e;
      assert ts[k] == init[k];
    }
  }

  /** The group of a power over two runs of purchases is its group over
      the first run followed by its group over the second. */
  lemma {:induction false} SelectAppend(a: seq<Tagged>, b: seq<Tagged>, p: string)
    ensures Select(a + b, p) == Select(a, p) + Select(b, p)
    decreases |b|
  {
    if b == [] {
      assert a + b == a;
    } else {
      var b0 := b[..|b| - 1];
      assert (a + b)[..|a + b| - 1] == a + b0;
      SelectAppend(a, b0, p);
    }
  }

  /** Purchases of powers already seen open no new group. */
  lemma {:induction false} PowersAppendSeen(a: seq<Tagged>, b: seq<Tagged>)
    requires forall k :: 0 <= k < |b| ==> b[k].power in Powers(a)
    ensures Powers(a + b) == Powers(a)
    decreases |b|
  {
    if b == [] {
      assert a + b == a;
    } else {
      var b0 := b[..|b| - 1];
      assert (a + b)[..|a + b| - 1] == a + b0;
      PowersAppendSeen(a, b0);
    }
  }

  /** What the loop body of the grouping pass does to the groups. */
  lemma GroupedStep(ts: seq<Tagged>, t: Tagged)
    ensures Powers(ts + [t]) == if t.power in Powers(ts) then Powers(ts) else Powers(ts) + [t.power]
    ensures Grouped(ts + [t]) ==
      if t.power in Grouped(ts) then Grouped(ts)[t.power := Grouped(ts)[t.power] + [t.entry]]
      else Grouped(ts)[t.power := [t.entry]]
  {
    var ts' := ts + [t];
    PowersStep(ts, t);
    PowersFacts(ts);
    var g, g' := Grouped(ts), Grouped(ts');
    var expected := if t.power in g then g[t.power := g[t.power] + [t.entry]] else g[t.power := [t.entry]];
    assert g'.Keys == expected.Keys;
    forall p | p in g' ensures g'[p] == expected[p] {
      SelectStep(ts, t, p);
      if p == t.power && t.power !in g {
        assert Select(ts, p) == [];
      }
    }
  }

  /** Sum over the listed powers of the number of purchases in each group. */
  function EntryCount(ps: seq<string>, ts: seq<Tagged>): (n: nat)
  {
    if ps == [] then 0 else EntryCount(ps[..|ps| - 1], ts) + |Select(ts, ps[|ps| - 1])|
  }

  /** Sum over the listed powers of the units bought in each group. */
  function GroupUnits(ps: seq<string>, ts: seq<Tagged>): (u: int)
  {
    if ps == [] then 0 else GroupUnits(ps[..|ps| - 1], ts) + SumUnits(Select(ts, ps[|ps| - 1]))
  }

  /** Adding one purchase adds one entry and its units to the sums over
      any list of distinct powers that contains its power, and nothing to
      one that does not. */
  lemma {:induction false} SumsStep(ps: seq<string>, ts: seq<Tagged>, t: Tagged)
    requires Distinct(ps)
    ensures EntryCount(ps, ts + [t]) == EntryCount(ps, ts) + (if t.power in ps then 1 else 0)
    ensures GroupUnits(ps, ts + [t]) == GroupUnits(ps, ts) + (if t.power in ps then t.entry.units else 0)
  {
    if ps != [] {
      var init := ps[..|ps| - 1];
      var p := ps[|ps| - 1];
      assert Distinct(init);
      SumsStep(init, ts, t);
      assert (ts + [t])[..|ts|] == ts;
      assert Select(ts + [t], p) == Select(ts, p) + (if t.power == p then [t.entry] else []);
      SumUnitsAppend(Select(ts, p), if t.power == p then [t.entry] else []);
      assert t.power in ps <==> t.power in init || t.power == p;
      assert t.power == p ==> t.power !in init;
    }
  }

  /** Grouping preserves every purchase: the groups together hold as many
      entries as there are purchases, and as many units. */
  lemma {:induction false} GroupingPreservesPurchases(ts: seq<Tagged>)
    ensures EntryCount(Powers(ts), ts) == |ts|
    ensures GroupUnits(Powers(ts), ts) == TaggedUnits(ts)
  {
    if ts != [] {
      var init := ts[..|ts| - 1];
      var t := ts[|ts| - 1];
      assert init + [t] == ts;
      GroupingPreservesPurchases(init);
      assert TaggedUnits(ts) == TaggedUnits(init) + t.entry.units;
      SumsAfterAppend(init, t);
    }
  }

  /** The sums over the powers grow by one entry and its units when a
      purchase is appended. */
  lemma SumsAfterAppend(ts: seq<Tagged>, t: Tagged)
    ensures EntryCount(Powers(ts + [t]), ts + [t]) == EntryCount(Powers(ts), ts) + 1
    ensures GroupUnits(Powers(ts + [t]), ts + [t]) == GroupUnits(Powers(ts), ts) + t.entry.units
  {
    assert Distinct(Powers(ts)) && (t.power !in Powers(ts) ==> Select(ts, t.power) == []) by {
      PowersFacts(ts);
    }
    PowersStep(ts, t);
    SumsStep(Powers(ts), ts, t);
    if t.power !in Powers(ts) {
      var ps := Powers(ts) + [t.power];
      assert ps[..|ps| - 1] == Powers(ts);
      assert Select(ts, t.power) == [];
      SelectStep(ts, t, t.power);
      assert Select(ts + [t], t.power) == [t.entry];
      assert SumUnits([t.entry]) == t.entry.units by {
        assert [t.entry][..0] == [];
      }
    }
  }

  /** The inner loop of the grouping pass, over the order lines of one
      date: append (date, quantity * duration) to the group of each line's
      lens power, opening the group on first sight. */
  method AddDay(catalog: Catalog, ghost done: seq<Tagged>, day: DayOrders, powers0: seq<string>, groups0: map<string, seq<Entry>>)
    returns (powers: seq<string>, groups: map<string, seq<Entry>>)
    requires LinesOk(catalog, day.lines)
    requires powers0 == Powers(done) && groups0 == Grouped(done)
    ensures powers == Powers(done + TagLines(catalog, day.date, day.lines))
    ensures groups == Grouped(done + TagLines(catalog, day.date, day.lines))
  {
    powers, groups := powers0, groups0;
    assert day.lines[..0] == [];
    assert done + TagLines(catalog, day.date, day.lines[..0]) == done;
    for j := 0 to |day.lines|
      invariant LinesOk(catalog, day.lines[..j])
      invariant powers == Powers(done + TagLines(catalog, day.date, day.lines[..j]))
      invariant groups == Grouped(done + TagLines(catalog, day.date, day.lines[..j]))
    {
      var line := day.lines[j];
      var t := Tagged(line.power, Entry(day.date, line.quantity * catalog[line.product]));
      TagLinesSnoc(catalog, day.date, day.lines, j, done);
      GroupedStep(done + TagLines(catalog, day.date, day.lines[..j]), t);
      if line.power in groups {
        groups := groups[line.power := groups[line.power] + [t.entry]];
      } else {
        powers := powers + [line.power];
        groups := groups[line.power := [t.entry]];
      }
    }
    assert day.lines[..|day.lines|] == day.lines;
  }

  /** The grouping pass of the source, over the history as given: every
      date's order lines in turn, each appended to its lens power's group. */
  method GroupByPower(catalog: Catalog, history: History) returns (powers: seq<string>, groups: map<string, seq<Entry>>)
    requires HistoryOk(catalog, history)
    ensures powers == Powers(Flatten(catalog, history))
    ensures groups == Grouped(Flatten(catalog, history))
  {
    powers, groups := [], map[];
    for i := 0 to |history|
      invariant HistoryOk(catalog, history[..i])
      invariant powers == Powers(Flatten(catalog, history[..i]))
      invariant groups == Grouped(Flatten(catalog, history[..i]))
    {
      assert history[..i + 1][..i] == history[..i];
      assert HistoryOk(catalog, history[..i + 1]) by {
        forall day | day in history[..i + 1] ensures LinesOk(catalog, day.lines) {
          assert day in history;
        }
      }
      var day := history[i];
      assert day in history;
      assert history[..i + 1][i] == day;
      assert Flatten(catalog, history[..i + 1]) == Flatten(catalog, history[..i]) + TagLines(catalog, day.date, day.lines);
      powers, groups := AddDay(catalog, Flatten(catalog, history[..i]), day, powers, groups);
    }
    assert history[..|history|] == history;
  }
}
