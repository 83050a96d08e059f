# Contact-lens run-out prediction, in Dafny

This project models `SimpleLensPrediction::predictDate` of the maternia PHP
challenge and proves properties of it. The function gets a product catalogue
(product id → days one unit lasts) and a customer's order history (date →
order lines of product id, quantity and lens power). It predicts the date on
which the customer runs out of lenses, or returns no prediction.

The source works in four steps, and the model follows them:

1. **Grouping** (`Grouping.GroupByPower`). Every order line becomes a
   purchase `(date, quantity × duration)` in the group of its lens power.
   Groups are opened in order of first appearance. Purchases keep scan
   order: dates in the order given, then the lines of each date in order.
2. **Scan of a group** (`Estimation.ScanGroup`). A running minimum and
   maximum of the dates, and the running total of units. The amount of the
   last purchase is set only when a date is *strictly* later than every date
   before it. So on a tie, the first purchase on the latest date wins.
3. **Estimate of a group** (`Prediction.EstimateGroup`, specified by
   `Estimation.GroupEstimate`):
   - The step takes the elapsed days and the prior units (the total minus the
     last amount).
   - The rate is prior units over elapsed days. It is one unit a day when
     either of them is not positive.
   - The estimate is the last amount over the rate, rounded. It is halved
     (rounded) when the customer has a single lens-power group.
   - The group's date is that estimate added to the last purchase date.
4. **Selection** (`Selection.SelectLatest`). The running choice is replaced
   by every strictly later estimate. The result is therefore the LATEST
   group estimate, although the source's comment says "smallest" and the
   variable is called "nearest". The model keeps the code's behaviour, and
   `Scenarios.LatestNotNearest` shows a history where the two readings
   differ.

`Prediction.PredictDate` is the whole method. Its contract ties it to the
functional specification `Prediction.Predict`, and the lemmas in
`Prediction`, `Grouping`, `Estimation` and `Orders` are about that
specification. The `Scenarios` module replays the repository's unit tests
with dates as day numbers. It also has a tie-break scenario and a
latest-versus-nearest scenario.

Modelling choices:

- A date is an integer day number. `Scenarios.DayNumber` converts calendar
  dates, and is used only to write the test dates.
- The history is a sequence of `DayOrders`, because PHP arrays are ordered
  and the order decides the tie-break. A PHP key is unique, so the source
  never sees a date twice. The model does not need that.
- PHP's `round` of a floating-point quotient becomes `Rounding.RoundDiv`:
  exact rational division, rounded half away from zero. The rate step
  `round(L / (P / D))` is `RoundDiv(L * D, P)`.
- No prediction is returned for an empty history. It is also returned for a
  history whose dates carry no order line: `count($orders) > 0` holds, but
  no group is opened and the selection loop never runs
  (`Prediction.NoPredictionIffNoOrders`, `Scenarios.DateWithoutOrders`).
- The inputs are immutable values, so two calls with the same inputs give
  the same result and change nothing.

## Model

| member | source | states |
|---|---|---|
| Rounding.RoundDiv | src/predict/SimpleLensPrediction.php:90-96 | the result is the integer nearest to n / d; a half goes away from zero, as PHP's round() does |
| Orders.Units | src/predict/SimpleLensPrediction.php:45 | the days of lenses an order line buys (quantity × duration) are never negative for a well-formed line |
| Orders.TagLinesAt | src/predict/SimpleLensPrediction.php:42-47 | `Orders.TagLines` (the inner loop of lines 42-47) gives one purchase per line of a date, in order, with that date, the line's power and its units |
| Orders.FlattenPreservesOrders | src/predict/SimpleLensPrediction.php:41-48 | `Orders.Flatten`, the scan of lines 41-47 over every date in order, gives exactly one purchase per order line, with the same total of units as the order lines |
| Orders.FlattenCoversDay | src/predict/SimpleLensPrediction.php:41-47 | every order line of every date appears among the scanned purchases with its date, power and units |
| Orders.FlattenNonNegative | src/predict/SimpleLensPrediction.php:45 | no scanned purchase has negative units |
| Grouping.PowersFacts | src/predict/SimpleLensPrediction.php:43 | `Grouping.Powers`, the key order of the per-power array built at lines 40-48: no lens power is listed twice; a power is listed if and only if its group (`Grouping.Select`) is non-empty; every purchase's power is listed |
| Grouping.SelectContains | src/predict/SimpleLensPrediction.php:43 | every purchase lands in the group of its own power |
| Grouping.SelectSound | src/predict/SimpleLensPrediction.php:43 | every entry of a group comes from a purchase of that power |
| Grouping.GroupedStep | src/predict/SimpleLensPrediction.php:43-46 | appending a purchase either opens a new group for its power at the end of the key order, or extends that power's group and leaves the others unchanged |
| Grouping.SelectAppend | src/predict/SimpleLensPrediction.php:41-48 | the group of a power over two runs of purchases is its group over the first run followed by its group over the second |
| Grouping.PowersAppendSeen | src/predict/SimpleLensPrediction.php:43 | purchases of powers already seen open no new group |
| Grouping.GroupingPreservesPurchases | src/predict/SimpleLensPrediction.php:40-48 | together the groups hold as many entries as there are purchases, and the same total of units |
| Grouping.AddDay | src/predict/SimpleLensPrediction.php:42-47 | the inner loop over one date's lines appends each line's purchase to its power's group: the result is `Grouping.Powers` and `Grouping.Grouped` of the purchases so far followed by that date's |
| Grouping.GroupByPower | src/predict/SimpleLensPrediction.php:40-48 | the nested loop yields `Grouping.Powers` (the powers in order of first appearance) and `Grouping.Grouped` (for each power, exactly its purchases in scan order), the array of lines 40-48 |
| Estimation.MinDate | src/predict/SimpleLensPrediction.php:62-67 | the first purchase date is the date of some purchase of the group and no later than any |
| Estimation.MaxDate | src/predict/SimpleLensPrediction.php:68-74 | the last purchase date is the date of some purchase of the group and no earlier than any |
| Estimation.FirstOn | src/predict/SimpleLensPrediction.php:68-74 | the index found is the first one carrying the date, or the end of the group when none does |
| Estimation.LastAmountIsFirstAtLatest | src/predict/SimpleLensPrediction.php:68-74 | `Estimation.LastAmount`, the amount kept by the strict comparison of lines 68-74, is that of a purchase on the latest date, and every purchase before it is strictly earlier, so later purchases on the same date do not replace it |
| Estimation.LastAmountStep | src/predict/SimpleLensPrediction.php:62-74 | a new purchase moves the first date only when strictly earlier, and moves the last date and amount only when strictly later |
| Estimation.ElapsedNonNegative | src/predict/SimpleLensPrediction.php:78-80 | the elapsed days of a group are never negative |
| Estimation.FallbackRate | src/predict/SimpleLensPrediction.php:84-92 | in `Estimation.EstimatedDays` (lines 78-92), with no elapsed days or no prior units, the rate is one unit a day and the estimate is the last amount |
| Estimation.AveragedRate | src/predict/SimpleLensPrediction.php:84-92 | otherwise `Estimation.EstimatedDays` (lines 78-92) is the last amount divided by (prior units / elapsed days), to the nearest day |
| Estimation.EstimatedDaysNonNegative | src/predict/SimpleLensPrediction.php:82-92 | with non-negative purchases the estimated days are not negative |
| Estimation.HalvingIffSingleGroup | src/predict/SimpleLensPrediction.php:94-97 | in `Estimation.GroupEstimate` (lines 94-101), a customer with exactly one lens-power group gets half the estimate, rounded up; any other customer gets the estimate unchanged |
| Estimation.EstimateNotBeforeLastPurchase | src/predict/SimpleLensPrediction.php:99-101 | a group's run-out date, `Estimation.GroupEstimate` (lines 94-101), is never before its last purchase |
| Estimation.ScanFirst | src/predict/SimpleLensPrediction.php:56-76 | after the first purchase, its date is first and last, and its units are the last amount and the total |
| Estimation.ScanNext | src/predict/SimpleLensPrediction.php:61-76 | one step of the scan updates the minimum, maximum, last amount and total as the loop body does |
| Estimation.ScanGroup | src/predict/SimpleLensPrediction.php:56-76 | the scan loop returns the earliest and latest dates, the units of the first purchase on the latest date, and the total units |
| Selection.Latest | src/predict/SimpleLensPrediction.php:108-116 | the latest date is one of the estimates and no estimate is later |
| Selection.LatestUnique | src/predict/SimpleLensPrediction.php:108-116 | an estimate that no other estimate exceeds is the latest one |
| Selection.SelectLatest | src/predict/SimpleLensPrediction.php:108-116 | the selection loop returns null exactly for no estimates; otherwise it returns the latest estimate, one of them and no earlier than any |
| Prediction.EstimateGroup | src/predict/SimpleLensPrediction.php:55-101 | the body of the per-group loop computes `Estimation.GroupEstimate` of the group: the last amount of lines 56-76, the days of lines 78-92 and the halving and date of lines 94-101 |
| Prediction.EstimateGroups | src/predict/SimpleLensPrediction.php:54-102 | the per-group loop returns one estimate per group, in key order: exactly `Prediction.Estimates`, the `Estimation.GroupEstimate` of each power's group |
| Prediction.PredictDate | src/predict/SimpleLensPrediction.php:32-122 | the method's result is `Prediction.Predict` (lines 32-122): no prediction when no group is opened, otherwise the latest of `Prediction.Estimates`, the `Prediction.EstimateFor` of each power in key order |
| Prediction.NoPredictionIffNoOrders | src/predict/SimpleLensPrediction.php:33-121 | `Prediction.Predict` gives no prediction if and only if the history holds no order line; in particular not for an empty history |
| Prediction.GroupsHoldEveryOrder | src/predict/SimpleLensPrediction.php:40-48 | the groups hold one entry per order line of the history and the units of all of them |
| Prediction.LatestEstimateIsMaximal | src/predict/SimpleLensPrediction.php:104-116 | the chosen date is the estimate of some group and no group's estimate is later |
| Prediction.PredictionIsLatestEstimate | src/predict/SimpleLensPrediction.php:104-118 | a prediction is the estimate of one of the groups, and every group's estimate is no later than it |
| Prediction.PredictionNotBeforeAnyPurchase | src/predict/SimpleLensPrediction.php:99-118 | a history with an order line always gets a prediction, and the prediction is no earlier than any purchase date |
| Scenarios.EmptyOrders | tests/SimpleLensPredictionTest.php:30-34 | no orders give no prediction |
| Scenarios.DateWithoutOrders | src/predict/SimpleLensPrediction.php:34-118 | a date without order lines gives no prediction |
| Scenarios.Customer1Prediction | tests/SimpleLensPredictionTest.php:36-47 | two powers bought once: 360 days each, no halving, 2016-03-26 |
| Scenarios.Customer2Group | tests/SimpleLensPredictionTest.php:52-56 | the group 60, 60, 30 bought on 2014-10-01, 2015-01-01 and 2015-04-15: 120 prior units over 196 days and a last amount of 30 give 49 days |
| Scenarios.Customer2Prediction | tests/SimpleLensPredictionTest.php:49-65 | the averaged-rate customer runs out on 2015-06-03 |
| Scenarios.Customer3Prediction | tests/SimpleLensPredictionTest.php:67-78 | a single group of 2 × 90 days is halved to 90 days: 2014-10-30 |
| Scenarios.TieBreakGroup | src/predict/SimpleLensPrediction.php:68-97 | two purchases on the same date: the first one's 360 units count, so 180 days after halving, not 90 |
| Scenarios.TieBreakPrediction | src/predict/SimpleLensPrediction.php:68-74 | the tie-break customer runs out 180 days after the purchase |
| Scenarios.LatestNotNearest | src/predict/SimpleLensPrediction.php:104-116 | with group estimates of 180 and 90 days, the prediction is the later, 180 days |

## Left out

- Parsing of the `Y-m-d` keys (`DateTime::createFromFormat`) and Gregorian calendar arithmetic (`diff`, `DateInterval`, `add`): dates are day numbers, and the conversion to and from calendar dates is assumed to happen outside the model.
- The time of day that `createFromFormat` takes from the clock: if the clock passes a second boundary while the lines are being read, two dates of the same day can differ by a second, which changes the tie-break and can shorten a day count by one. The model has no clock, so all purchases of one date compare equal.
- Floating-point arithmetic: the rate and the quotient are exact rationals. A float quotient that falls within rounding error of a half may round the other way in PHP.
- Integer width: `quantity × duration` is unbounded; PHP would switch to a float on overflow.
- PHP's normalisation of array keys: a numeric lens-power label such as `"5"` becomes the integer key 5 in PHP. The model compares labels as the strings given.
- Unknown product ids, negative quantities and negative durations: they are excluded by the precondition `Orders.HistoryOk`. The source does not handle them: an unknown id reads an undefined key, and a negative day count gives an invalid interval string such as `P-5D`.
- The in-place `add` on the last purchase date's object (line 99): it changes an entry of a group that is never read again, so it has no effect on the result.
- src/predict/LensPrediction.php: an interface declaration without logic.
- The PHPUnit harness itself: its three customers and the empty-orders test are the scenario lemmas.
