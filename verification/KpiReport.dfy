/** What each figure of the weekly row counts, read off the events alone. */
module KpiReport {
  import opened Folds
  import opened Options
  import opened KpiEvents
  import opened KpiWaste
  import opened KpiAlerts

  /** The event is at the place, within seven days of the start of the week. */
  predicate Happens(e: Event, place: string, week: int) {
    e.location == Some(place) && e.time.Some? && week <= e.time.value < week + 604800
  }

  // ---------- purchases and stockouts ----------

  /** A supply order at the place, with a quantity and a cost, is spent; one without a cost is not. */
  function Spent(place: string, week: int): Event -> real {
    (e: Event) =>
      if e.kind == SupplyOrder && Happens(e, place, week) && e.quantity.Some? && e.unitCost.Some?
      then e.quantity.value * e.unitCost.value else 0.0
  }

  function WithoutPrice(dims: Dimensions, week: int): Event -> bool {
    (e: Event) =>
      && e.kind == SupplyOrder && e.location.Some? && e.location.value in dims && Happens(e, e.location.value, week)
      && e.quantity.Some? && e.unitCost.None?
  }

  function Emptied(place: string, week: int): Event -> bool {
    (e: Event) => e.kind == StockThreshold && Happens(e, place, week)
  }

  // ---------- waste ----------

  /** `x` is a priced supply of the same ingredient at the same place, no later than `e`. */
  predicate CanPrice(x: Event, e: Event) {
    && x.kind == SupplyOrder && x.unitCost.Some? && x.location.Some? && x.ingredient.Some? && x.time.Some?
       && e.time.Some?
    && x.location == e.location && x.ingredient == e.ingredient && x.time.value <= e.time.value
  }

  /** The record that prices `e`: the latest, and among records of one instant the last in order. */
  ghost predicate Prices(rs: seq<Event>, e: Event, i: nat) {
    && i < |rs| && CanPrice(rs[i], e)
    && forall j :: 0 <= j < |rs| && CanPrice(rs[j], e) ==>
         rs[j].time.value < rs[i].time.value || (rs[j].time.value == rs[i].time.value && j <= i)
  }

  /** What one unit is charged for `e`, if some record prices it. */
  ghost function PriceOf(rs: seq<Event>, e: Event): Option<real> {
    if exists i: nat :: Prices(rs, e, i)
    then var i: nat :| Prices(rs, e, i); rs[i].unitCost
    else None
  }

  predicate ThrownAway(e: Event, place: string, week: int) {
    && e.kind == ConsumptionOrder && e.reason == Some("waste") && Happens(e, place, week)
    && e.ingredient.Some? && e.quantity.Some?
  }

  ghost function Wasted(rs: seq<Event>, place: string, week: int): Event -> real {
    (e: Event) =>
      if ThrownAway(e, place, week) && PriceOf(rs, e).Some? then e.quantity.value * PriceOf(rs, e).value else 0.0
  }

  ghost function WithoutCharge(rs: seq<Event>, dims: Dimensions, week: int): Event -> bool {
    (e: Event) =>
      && e.location.Some? && e.location.value in dims && ThrownAway(e, e.location.value, week)
      && PriceOf(rs, e).None?
  }

  lemma {:induction false} LatestPrices(rs: seq<Event>, dims: Dimensions, e: Event)
    requires Located(e, dims) && e.ingredient.Some? && e.time.Some?
    ensures
      var latest := Latest(Supplies(rs, dims), e.location.value, e.ingredient.value, e.time.value);
      if latest.None? then forall x :: x in rs ==> !CanPrice(x, e)
      else exists i: nat :: Prices(rs, e, i) && rs[i].time == Some(latest.value.time)
                            && rs[i].unitCost == Some(latest.value.cost)
  {
    if rs != [] {
      var rest, last := rs[..|rs| - 1], rs[|rs| - 1];
      LatestPrices(rest, dims, e);
      assert rs == rest + [last];
      var before := Latest(Supplies(rest, dims), e.location.value, e.ingredient.value, e.time.value);
      SuppliesStep(rest, last, dims, e);
      if before.Some? {
        var i: nat :| Prices(rest, e, i) && rest[i].time == Some(before.value.time)
                      && rest[i].unitCost == Some(before.value.cost);
        PricesStep(rest, last, e, i);
        assert rs[i] == rest[i];
      }
      if CanPrice(last, e) && (before.None? || before.value.time <= last.time.value) {
        assert Prices(rs, e, |rest|) && rs[|rest|] == last;
      }
    }
  }

  lemma PricesStep(rest: seq<Event>, last: Event, e: Event, i: nat)
    requires Prices(rest, e, i)
    ensures if CanPrice(last, e) && rest[i].time.value <= last.time.value then Prices(rest + [last], e, |rest|)
            else Prices(rest + [last], e, i)
  {
  }

  lemma SuppliesStep(rest: seq<Event>, last: Event, dims: Dimensions, e: Event)
    requires Located(e, dims) && e.ingredient.Some? && e.time.Some?
    ensures
      var location, ingredient, time := e.location.value, e.ingredient.value, e.time.value;
      var before := Latest(Supplies(rest, dims), location, ingredient, time);
      Latest(Supplies(rest + [last], dims), location, ingredient, time)
      == if CanPrice(last, e) && (before.None? || before.value.time <= last.time.value) then Some(AsSupply(last))
         else before
  {
    assert (rest + [last])[..|rest|] == rest;
    var xs := Supplies(rest, dims);
    if CostBearing(last, dims) {
      assert (xs + [AsSupply(last)])[..|xs|] == xs;
      assert Matches(AsSupply(last), e.location.value, e.ingredient.value, e.time.value) <==> CanPrice(last, e);
    } else {
      assert Supplies(rest + [last], dims) == xs;
    }
  }

  lemma PricesOnce(rs: seq<Event>, e: Event, i: nat, j: nat)
    requires Prices(rs, e, i) && Prices(rs, e, j)
    ensures i == j
  {
  }

  lemma PriceIsCharged(rs: seq<Event>, dims: Dimensions, e: Event)
    requires Located(e, dims) && e.ingredient.Some? && e.time.Some?
    ensures PriceOf(rs, e) == ChargedCost(Supplies(rs, dims), e)
  {
    LatestPrices(rs, dims, e);
    if i: nat :| Prices(rs, e, i) {
      assert rs[i] in rs && CanPrice(rs[i], e);
      var k: nat :| Prices(rs, e, k) && Some(rs[k].unitCost.value) == ChargedCost(Supplies(rs, dims), e);
      forall j: nat | Prices(rs, e, j)
        ensures j == k
      {
        PricesOnce(rs, e, j, k);
      }
    }
  }

  lemma WasteIsCharged(rs: seq<Event>, dims: Dimensions, week: int, place: string)
    requires place in dims
    ensures WasteTotal(rs, dims, week, place) == Sum(Wasted(rs, place, week), rs)
  {
    var supplies := Supplies(rs, dims);
    forall e | e in rs
      ensures WasteValue(supplies, dims, week)(place)(e) == Wasted(rs, place, week)(e)
    {
      if Eligible(e, dims, week) { PriceIsCharged(rs, dims, e); }
    }
    SumAgrees(WasteValue(supplies, dims, week)(place), Wasted(rs, place, week), rs);
  }

  lemma UnchargedIsMissing(rs: seq<Event>, dims: Dimensions, week: int)
    ensures WasteMissing(rs, dims, week) == Count(WithoutCharge(rs, dims, week), rs)
  {
    var supplies := Supplies(rs, dims);
    forall e | e in rs
      ensures WasteUnvalued(supplies, dims, week)(e) == WithoutCharge(rs, dims, week)(e)
    {
      if Eligible(e, dims, week) { PriceIsCharged(rs, dims, e); }
    }
    CountAgrees(WasteUnvalued(supplies, dims, week), WithoutCharge(rs, dims, week), rs);
  }

  // ---------- price alerts ----------

  /** `m` is the median: halfway between the two middle values of the ascending arrangement, which may be one. */
  ghost predicate IsMedian(costs: seq<real>, m: real) {
    exists s :: multiset(s) == multiset(costs) && Ascending(s) && s != [] && m + m == s[(|s| - 1) / 2] + s[|s| / 2]
  }

  lemma MiddleIsHalfway(s: seq<real>, m: real)
    requires s != []
    ensures m + m == s[(|s| - 1) / 2] + s[|s| / 2] <==> m == Middle(s)
  {
    var n := |s|;
    if n % 2 == 1 {
      assert (n - 1) / 2 == n / 2;
    } else {
      assert (n - 1) / 2 == n / 2 - 1;
    }
  }

  lemma MedianIsMedian(costs: seq<real>, m: real)
    requires costs != []
    ensures IsMedian(costs, m) <==> m == Median(costs)
  {
    var sorted := Sorted(costs);
    SortedAscends(costs);
    MiddleIsHalfway(sorted, m);
    forall s | multiset(s) == multiset(costs) && Ascending(s)
      ensures s == sorted
    {
      AscendingIsUnique(s, sorted);
    }
  }

  /** A priced supply of the same ingredient at the same place, in the four weeks before the week. */
  predicate IsPrior(x: Event, e: Event, week: int) {
    && x.kind == SupplyOrder && x.unitCost.Some? && x.location.Some? && x.ingredient.Some? && x.time.Some?
    && x.location == e.location && x.ingredient == e.ingredient && week - 4 * 604800 <= x.time.value < week
  }

  function PriorAt(e: Event, week: int, cost: real): Event -> bool {
    (x: Event) => IsPrior(x, e, week) && x.unitCost == Some(cost)
  }

  /** Each cost occurs as often as there are prior supplies at it. */
  ghost predicate PriorCosts(costs: seq<real>, rs: seq<Event>, e: Event, week: int) {
    forall cost :: multiset(costs)[cost] == Count(PriorAt(e, week, cost), rs)
  }

  /** More than 25 percent above or below the median of at least two prior costs. */
  ghost predicate OutOfBand(rs: seq<Event>, e: Event, week: int)
    requires e.unitCost.Some?
  {
    exists costs, m ::
      && PriorCosts(costs, rs, e, week) && |costs| >= 2 && IsMedian(costs, m) && m > 0.0
      && (e.unitCost.value < 0.75 * m || e.unitCost.value > 1.25 * m)
  }

  ghost function Surprising(rs: seq<Event>, place: string, week: int): Event -> bool {
    (e: Event) =>
      && e.kind == SupplyOrder && Happens(e, place, week) && e.ingredient.Some? && e.unitCost.Some?
      && OutOfBand(rs, e, week)
  }

  lemma BaselineIsPrior(rs: seq<Event>, dims: Dimensions, week: int, e: Event)
    requires Compared(e, dims, week)
    ensures PriorCosts(Baseline(rs, dims, week, PairOf(e)), rs, e, week)
  {
    var pair := PairOf(e);
    forall cost
      ensures multiset(Baseline(rs, dims, week, pair))[cost] == Count(PriorAt(e, week, cost), rs)
    {
      BaselineCounts(rs, dims, week, pair, cost);
      CountAgrees(InBaselineAt(dims, week, pair, cost), PriorAt(e, week, cost), rs);
    }
  }

  lemma AlarmingIsOutOfBand(rs: seq<Event>, dims: Dimensions, week: int, e: Event)
    requires Compared(e, dims, week)
    ensures Alarming(Baseline(rs, dims, week, PairOf(e)), e.unitCost.value) <==> OutOfBand(rs, e, week)
  {
    var prior := Baseline(rs, dims, week, PairOf(e));
    BaselineIsPrior(rs, dims, week, e);
    AlarmingExactly(prior, e.unitCost.value);
    if Alarming(prior, e.unitCost.value) {
      MedianIsMedian(prior, Median(prior));
    }
    if OutOfBand(rs, e, week) {
      var costs, m :| PriorCosts(costs, rs, e, week) && |costs| >= 2 && IsMedian(costs, m) && m > 0.0
                      && (e.unitCost.value < 0.75 * m || e.unitCost.value > 1.25 * m);
      assert forall cost :: multiset(costs)[cost] == multiset(prior)[cost];
      assert multiset(costs) == multiset(prior);
      SameLength(costs, prior);
      MedianIsMedian(costs, m);
      MedianOfRearranged(costs, prior);
    }
  }

  lemma AlertsAreSurprising(rs: seq<Event>, dims: Dimensions, week: int, place: string)
    requires place in dims
    ensures AlertTotal(rs, dims, week, place) == Count(Surprising(rs, place, week), rs)
  {
    forall e | e in rs
      ensures Alerts(rs, dims, week)(place)(e) == Surprising(rs, place, week)(e)
    {
      if Compared(e, dims, week) { AlarmingIsOutOfBand(rs, dims, week, e); }
    }
    CountAgrees(Alerts(rs, dims, week)(place), Surprising(rs, place, week), rs);
  }
}
