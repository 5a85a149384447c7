/**
 The database-side filter of the weekly extract, and what it changes: nothing for purchases,
 stockouts and price alerts; for waste, exactly the charges that rest on a supply older than the
 lookback.
 */
module KpiExtract {
  import opened Folds
  import opened Options
  import opened KpiEvents
  import opened KpiWaste
  import opened KpiAlerts
  import opened KpiTransform

  function LookbackStart(week: int): int { week - PRICE_ALERT_BASELINE_WEEKS * WEEK }

  /** The WHERE clause of the extract query. */
  predicate Selected(e: Event, week: int) {
    || (InWeek(e, week) && e.kind in {SupplyOrder, ConsumptionOrder, StockThreshold})
    || (e.kind == SupplyOrder && InWindow(e, LookbackStart(week), week + WEEK))
  }

  function Selects(week: int): Event -> bool {
    (e: Event) => Selected(e, week)
  }

  /** The extract: the selected rows, in whatever order the database returns rows of equal timestamp. */
  ghost predicate IsExtract(records: seq<Event>, log: seq<Event>, week: int) {
    multiset(records) == multiset(Filter(Selects(week), log))
  }

  // ---------- figures the extract preserves ----------

  lemma ExtractKeepsCount(p: Event -> bool, records: seq<Event>, log: seq<Event>, week: int)
    requires IsExtract(records, log, week)
    requires forall e :: p(e) ==> Selected(e, week)
    ensures Count(p, records) == Count(p, log)
  {
    CountOfRearranged(p, records, Filter(Selects(week), log));
    CountOfFiltered(p, Selects(week), log);
  }

  lemma ExtractKeepsSum(f: Event -> real, records: seq<Event>, log: seq<Event>, week: int)
    requires IsExtract(records, log, week)
    requires forall e :: f(e) != 0.0 ==> Selected(e, week)
    ensures Sum(f, records) == Sum(f, log)
  {
    SumOfRearranged(f, records, Filter(Selects(week), log));
    SumOfFiltered(f, Selects(week), log);
  }

  /** Purchase totals and the count of unpriced purchases are those of the whole log. */
  lemma ExtractKeepsPurchases(records: seq<Event>, log: seq<Event>, dims: Dimensions, week: int, place: string)
    requires IsExtract(records, log, week)
    ensures PurchaseTotal(records, dims, week, place) == PurchaseTotal(log, dims, week, place)
    ensures PurchaseMissing(records, dims, week) == PurchaseMissing(log, dims, week)
  {
    ExtractKeepsSum(PurchaseValue(dims, week)(place), records, log, week);
    ExtractKeepsCount(PurchaseUnpriced(dims, week), records, log, week);
  }

  lemma ExtractKeepsStockouts(records: seq<Event>, log: seq<Event>, dims: Dimensions, week: int, place: string)
    requires IsExtract(records, log, week)
    ensures StockoutTotal(records, dims, week, place) == StockoutTotal(log, dims, week, place)
  {
    ExtractKeepsCount(Stockout(dims, week)(place), records, log, week);
  }

  /** The lookback reaches back exactly as far as the price baseline. */
  lemma ExtractKeepsAlerts(records: seq<Event>, log: seq<Event>, dims: Dimensions, week: int, place: string)
    requires IsExtract(records, log, week)
    ensures AlertTotal(records, dims, week, place) == AlertTotal(log, dims, week, place)
  {
    forall pair, cost
      ensures Count(InBaselineAt(dims, week, pair, cost), records) == Count(InBaselineAt(dims, week, pair, cost), log)
    {
      ExtractKeepsCount(InBaselineAt(dims, week, pair, cost), records, log, week);
    }
    SameBaselinesSameAlerts(records, log, dims, week, place, records);
    ExtractKeepsCount(Alerts(log, dims, week)(place), records, log, week);
  }

  // ---------- waste ----------

  /** Everything but the supplies older than the lookback. */
  function Recent(week: int): Event -> bool {
    (e: Event) => !(e.kind == SupplyOrder && e.time.Some? && e.time.value < LookbackStart(week))
  }

  function Where(keep: Supply -> bool, xs: seq<Supply>): seq<Supply> {
    if xs == [] then []
    else Where(keep, xs[..|xs| - 1]) + (if keep(xs[|xs| - 1]) then [xs[|xs| - 1]] else [])
  }

  lemma FilterSnoc(keep: Event -> bool, rs: seq<Event>, e: Event)
    ensures Filter(keep, rs + [e]) == Filter(keep, rs) + (if keep(e) then [e] else [])
  {
    assert (rs + [e])[..|rs|] == rs;
  }

  lemma SuppliesSnoc(rs: seq<Event>, e: Event, dims: Dimensions)
    ensures Supplies(rs + [e], dims) == Supplies(rs, dims) + (if CostBearing(e, dims) then [AsSupply(e)] else [])
  {
    assert (rs + [e])[..|rs|] == rs;
  }

  lemma WhereSnoc(keep: Supply -> bool, xs: seq<Supply>, s: Supply)
    ensures Where(keep, xs + [s]) == Where(keep, xs) + (if keep(s) then [s] else [])
  {
    assert (xs + [s])[..|xs|] == xs;
  }

  lemma {:induction false} SuppliesOfFiltered(keep: Event -> bool, keepSupply: Supply -> bool, log: seq<Event>,
                                              dims: Dimensions)
    requires forall e :: CostBearing(e, dims) ==> keep(e) == keepSupply(AsSupply(e))
    ensures Supplies(Filter(keep, log), dims) == Where(keepSupply, Supplies(log, dims))
  {
    if log != [] {
      var rest, last := log[..|log| - 1], log[|log| - 1];
      SuppliesOfFiltered(keep, keepSupply, rest, dims);
      assert log == rest + [last];
      FilterSnoc(keep, rest, last);
      SuppliesSnoc(rest, last, dims);
      SuppliesSnoc(Filter(keep, rest), last, dims);
      if CostBearing(last, dims) {
        WhereSnoc(keepSupply, Supplies(rest, dims), AsSupply(last));
      } else {
        assert Supplies(log, dims) == Supplies(rest, dims);
      }
      assert Filter(keep, rest) + [] == Filter(keep, rest);
    }
  }

  /** What is left of the latest match when the supplies before `from` are gone. */
  function CutOff(whole: Option<Supply>, from: int): Option<Supply> {
    if whole.Some? && from <= whole.value.time then whole else None
  }

  /** Cutting off the supplies before `from` keeps the latest match when it is recent, and loses it otherwise. */
  lemma {:induction false} LatestWhere(keep: Supply -> bool, from: int, xs: seq<Supply>, location: string,
                                       ingredient: string, time: int)
    requires forall s :: Matches(s, location, ingredient, time) ==> keep(s) == (from <= s.time)
    ensures Latest(Where(keep, xs), location, ingredient, time) == CutOff(Latest(xs, location, ingredient, time), from)
  {
    if xs != [] {
      var rest, last := xs[..|xs| - 1], xs[|xs| - 1];
      LatestWhere(keep, from, rest, location, ingredient, time);
      assert xs == rest + [last];
      WhereSnoc(keep, rest, last);
      LatestSnoc(rest, last, location, ingredient, time);
      if keep(last) {
        LatestSnoc(Where(keep, rest), last, location, ingredient, time);
      } else {
        assert Where(keep, rest) + [] == Where(keep, rest);
      }
    }
  }

  lemma LatestSnoc(xs: seq<Supply>, s: Supply, location: string, ingredient: string, time: int)
    ensures
      var before := Latest(xs, location, ingredient, time);
      Latest(xs + [s], location, ingredient, time)
      == if Matches(s, location, ingredient, time) && (before.None? || before.value.time <= s.time) then Some(s)
         else before
  {
    assert (xs + [s])[..|xs|] == xs;
  }

  function WithinExtract(week: int): Supply -> bool {
    (s: Supply) => LookbackStart(week) <= s.time < week + WEEK
  }

  function NotOld(week: int): Supply -> bool {
    (s: Supply) => LookbackStart(week) <= s.time
  }

  /** The cost charged for a waste event of the week once old supplies are gone, on either reading. */
  lemma ChargedOnExtract(log: seq<Event>, dims: Dimensions, week: int, e: Event)
    requires Eligible(e, dims, week)
    ensures
      var whole := Latest(Supplies(log, dims), e.location.value, e.ingredient.value, e.time.value);
      ChargedCost(Supplies(Filter(Selects(week), log), dims), e)
      == Cost(CutOff(whole, LookbackStart(week)))
  {
    SuppliesOfFiltered(Selects(week), WithinExtract(week), log, dims);
    LatestWhere(WithinExtract(week), LookbackStart(week), Supplies(log, dims), e.location.value, e.ingredient.value,
                e.time.value);
  }

  lemma ChargedOnRecent(log: seq<Event>, dims: Dimensions, week: int, e: Event)
    requires Eligible(e, dims, week)
    ensures
      var whole := Latest(Supplies(log, dims), e.location.value, e.ingredient.value, e.time.value);
      ChargedCost(Supplies(Filter(Recent(week), log), dims), e)
      == Cost(CutOff(whole, LookbackStart(week)))
  {
    SuppliesOfFiltered(Recent(week), NotOld(week), log, dims);
    LatestWhere(NotOld(week), LookbackStart(week), Supplies(log, dims), e.location.value, e.ingredient.value,
                e.time.value);
  }

  /** Supply lists that charge every waste event of some records alike give the same waste figures over them. */
  lemma SameChargesSameWaste(xs: seq<Supply>, ys: seq<Supply>, rs: seq<Event>, dims: Dimensions, week: int,
                             place: string)
    requires forall e :: e in rs && Eligible(e, dims, week) ==> ChargedCost(xs, e) == ChargedCost(ys, e)
    ensures Sum(WasteValue(xs, dims, week)(place), rs) == Sum(WasteValue(ys, dims, week)(place), rs)
    ensures Count(WasteUnvalued(xs, dims, week), rs) == Count(WasteUnvalued(ys, dims, week), rs)
  {
    SumAgrees(WasteValue(xs, dims, week)(place), WasteValue(ys, dims, week)(place), rs);
    CountAgrees(WasteUnvalued(xs, dims, week), WasteUnvalued(ys, dims, week), rs);
  }

  /** Waste on the extract, in log order, is waste on the log without the supplies older than the lookback. */
  lemma ExtractKeepsWaste(log: seq<Event>, dims: Dimensions, week: int, place: string)
    ensures
      var records, recent := Filter(Selects(week), log), Filter(Recent(week), log);
      WasteTotal(records, dims, week, place) == WasteTotal(recent, dims, week, place)
      && WasteMissing(records, dims, week) == WasteMissing(recent, dims, week)
  {
    var records, recent := Filter(Selects(week), log), Filter(Recent(week), log);
    var xs, ys := Supplies(records, dims), Supplies(recent, dims);
    forall e | Eligible(e, dims, week) ensures ChargedCost(xs, e) == ChargedCost(ys, e) {
      ChargedOnExtract(log, dims, week, e);
      ChargedOnRecent(log, dims, week, e);
    }
    SameChargesSameWaste(xs, ys, log, dims, week, place);
    SumOfFiltered(WasteValue(xs, dims, week)(place), Selects(week), log);
    SumOfFiltered(WasteValue(ys, dims, week)(place), Recent(week), log);
    CountOfFiltered(WasteUnvalued(xs, dims, week), Selects(week), log);
    CountOfFiltered(WasteUnvalued(ys, dims, week), Recent(week), log);
  }

  // ---------- rows of equal timestamp ----------

  /** `s` matches, and no match of `xs` is later. */
  ghost predicate AtLatest(xs: seq<Supply>, location: string, ingredient: string, time: int, s: Supply) {
    && s in xs && Matches(s, location, ingredient, time)
    && forall x :: x in xs && Matches(x, location, ingredient, time) ==> x.time <= s.time
  }

  /** All matching supplies at the latest instant have one cost. */
  ghost predicate OneLatestCost(xs: seq<Supply>, location: string, ingredient: string, time: int) {
    forall a, b :: AtLatest(xs, location, ingredient, time, a) && AtLatest(xs, location, ingredient, time, b)
                   ==> a.cost == b.cost
  }

  ghost predicate Settled(xs: seq<Supply>, e: Event)
    requires e.location.Some? && e.ingredient.Some? && e.time.Some?
  {
    OneLatestCost(xs, e.location.value, e.ingredient.value, e.time.value)
  }

  lemma LatestIsAtLatest(xs: seq<Supply>, location: string, ingredient: string, time: int)
    ensures
      var latest := Latest(xs, location, ingredient, time);
      if latest.None? then forall x :: x in xs ==> !Matches(x, location, ingredient, time)
      else AtLatest(xs, location, ingredient, time, latest.value)
  {
    LatestIsLatest(xs, location, ingredient, time);
  }

  lemma SettledCost(xs: seq<Supply>, ys: seq<Supply>, location: string, ingredient: string, time: int)
    requires OneLatestCost(xs, location, ingredient, time) && forall s :: s in xs <==> s in ys
    ensures Cost(Latest(xs, location, ingredient, time)) == Cost(Latest(ys, location, ingredient, time))
  {
    LatestIsAtLatest(xs, location, ingredient, time);
    LatestIsAtLatest(ys, location, ingredient, time);
    var a, b := Latest(xs, location, ingredient, time), Latest(ys, location, ingredient, time);
    assert a.Some? ==> a.value in ys;
    assert b.Some? ==> b.value in xs;
    if a.Some? && b.Some? {
      assert AtLatest(xs, location, ingredient, time, b.value);
    }
  }

  lemma {:induction false} SuppliesHold(rs: seq<Event>, dims: Dimensions, s: Supply)
    ensures s in Supplies(rs, dims) <==> exists e :: e in rs && CostBearing(e, dims) && AsSupply(e) == s
  {
    if rs != [] {
      var rest, last := rs[..|rs| - 1], rs[|rs| - 1];
      SuppliesHold(rest, dims, s);
      assert rs == rest + [last];
    }
  }

  lemma SuppliesOfRearranged(a: seq<Event>, b: seq<Event>, dims: Dimensions)
    requires multiset(a) == multiset(b)
    ensures forall s :: s in Supplies(a, dims) <==> s in Supplies(b, dims)
  {
    assert forall e :: e in a <==> e in multiset(a);
    assert forall e :: e in b <==> e in multiset(b);
    forall s ensures s in Supplies(a, dims) <==> s in Supplies(b, dims) {
      SuppliesHold(a, dims, s);
      SuppliesHold(b, dims, s);
    }
  }

  /** Any matching supply at the latest instant is the charged one once its record comes last. */
  lemma LastRecordIsCharged(rs: seq<Event>, dims: Dimensions, e: Event, s: Supply) returns (qs: seq<Event>)
    requires e.location.Some? && e.ingredient.Some? && e.time.Some?
    requires AtLatest(Supplies(rs, dims), e.location.value, e.ingredient.value, e.time.value, s)
    ensures multiset(qs) == multiset(rs) && ChargedCost(Supplies(qs, dims), e) == Some(s.cost)
  {
    SuppliesHold(rs, dims, s);
    var r :| r in rs && CostBearing(r, dims) && AsSupply(r) == s;
    var i :| 0 <= i < |rs| && rs[i] == r;
    var rest := rs[..i] + rs[i + 1..];
    qs := rest + [r];
    assert rs == rs[..i] + [r] + rs[i + 1..];
    assert multiset(qs) == multiset(rs);
    SuppliesSnoc(rest, r, dims);
    SuppliesOfRearranged(qs, rs, dims);
    LatestSnoc(Supplies(rest, dims), s, e.location.value, e.ingredient.value, e.time.value);
    LatestIsAtLatest(Supplies(rest, dims), e.location.value, e.ingredient.value, e.time.value);
    assert forall x :: x in Supplies(rest, dims) ==> x in Supplies(qs, dims);
  }

  /**
   What a waste event is charged does not depend on the order of the records if and only if all its
   matching supplies at the latest instant have one cost.
   */
  lemma ChargeIsOrderFreeExactly(rs: seq<Event>, dims: Dimensions, e: Event)
    requires e.location.Some? && e.ingredient.Some? && e.time.Some?
    ensures (forall qs :: multiset(qs) == multiset(rs) ==>
               ChargedCost(Supplies(qs, dims), e) == ChargedCost(Supplies(rs, dims), e))
            <==> Settled(Supplies(rs, dims), e)
  {
    var xs, location, ingredient, time := Supplies(rs, dims), e.location.value, e.ingredient.value, e.time.value;
    if Settled(xs, e) {
      forall qs | multiset(qs) == multiset(rs) ensures ChargedCost(Supplies(qs, dims), e) == ChargedCost(xs, e) {
        SuppliesOfRearranged(rs, qs, dims);
        SettledCost(xs, Supplies(qs, dims), location, ingredient, time);
      }
    } else {
      var a, b :| AtLatest(xs, location, ingredient, time, a) && AtLatest(xs, location, ingredient, time, b)
                  && a.cost != b.cost;
      var qa := LastRecordIsCharged(rs, dims, e, a);
      var qb := LastRecordIsCharged(rs, dims, e, b);
      assert ChargedCost(Supplies(qa, dims), e) != ChargedCost(Supplies(qb, dims), e);
    }
  }

  /** Every waste event of the week among the records is settled: no tie of its own latest supplies decides. */
  ghost predicate AllSettled(rs: seq<Event>, dims: Dimensions, week: int) {
    forall e :: e in rs && Eligible(e, dims, week) ==> Settled(Supplies(rs, dims), e)
  }

  /** The waste figures do not depend on the order of the records when every charged event is settled. */
  lemma WasteOfRearranged(a: seq<Event>, b: seq<Event>, dims: Dimensions, week: int, place: string)
    requires multiset(a) == multiset(b) && AllSettled(a, dims, week)
    ensures WasteTotal(a, dims, week, place) == WasteTotal(b, dims, week, place)
    ensures WasteMissing(a, dims, week) == WasteMissing(b, dims, week)
  {
    var xs, ys := Supplies(a, dims), Supplies(b, dims);
    SuppliesOfRearranged(a, b, dims);
    forall e | e in a && Eligible(e, dims, week) ensures ChargedCost(xs, e) == ChargedCost(ys, e) {
      SettledCost(xs, ys, e.location.value, e.ingredient.value, e.time.value);
    }
    SameChargesSameWaste(xs, ys, a, dims, week, place);
    SumOfRearranged(WasteValue(ys, dims, week)(place), a, b);
    CountOfRearranged(WasteUnvalued(ys, dims, week), a, b);
  }

  /** The waste theorem for any order of the extracted rows; only ties inside the extract can matter. */
  lemma ExtractKeepsWasteInAnyOrder(records: seq<Event>, log: seq<Event>, dims: Dimensions, week: int, place: string)
    requires IsExtract(records, log, week) && AllSettled(Filter(Selects(week), log), dims, week)
    ensures
      var recent := Filter(Recent(week), log);
      WasteTotal(records, dims, week, place) == WasteTotal(recent, dims, week, place)
      && WasteMissing(records, dims, week) == WasteMissing(recent, dims, week)
  {
    WasteOfRearranged(Filter(Selects(week), log), records, dims, week, place);
    ExtractKeepsWaste(log, dims, week, place);
  }

  /**
   The whole row, in any order of the extracted rows: the row reported from the extract is the one
   reported from the log, with the waste, and the ratio with it, reported from the log without old supplies.
   */
  lemma ExtractKeepsRow(records: seq<Event>, log: seq<Event>, dims: Dimensions, week: int, place: string,
                        onExtract: Row, onLog: Row, onRecent: Row)
    requires place in dims && IsExtract(records, log, week) && AllSettled(Filter(Selects(week), log), dims, week)
    requires Reports(onExtract, records, dims, week, place) && Reports(onLog, log, dims, week, place)
    requires Reports(onRecent, Filter(Recent(week), log), dims, week, place)
    ensures onExtract == onLog.(waste := onRecent.waste, ratio := onExtract.ratio)
  {
    ReportsExactly(onExtract, records, dims, week, place);
    ReportsExactly(onLog, log, dims, week, place);
    ReportsExactly(onRecent, Filter(Recent(week), log), dims, week, place);
    ExtractKeepsPurchases(records, log, dims, week, place);
    ExtractKeepsStockouts(records, log, dims, week, place);
    ExtractKeepsAlerts(records, log, dims, week, place);
    ExtractKeepsWasteInAnyOrder(records, log, dims, week, place);
  }

  /** Some supply of the log can be charged for the waste event `e`; `from` limits how old it may be. */
  ghost predicate HasSupply(log: seq<Event>, dims: Dimensions, e: Event, from: int)
    requires e.location.Some? && e.ingredient.Some? && e.time.Some?
  {
    exists s :: && s in Supplies(log, dims) && from <= s.time
                && Matches(s, e.location.value, e.ingredient.value, e.time.value)
  }

  lemma LatestDecides(xs: seq<Supply>, location: string, ingredient: string, time: int, from: int)
    ensures
      var latest := Latest(xs, location, ingredient, time);
      (latest.Some? && latest.value.time >= from) <==>
        (exists s :: s in xs && Matches(s, location, ingredient, time) && from <= s.time)
  {
    LatestIsLatest(xs, location, ingredient, time);
  }

  /**
   A waste event of the week is charged on the extract exactly as on the whole log if and only if it
   has a matching supply within the lookback, or none at all. Otherwise the log has a cost for it and
   the extract counts it as missing.
   */
  lemma ChargedAlikeExactly(log: seq<Event>, dims: Dimensions, week: int, e: Event)
    requires Eligible(e, dims, week)
    ensures
      var onExtract := ChargedCost(Supplies(Filter(Selects(week), log), dims), e);
      var onLog := ChargedCost(Supplies(log, dims), e);
      onExtract == onLog <==>
        HasSupply(log, dims, e, LookbackStart(week)) || !(exists from :: HasSupply(log, dims, e, from))
  {
    var xs := Supplies(log, dims);
    var location, ingredient, time := e.location.value, e.ingredient.value, e.time.value;
    ChargedOnExtract(log, dims, week, e);
    LatestDecides(xs, location, ingredient, time, LookbackStart(week));
    var latest := Latest(xs, location, ingredient, time);
    if latest.Some? {
      LatestDecides(xs, location, ingredient, time, latest.value.time);
      assert HasSupply(log, dims, e, latest.value.time);
    } else {
      LatestIsLatest(xs, location, ingredient, time);
    }
  }
}
