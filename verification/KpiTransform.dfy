/** The order-independent weekly figures, and the rows assembled from all four computations. */
module KpiTransform {
  import opened Folds
  import opened Options
  import opened KpiEvents
  import KpiAlerts
  import KpiReport
  import KpiWaste

  // ---------- purchases ----------

  /** A supply order of the week at a known location with a numeric quantity; its cost may be missing. */
  predicate Purchased(e: Event, dims: Dimensions, week: int) {
    e.kind == SupplyOrder && InWeek(e, week) && Located(e, dims) && e.quantity.Some?
  }

  function PurchaseValue(dims: Dimensions, week: int): string -> Event -> real {
    (place: string) => (e: Event) =>
      if Purchased(e, dims, week) && At(e, place) && e.unitCost.Some?
      then e.quantity.value * e.unitCost.value else 0.0
  }

  function PurchaseUnpriced(dims: Dimensions, week: int): Event -> bool {
    (e: Event) => Purchased(e, dims, week) && e.unitCost.None?
  }

  method ComputePurchaseCosts(rs: seq<Event>, dims: Dimensions, week: int)
    returns (totals: map<string, real>, missing: nat)
    ensures TotalsAre(totals, dims, PurchaseValue(dims, week), rs)
    ensures missing == Count(PurchaseUnpriced(dims, week), rs)
  {
    totals := map place | place in dims :: 0.0;
    missing := 0;
    for i := 0 to |rs|
      invariant TotalsAre(totals, dims, PurchaseValue(dims, week), rs[..i])
      invariant missing == Count(PurchaseUnpriced(dims, week), rs[..i])
    {
      var e := rs[i];
      CountSnoc(PurchaseUnpriced(dims, week), rs, i);
      if !Purchased(e, dims, week) {
        TotalsKept(totals, dims, PurchaseValue(dims, week), rs, i);
        continue;
      }
      if e.unitCost.None? {
        missing := missing + 1;
        TotalsKept(totals, dims, PurchaseValue(dims, week), rs, i);
        continue;
      }
      var amount := e.quantity.value * e.unitCost.value;
      TotalsStep(totals, dims, PurchaseValue(dims, week), rs, i, e.location.value, amount);
      totals := totals[e.location.value := totals[e.location.value] + amount];
    }
    assert rs[..|rs|] == rs;
  }

  // ---------- stockouts ----------

  function Stockout(dims: Dimensions, week: int): string -> Event -> bool {
    (place: string) => (e: Event) =>
      e.kind == StockThreshold && InWeek(e, week) && Located(e, dims) && At(e, place)
  }

  method ComputeStockoutCounts(rs: seq<Event>, dims: Dimensions, week: int) returns (counts: map<string, nat>)
    ensures CountsAre(counts, dims, Stockout(dims, week), rs)
  {
    counts := map place | place in dims :: 0;
    for i := 0 to |rs|
      invariant CountsAre(counts, dims, Stockout(dims, week), rs[..i])
    {
      var e := rs[i];
      if e.kind == StockThreshold && InWeek(e, week) && Located(e, dims) {
        CountsStep(counts, dims, Stockout(dims, week), rs, i, e.location.value);
        counts := counts[e.location.value := counts[e.location.value] + 1];
      } else {
        CountsKept(counts, dims, Stockout(dims, week), rs, i);
      }
    }
    assert rs[..|rs|] == rs;
  }

  // ---------- the rows ----------

  datatype Row = Row(
    location: string,
    country: string,
    week: int,
    purchase: real,
    waste: real,
    ratio: real,
    stockouts: nat,
    alerts: nat,
    currency: string)

  /** Waste over purchases, and zero in a week without purchases. */
  function WasteRatio(purchase: real, waste: real): (ratio: real)
    ensures purchase != 0.0 ==> ratio * purchase == waste
    ensures purchase == 0.0 ==> ratio == 0.0
  {
    if purchase == 0.0 then 0.0 else waste / purchase
  }

  function PurchaseTotal(rs: seq<Event>, dims: Dimensions, week: int, place: string): real {
    Sum(PurchaseValue(dims, week)(place), rs)
  }

  function PurchaseMissing(rs: seq<Event>, dims: Dimensions, week: int): nat {
    Count(PurchaseUnpriced(dims, week), rs)
  }

  function StockoutTotal(rs: seq<Event>, dims: Dimensions, week: int, place: string): nat {
    Count(Stockout(dims, week)(place), rs)
  }

  function RowFor(rs: seq<Event>, dims: Dimensions, week: int, place: string): Row
    requires place in dims
  {
    var purchase := PurchaseTotal(rs, dims, week, place);
    var waste := KpiWaste.WasteTotal(rs, dims, week, place);
    Row(place, dims[place].country, week, purchase, waste, WasteRatio(purchase, waste),
        StockoutTotal(rs, dims, week, place), KpiAlerts.AlertTotal(rs, dims, week, place), dims[place].currency)
  }

  /** The row's fields say of the place and its events what their names say. */
  ghost predicate Reports(r: Row, rs: seq<Event>, dims: Dimensions, week: int, place: string)
    requires place in dims
  {
    && r.location == place && r.country == dims[place].country && r.currency == dims[place].currency && r.week == week
    && r.purchase == Sum(KpiReport.Spent(place, week), rs)
    && r.waste == Sum(KpiReport.Wasted(rs, place, week), rs)
    && (if r.purchase != 0.0 then r.ratio * r.purchase == r.waste else r.ratio == 0.0)
    && r.stockouts == Count(KpiReport.Emptied(place, week), rs)
    && r.alerts == Count(KpiReport.Surprising(rs, place, week), rs)
  }

  lemma PurchaseIsSpent(rs: seq<Event>, dims: Dimensions, week: int, place: string)
    requires place in dims
    ensures PurchaseTotal(rs, dims, week, place) == Sum(KpiReport.Spent(place, week), rs)
  {
    SumAgrees(PurchaseValue(dims, week)(place), KpiReport.Spent(place, week), rs);
  }

  lemma StockoutIsEmptied(rs: seq<Event>, dims: Dimensions, week: int, place: string)
    requires place in dims
    ensures StockoutTotal(rs, dims, week, place) == Count(KpiReport.Emptied(place, week), rs)
  {
    CountAgrees(Stockout(dims, week)(place), KpiReport.Emptied(place, week), rs);
  }

  lemma MissingIsMissing(rs: seq<Event>, dims: Dimensions, week: int)
    ensures PurchaseMissing(rs, dims, week) == Count(KpiReport.WithoutPrice(dims, week), rs)
  {
    CountAgrees(PurchaseUnpriced(dims, week), KpiReport.WithoutPrice(dims, week), rs);
  }

  lemma QuotientIsUnique(p: real, a: real, b: real)
    requires p != 0.0 && a * p == b * p
    ensures a == b
  {
    assert (a - b) * p == a * p - b * p;
  }

  /** The report determines the row, and it is the one that is assembled. */
  lemma ReportsExactly(r: Row, rs: seq<Event>, dims: Dimensions, week: int, place: string)
    requires place in dims
    ensures Reports(r, rs, dims, week, place) <==> r == RowFor(rs, dims, week, place)
  {
    PurchaseIsSpent(rs, dims, week, place);
    KpiReport.WasteIsCharged(rs, dims, week, place);
    StockoutIsEmptied(rs, dims, week, place);
    KpiReport.AlertsAreSurprising(rs, dims, week, place);
    var row := RowFor(rs, dims, week, place);
    assert Reports(row, rs, dims, week, place);
    if Reports(r, rs, dims, week, place) && r.purchase != 0.0 {
      QuotientIsUnique(r.purchase, r.ratio, row.ratio);
    }
  }

  /**
   transform_week: one row per location of the table, in the table's order, and how many purchases and
   wasted quantities of reported locations have no cost.
   */
  method TransformWeek(rs: seq<Event>, places: seq<string>, dims: Dimensions, week: int)
    returns (rows: seq<Row>, missingCosts: nat)
    requires forall place :: place in places ==> place in dims
    ensures |rows| == |places|
    ensures forall i :: 0 <= i < |places| ==> Reports(rows[i], rs, dims, week, places[i])
    ensures missingCosts == Count(KpiReport.WithoutPrice(dims, week), rs)
                            + Count(KpiReport.WithoutCharge(rs, dims, week), rs)
  {
    var purchase, missingPurchase := ComputePurchaseCosts(rs, dims, week);
    var waste, missingWaste := KpiWaste.ComputeWasteCosts(rs, dims, week);
    var stockouts := ComputeStockoutCounts(rs, dims, week);
    var alerts := KpiAlerts.ComputePriceAlertCounts(rs, dims, week);
    rows := [];
    for i := 0 to |places|
      invariant |rows| == i
      invariant forall j :: 0 <= j < i ==> Reports(rows[j], rs, dims, week, places[j])
    {
      var place := places[i];
      var row := Row(place, dims[place].country, week, purchase[place], waste[place],
                     WasteRatio(purchase[place], waste[place]), stockouts[place], alerts[place],
                     dims[place].currency);
      ReportsExactly(row, rs, dims, week, place);
      rows := rows + [row];
    }
    MissingIsMissing(rs, dims, week);
    KpiReport.UnchargedIsMissing(rs, dims, week);
    missingCosts := missingPurchase + missingWaste;
  }
}
