/** Telemetry events after parsing, and running totals over them for each location. */
module KpiEvents {
  import opened Folds
  import opened Options

  datatype Kind = SupplyOrder | ConsumptionOrder | StockThreshold | OtherKind

  /** Parsed fields; None where a field is missing or has the wrong type. Times are UTC instants. */
  datatype Event = Event(
    kind: Kind,
    time: Option<int>,
    location: Option<string>,
    ingredient: Option<string>,
    quantity: Option<real>,
    unitCost: Option<real>,
    reason: Option<string>)

  /** The location table: the keys are the locations reported on. */
  datatype Place = Place(country: string, currency: string)
  type Dimensions = map<string, Place>

  const DAY: int := 24 * 3600
  const WEEK: int := 7 * DAY
  const PRICE_ALERT_BASELINE_WEEKS: int := 4

  predicate InWindow(e: Event, from: int, to: int) {
    e.time.Some? && from <= e.time.value < to
  }

  predicate InWeek(e: Event, week: int) {
    InWindow(e, week, week + WEEK)
  }

  predicate Located(e: Event, dims: Dimensions) {
    e.location.Some? && e.location.value in dims
  }

  predicate At(e: Event, place: string) {
    e.location == Some(place)
  }

  // ---------- one running total for each location ----------

  /** Every reported location, and no other, holds the sum of its own values over `rs`. */
  ghost predicate TotalsAre(totals: map<string, real>, dims: Dimensions, value: string -> Event -> real, rs: seq<Event>)
  {
    && totals.Keys == dims.Keys
    && forall place :: place in dims ==> totals[place] == Sum(value(place), rs)
  }

  ghost predicate CountsAre<T>(counts: map<string, nat>, dims: Dimensions, counted: string -> T -> bool, rs: seq<T>) {
    && counts.Keys == dims.Keys
    && forall place :: place in dims ==> counts[place] == Count(counted(place), rs)
  }

  /** Adding the value of the next event at its own location brings the totals one event further. */
  lemma TotalsStep(totals: map<string, real>, dims: Dimensions, value: string -> Event -> real, rs: seq<Event>,
                   i: nat, here: string, amount: real)
    requires i < |rs| && here in dims && TotalsAre(totals, dims, value, rs[..i]) && value(here)(rs[i]) == amount
    requires forall place :: place in dims && place != here ==> value(place)(rs[i]) == 0.0
    ensures TotalsAre(totals[here := totals[here] + amount], dims, value, rs[..i + 1])
  {
    forall place | place in dims
      ensures Sum(value(place), rs[..i + 1]) == Sum(value(place), rs[..i]) + value(place)(rs[i])
    {
      SumSnoc(value(place), rs, i);
    }
  }

  lemma TotalsKept(totals: map<string, real>, dims: Dimensions, value: string -> Event -> real, rs: seq<Event>, i: nat)
    requires i < |rs| && TotalsAre(totals, dims, value, rs[..i])
    requires forall place :: place in dims ==> value(place)(rs[i]) == 0.0
    ensures TotalsAre(totals, dims, value, rs[..i + 1])
  {
    forall place | place in dims ensures Sum(value(place), rs[..i + 1]) == Sum(value(place), rs[..i]) {
      SumSnoc(value(place), rs, i);
    }
  }

  lemma CountsStep<T>(counts: map<string, nat>, dims: Dimensions, counted: string -> T -> bool, rs: seq<T>,
                   i: nat, here: string)
    requires i < |rs| && here in dims && CountsAre(counts, dims, counted, rs[..i])
    requires forall place :: place in dims ==> (counted(place)(rs[i]) <==> place == here)
    ensures CountsAre(counts[here := counts[here] + 1], dims, counted, rs[..i + 1])
  {
    forall place | place in dims
      ensures Count(counted(place), rs[..i + 1]) == Count(counted(place), rs[..i]) + (if place == here then 1 else 0)
    {
      CountSnoc(counted(place), rs, i);
    }
  }

  lemma CountsKept<T>(counts: map<string, nat>, dims: Dimensions, counted: string -> T -> bool, rs: seq<T>, i: nat)
    requires i < |rs| && CountsAre(counts, dims, counted, rs[..i])
    requires forall place :: place in dims ==> !counted(place)(rs[i])
    ensures CountsAre(counts, dims, counted, rs[..i + 1])
  {
    forall place | place in dims ensures Count(counted(place), rs[..i + 1]) == Count(counted(place), rs[..i]) {
      CountSnoc(counted(place), rs, i);
    }
  }
}
