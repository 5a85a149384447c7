/**
 Waste valuation: the supplies sorted by time, and for each waste event a scan that breaks at the
 first later supply.
 */
module KpiWaste {
  import opened Folds
  import opened Options
  import opened KpiEvents

  /** One cost-bearing supply, as the transform keeps it. */
  datatype Supply = Supply(time: int, location: string, ingredient: string, cost: real)

  predicate CostBearing(e: Event, dims: Dimensions) {
    e.kind == SupplyOrder && e.time.Some? && Located(e, dims) && e.ingredient.Some? && e.unitCost.Some?
  }

  function AsSupply(e: Event): Supply
    requires e.time.Some? && e.location.Some? && e.ingredient.Some? && e.unitCost.Some?
  {
    Supply(e.time.value, e.location.value, e.ingredient.value, e.unitCost.value)
  }

  /** The supplies in the order of the records. */
  function Supplies(rs: seq<Event>, dims: Dimensions): seq<Supply> {
    if rs == [] then []
    else
      var last := rs[|rs| - 1];
      Supplies(rs[..|rs| - 1], dims) + (if CostBearing(last, dims) then [AsSupply(last)] else [])
  }

  // ---------- what a waste event is charged ----------

  predicate Matches(s: Supply, location: string, ingredient: string, time: int) {
    s.location == location && s.ingredient == ingredient && s.time <= time
  }

  /**
   The reference: `s` at index `i` is the latest matching supply of `xs`; among supplies at the same
   instant the last in input order.
   */
  ghost predicate IsLatest(xs: seq<Supply>, location: string, ingredient: string, time: int, i: nat) {
    && i < |xs| && Matches(xs[i], location, ingredient, time)
    && forall j :: 0 <= j < |xs| && Matches(xs[j], location, ingredient, time) ==>
         xs[j].time < xs[i].time || (xs[j].time == xs[i].time && j <= i)
  }

  /** The latest matching supply, by one pass in input order. */
  function Latest(xs: seq<Supply>, location: string, ingredient: string, time: int): Option<Supply> {
    if xs == [] then None
    else
      var before := Latest(xs[..|xs| - 1], location, ingredient, time);
      var last := xs[|xs| - 1];
      if Matches(last, location, ingredient, time) && (before.None? || before.value.time <= last.time)
      then Some(last) else before
  }

  lemma LastIsLatest(rest: seq<Supply>, last: Supply, location: string, ingredient: string, time: int)
    requires Matches(last, location, ingredient, time)
    requires forall j :: 0 <= j < |rest| && Matches(rest[j], location, ingredient, time) ==> rest[j].time <= last.time
    ensures IsLatest(rest + [last], location, ingredient, time, |rest|)
  {
  }

  lemma EarlierStaysLatest(rest: seq<Supply>, last: Supply, location: string, ingredient: string, time: int, i: nat)
    requires IsLatest(rest, location, ingredient, time, i)
    requires Matches(last, location, ingredient, time) ==> last.time < rest[i].time
    ensures IsLatest(rest + [last], location, ingredient, time, i)
  {
  }

  /** The pass finds exactly the reference's supply, and finds none only when nothing matches. */
  lemma {:induction false} LatestIsLatest(xs: seq<Supply>, location: string, ingredient: string, time: int)
    ensures
      var latest := Latest(xs, location, ingredient, time);
      if latest.None? then forall j :: 0 <= j < |xs| ==> !Matches(xs[j], location, ingredient, time)
      else exists i: nat :: IsLatest(xs, location, ingredient, time, i) && xs[i] == latest.value
  {
    if xs != [] {
      var rest, last := xs[..|xs| - 1], xs[|xs| - 1];
      assert xs == rest + [last];
      LatestIsLatest(rest, location, ingredient, time);
      var before := Latest(rest, location, ingredient, time);
      if Matches(last, location, ingredient, time) && (before.None? || before.value.time <= last.time) {
        LastIsLatest(rest, last, location, ingredient, time);
      } else if before.Some? {
        var i: nat :| IsLatest(rest, location, ingredient, time, i) && rest[i] == before.value;
        EarlierStaysLatest(rest, last, location, ingredient, time, i);
      }
    }
  }

  // ---------- the stable sort and the scan ----------

  predicate SortedByTime(xs: seq<Supply>) {
    forall i, j :: 0 <= i < j < |xs| ==> xs[i].time <= xs[j].time
  }

  /** Insert after every element that is not later: this is what makes the sort stable. */
  function InsertByTime(xs: seq<Supply>, s: Supply): seq<Supply> {
    if xs == [] || xs[|xs| - 1].time <= s.time then xs + [s]
    else InsertByTime(xs[..|xs| - 1], s) + [xs[|xs| - 1]]
  }

  /** The stable sort by time. */
  function SortByTime(xs: seq<Supply>): seq<Supply> {
    if xs == [] then [] else InsertByTime(SortByTime(xs[..|xs| - 1]), xs[|xs| - 1])
  }

  lemma {:induction false} InsertSorts(xs: seq<Supply>, s: Supply)
    requires SortedByTime(xs)
    ensures SortedByTime(InsertByTime(xs, s))
    ensures forall x :: x in InsertByTime(xs, s) <==> x in xs || x == s
  {
    if xs != [] && xs[|xs| - 1].time > s.time {
      var rest, last := xs[..|xs| - 1], xs[|xs| - 1];
      InsertSorts(rest, s);
      assert xs == rest + [last];
      assert forall x :: x in InsertByTime(rest, s) ==> x.time <= last.time;
    }
  }

  lemma {:induction false} SortSorts(xs: seq<Supply>)
    ensures SortedByTime(SortByTime(xs))
  {
    if xs != [] {
      SortSorts(xs[..|xs| - 1]);
      InsertSorts(SortByTime(xs[..|xs| - 1]), xs[|xs| - 1]);
    }
  }

  /** The last matching element of a list, whatever its time. */
  function LastMatch(xs: seq<Supply>, location: string, ingredient: string, time: int): Option<Supply> {
    if xs == [] then None
    else if Matches(xs[|xs| - 1], location, ingredient, time) then Some(xs[|xs| - 1])
    else LastMatch(xs[..|xs| - 1], location, ingredient, time)
  }

  lemma {:induction false} LastMatchIn(xs: seq<Supply>, location: string, ingredient: string, time: int)
    ensures
      var m := LastMatch(xs, location, ingredient, time);
      m.Some? ==> m.value in xs && Matches(m.value, location, ingredient, time)
  {
    if xs != [] {
      LastMatchIn(xs[..|xs| - 1], location, ingredient, time);
    }
  }

  /** Inserting a supply into the sorted list moves the last match exactly as one step of `Latest` does. */
  lemma {:induction false} InsertMovesLastMatch(xs: seq<Supply>, s: Supply, location: string, ingredient: string,
                                                time: int)
    requires SortedByTime(xs)
    ensures
      var before := LastMatch(xs, location, ingredient, time);
      LastMatch(InsertByTime(xs, s), location, ingredient, time)
      == if Matches(s, location, ingredient, time) && (before.None? || before.value.time <= s.time) then Some(s)
         else before
  {
    LastMatchIn(xs, location, ingredient, time);
    if xs == [] || xs[|xs| - 1].time <= s.time {
      assert (xs + [s])[..|xs|] == xs;
    } else {
      var rest, last := xs[..|xs| - 1], xs[|xs| - 1];
      InsertMovesLastMatch(rest, s, location, ingredient, time);
      var inserted := InsertByTime(rest, s);
      assert (inserted + [last])[..|inserted|] == inserted;
    }
  }

  lemma {:induction false} SortingKeepsLatest(xs: seq<Supply>, location: string, ingredient: string, time: int)
    ensures LastMatch(SortByTime(xs), location, ingredient, time) == Latest(xs, location, ingredient, time)
  {
    if xs != [] {
      var rest := xs[..|xs| - 1];
      SortingKeepsLatest(rest, location, ingredient, time);
      SortSorts(rest);
      InsertMovesLastMatch(SortByTime(rest), xs[|xs| - 1], location, ingredient, time);
    }
  }

  /** Nothing after a later supply can match, so the scan may stop there. */
  lemma {:induction false} NothingMatchesLater(xs: seq<Supply>, n: nat, location: string, ingredient: string, time: int)
    requires n <= |xs| && forall j :: n <= j < |xs| ==> xs[j].time > time
    ensures LastMatch(xs, location, ingredient, time) == LastMatch(xs[..n], location, ingredient, time)
    decreases |xs| - n
  {
    if n < |xs| {
      var rest := xs[..|xs| - 1];
      NothingMatchesLater(rest, n, location, ingredient, time);
      assert rest[..n] == xs[..n];
    } else {
      assert xs[..n] == xs;
    }
  }

  /** The scan with the early break over the sorted supplies. */
  method ScanLatestCost(sorted: seq<Supply>, location: string, ingredient: string, time: int)
    returns (latest: Option<real>)
    requires SortedByTime(sorted)
    ensures latest == Cost(LastMatch(sorted, location, ingredient, time))
  {
    latest := None;
    for i := 0 to |sorted|
      invariant latest == Cost(LastMatch(sorted[..i], location, ingredient, time))
    {
      var s := sorted[i];
      if s.time > time {
        NothingMatchesLater(sorted, i, location, ingredient, time);
        return;
      }
      assert sorted[..i + 1][..i] == sorted[..i];
      if s.location == location && s.ingredient == ingredient {
        latest := Some(s.cost);
      }
    }
    assert sorted[..|sorted|] == sorted;
  }

  function Cost(s: Option<Supply>): Option<real> {
    if s.Some? then Some(s.value.cost) else None
  }

  // ---------- the two results of compute_waste_costs ----------

  /** A waste event the transform looks at. */
  predicate Eligible(e: Event, dims: Dimensions, week: int) {
    && e.kind == ConsumptionOrder && InWeek(e, week) && e.reason == Some("waste")
    && Located(e, dims) && e.ingredient.Some? && e.quantity.Some?
  }

  function ChargedCost(supplies: seq<Supply>, e: Event): Option<real>
    requires e.location.Some? && e.ingredient.Some? && e.time.Some?
  {
    Cost(Latest(supplies, e.location.value, e.ingredient.value, e.time.value))
  }

  function WasteValue(supplies: seq<Supply>, dims: Dimensions, week: int): string -> Event -> real {
    (place: string) => (e: Event) =>
      if Eligible(e, dims, week) && At(e, place) && ChargedCost(supplies, e).Some?
      then e.quantity.value * ChargedCost(supplies, e).value else 0.0
  }

  function WasteUnvalued(supplies: seq<Supply>, dims: Dimensions, week: int): Event -> bool {
    (e: Event) => Eligible(e, dims, week) && ChargedCost(supplies, e).None?
  }

  function WasteTotal(rs: seq<Event>, dims: Dimensions, week: int, place: string): real {
    Sum(WasteValue(Supplies(rs, dims), dims, week)(place), rs)
  }

  function WasteMissing(rs: seq<Event>, dims: Dimensions, week: int): nat {
    Count(WasteUnvalued(Supplies(rs, dims), dims, week), rs)
  }

  /** What one eligible waste event costs, read off the sorted supplies. */
  method ChargeEvent(sorted: seq<Supply>, ghost supplies: seq<Supply>, e: Event) returns (latest: Option<real>)
    requires sorted == SortByTime(supplies)
    requires e.location.Some? && e.ingredient.Some? && e.time.Some?
    ensures latest == ChargedCost(supplies, e)
  {
    SortSorts(supplies);
    latest := ScanLatestCost(sorted, e.location.value, e.ingredient.value, e.time.value);
    SortingKeepsLatest(supplies, e.location.value, e.ingredient.value, e.time.value);
  }

  method CollectSupplies(rs: seq<Event>, dims: Dimensions) returns (supplies: seq<Supply>)
    ensures supplies == Supplies(rs, dims)
  {
    supplies := [];
    for i := 0 to |rs|
      invariant supplies == Supplies(rs[..i], dims)
    {
      assert rs[..i + 1][..i] == rs[..i];
      if CostBearing(rs[i], dims) {
        supplies := supplies + [AsSupply(rs[i])];
      }
    }
    assert rs[..|rs|] == rs;
  }

  /** The second loop: each eligible waste event is charged from the sorted supplies or counted missing. */
  method ChargeEvents(rs: seq<Event>, sorted: seq<Supply>, ghost supplies: seq<Supply>, dims: Dimensions, week: int)
    returns (totals: map<string, real>, missing: nat)
    requires sorted == SortByTime(supplies)
    ensures TotalsAre(totals, dims, WasteValue(supplies, dims, week), rs)
    ensures missing == Count(WasteUnvalued(supplies, dims, week), rs)
  {
    totals := map place | place in dims :: 0.0;
    missing := 0;
    for i := 0 to |rs|
      invariant TotalsAre(totals, dims, WasteValue(supplies, dims, week), rs[..i])
      invariant missing == Count(WasteUnvalued(supplies, dims, week), rs[..i])
    {
      var e := rs[i];
      CountSnoc(WasteUnvalued(supplies, dims, week), rs, i);
      if !Eligible(e, dims, week) {
        TotalsKept(totals, dims, WasteValue(supplies, dims, week), rs, i);
        continue;
      }
      var latest := ChargeEvent(sorted, supplies, e);
      if latest.None? {
        missing := missing + 1;
        TotalsKept(totals, dims, WasteValue(supplies, dims, week), rs, i);
      } else {
        var amount := e.quantity.value * latest.value;
        TotalsStep(totals, dims, WasteValue(supplies, dims, week), rs, i, e.location.value, amount);
        totals := totals[e.location.value := totals[e.location.value] + amount];
      }
    }
    assert rs[..|rs|] == rs;
  }

  /** compute_waste_costs: every location gets the value of its eligible waste; the rest is counted. */
  method ComputeWasteCosts(rs: seq<Event>, dims: Dimensions, week: int)
    returns (totals: map<string, real>, missing: nat)
    ensures totals.Keys == dims.Keys
    ensures forall place :: place in dims ==> totals[place] == WasteTotal(rs, dims, week, place)
    ensures missing == WasteMissing(rs, dims, week)
  {
    var supplies := CollectSupplies(rs, dims);
    totals, missing := ChargeEvents(rs, SortByTime(supplies), supplies, dims, week);
  }

  /** Each eligible waste event is either valued at one location or counted missing, never both. */
  lemma WasteValuedOrMissing(rs: seq<Event>, dims: Dimensions, week: int)
    ensures
      var supplies := Supplies(rs, dims);
      Count((e: Event) => Eligible(e, dims, week) && ChargedCost(supplies, e).Some?, rs) + WasteMissing(rs, dims, week)
      == Count((e: Event) => Eligible(e, dims, week), rs)
  {
    var supplies := Supplies(rs, dims);
    CountPartition((e: Event) => Eligible(e, dims, week) && ChargedCost(supplies, e).Some?,
                   WasteUnvalued(supplies, dims, week), (e: Event) => Eligible(e, dims, week), rs);
  }

  lemma {:induction false} CountPartition(p: Event -> bool, q: Event -> bool, r: Event -> bool, rs: seq<Event>)
    requires forall e :: (p(e) || q(e) <==> r(e)) && !(p(e) && q(e))
    ensures Count(p, rs) + Count(q, rs) == Count(r, rs)
  {
    if rs != [] {
      CountPartition(p, q, r, rs[..|rs| - 1]);
    }
  }
}
