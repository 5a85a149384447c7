/** Price alerts: each supply of the week against the median of the four weeks before. */
module KpiAlerts {
  import opened Folds
  import opened Options
  import opened KpiEvents
  import opened KpiWaste

  /** 25 percent. */
  const THRESHOLD: real := 0.25

  type Pair = (string, string)

  function PairOf(e: Event): Pair
    requires e.location.Some? && e.ingredient.Some?
  {
    (e.location.value, e.ingredient.value)
  }

  // ---------- sorting and the median ----------

  predicate Ascending(xs: seq<real>) {
    forall i, j :: 0 <= i < j < |xs| ==> xs[i] <= xs[j]
  }

  function Insert(xs: seq<real>, x: real): (r: seq<real>)
    ensures multiset(r) == multiset(xs) + multiset{x}
  {
    if xs == [] || xs[|xs| - 1] <= x then xs + [x]
    else
      assert xs == xs[..|xs| - 1] + [xs[|xs| - 1]];
      Insert(xs[..|xs| - 1], x) + [xs[|xs| - 1]]
  }

  function Sorted(xs: seq<real>): (r: seq<real>)
    ensures multiset(r) == multiset(xs) && |r| == |xs|
  {
    if xs == [] then []
    else
      assert xs == xs[..|xs| - 1] + [xs[|xs| - 1]];
      var r := Insert(Sorted(xs[..|xs| - 1]), xs[|xs| - 1]);
      assert |multiset(r)| == |r| && |multiset(xs)| == |xs|;
      r
  }

  lemma {:induction false} InsertAscends(xs: seq<real>, x: real)
    requires Ascending(xs)
    ensures Ascending(Insert(xs, x))
  {
    if xs != [] && xs[|xs| - 1] > x {
      var rest, last := xs[..|xs| - 1], xs[|xs| - 1];
      InsertAscends(rest, x);
      var r := Insert(rest, x);
      forall i | 0 <= i < |r| ensures r[i] <= last {
        assert r[i] in multiset(r);
        assert r[i] in multiset(rest) + multiset{x};
      }
    }
  }

  lemma {:induction false} SortedAscends(xs: seq<real>)
    ensures Ascending(Sorted(xs))
  {
    if xs != [] {
      SortedAscends(xs[..|xs| - 1]);
      InsertAscends(Sorted(xs[..|xs| - 1]), xs[|xs| - 1]);
    }
  }

  lemma LastIsGreatest(a: seq<real>, b: seq<real>, n: nat)
    requires Ascending(b) && multiset(a) == multiset(b) && |a| == |b| == n + 1
    ensures a[n] <= b[n]
  {
    assert a[n] in multiset(b);
  }

  lemma WithoutLast(a: seq<real>, n: nat)
    requires |a| == n + 1
    ensures a == a[..n] + [a[n]] && multiset(a[..n]) == multiset(a) - multiset{a[n]}
  {
    assert a == a[..n] + [a[n]];
  }

  lemma SameLength(a: seq<real>, b: seq<real>)
    requires multiset(a) == multiset(b)
    ensures |a| == |b|
  {
    assert |a| == |multiset(a)| && |b| == |multiset(b)|;
  }

  lemma LastsAgree(a: seq<real>, b: seq<real>, n: nat)
    requires Ascending(a) && Ascending(b) && multiset(a) == multiset(b) && |a| == |b| == n + 1
    ensures a[n] == b[n] && multiset(a[..n]) == multiset(b[..n])
    ensures Ascending(a[..n]) && Ascending(b[..n])
  {
    LastIsGreatest(a, b, n);
    LastIsGreatest(b, a, n);
    WithoutLast(a, n);
    WithoutLast(b, n);
  }

  /** Two ascending arrangements of the same values are the same sequence. */
  lemma {:induction false} AscendingIsUnique(a: seq<real>, b: seq<real>)
    requires Ascending(a) && Ascending(b) && multiset(a) == multiset(b)
    ensures a == b
  {
    SameLength(a, b);
    if a != [] {
      var n := |a| - 1;
      LastsAgree(a, b, n);
      AscendingIsUnique(a[..n], b[..n]);
      assert a == a[..n] + [a[n]] && b == b[..n] + [b[n]];
    }
  }

  function Midpoint(a: real, b: real): real { (a + b) / 2.0 }

  /** The middle value; of an even number of values, halfway between the two middle ones. */
  function Middle(s: seq<real>): real
    requires s != []
  {
    var n := |s|;
    if n % 2 == 1 then s[n / 2] else Midpoint(s[n / 2 - 1], s[n / 2])
  }

  function Median(xs: seq<real>): real
    requires xs != []
  {
    Middle(Sorted(xs))
  }

  lemma MedianOfRearranged(a: seq<real>, b: seq<real>)
    requires a != [] && b != [] && multiset(a) == multiset(b)
    ensures Median(a) == Median(b)
  {
    SortedAscends(a);
    SortedAscends(b);
    AscendingIsUnique(Sorted(a), Sorted(b));
  }

  /** A bound on all values is a bound on the median. */
  lemma MedianBetween(xs: seq<real>, low: real, high: real)
    requires xs != [] && forall x :: x in xs ==> low <= x <= high
    ensures low <= Median(xs) <= high
  {
    var s := Sorted(xs);
    forall i | 0 <= i < |s| ensures low <= s[i] <= high {
      assert s[i] in multiset(s);
      assert s[i] in xs;
    }
  }

  // ---------- when a cost alerts ----------

  function Abs(x: real): real { if x < 0.0 then -x else x }

  /** The test the transform applies to one supply of the week, given the costs of the prior weeks. */
  predicate Alarming(prior: seq<real>, cost: real) {
    |prior| >= 2 && Median(prior) != 0.0 && Abs(cost - Median(prior)) / Median(prior) > THRESHOLD
  }

  lemma QuotientAbove(x: real, b: real)
    requires b > 0.0
    ensures x / b > THRESHOLD <==> x > THRESHOLD * b
  {
    assert x == (x / b) * b;
  }

  lemma QuotientBelow(x: real, b: real)
    requires b < 0.0 && x >= 0.0
    ensures x / b <= 0.0
  {
    assert x == (x / b) * b;
  }

  /** A supply alerts exactly when there is a positive median of at least two costs and the cost leaves its 25% band. */
  lemma AlarmingExactly(prior: seq<real>, cost: real)
    ensures Alarming(prior, cost) <==>
              && |prior| >= 2 && Median(prior) > 0.0
              && (cost < 0.75 * Median(prior) || cost > 1.25 * Median(prior))
  {
    if |prior| >= 2 {
      var b := Median(prior);
      if b > 0.0 {
        QuotientAbove(Abs(cost - b), b);
      } else if b < 0.0 {
        QuotientBelow(Abs(cost - b), b);
      }
    }
  }

  /**
   Positive prior costs: a cost within 25% of each of them never alerts; above 1.25 times all of them it
   always does.
   */
  lemma AlarmBand(prior: seq<real>, cost: real)
    requires |prior| >= 2 && forall p :: p in prior ==> p > 0.0
    ensures (forall p :: p in prior ==> 0.75 * p <= cost <= 1.25 * p) ==> !Alarming(prior, cost)
    ensures (forall p :: p in prior ==> cost > 1.25 * p) ==> Alarming(prior, cost)
  {
    AlarmingExactly(prior, cost);
    var s := Sorted(prior);
    SortedAscends(prior);
    var least, most := s[0], s[|s| - 1];
    assert least in multiset(s) && most in multiset(s);
    assert least in prior && most in prior;
    forall p | p in prior ensures least <= p <= most {
      assert p in multiset(prior);
      assert p in s;
    }
    MedianBetween(prior, least, most);
  }

  // ---------- scaling ----------

  function Times(k: real): real -> real {
    (x: real) => k * x
  }

  ghost predicate KeepsOrder(f: real -> real) {
    forall a, b :: a <= b <==> f(a) <= f(b)
  }

  lemma SignOfProduct(k: real, x: real)
    requires k > 0.0
    ensures k * x > 0.0 <==> x > 0.0
    ensures k * x < 0.0 <==> x < 0.0
  {
  }

  lemma ScaleCompares(k: real, a: real, b: real)
    requires k > 0.0
    ensures k * a < k * b <==> a < b
  {
    SignOfProduct(k, b - a);
    assert k * (b - a) == k * b - k * a;
  }

  lemma TimesKeepsOrder(k: real)
    requires k > 0.0
    ensures KeepsOrder(Times(k))
  {
    forall a, b ensures a <= b <==> Times(k)(a) <= Times(k)(b) {
      ScaleCompares(k, b, a);
    }
  }

  function Mapped(f: real -> real, xs: seq<real>): (r: seq<real>)
    ensures |r| == |xs| && forall i :: 0 <= i < |xs| ==> r[i] == f(xs[i])
  {
    if xs == [] then [] else Mapped(f, xs[..|xs| - 1]) + [f(xs[|xs| - 1])]
  }

  lemma {:induction false} InsertMaps(f: real -> real, xs: seq<real>, x: real)
    requires KeepsOrder(f)
    ensures Insert(Mapped(f, xs), f(x)) == Mapped(f, Insert(xs, x))
  {
    if xs == [] || xs[|xs| - 1] <= x {
      assert (xs + [x])[..|xs|] == xs;
    } else {
      var rest, last := xs[..|xs| - 1], xs[|xs| - 1];
      InsertMaps(f, rest, x);
      var r := Insert(rest, x);
      assert (r + [last])[..|r|] == r;
      assert Mapped(f, xs)[..|xs| - 1] == Mapped(f, rest);
    }
  }

  lemma {:induction false} SortedMaps(f: real -> real, xs: seq<real>)
    requires KeepsOrder(f)
    ensures Sorted(Mapped(f, xs)) == Mapped(f, Sorted(xs))
  {
    if xs != [] {
      var rest := xs[..|xs| - 1];
      SortedMaps(f, rest);
      InsertMaps(f, Sorted(rest), xs[|xs| - 1]);
      assert Mapped(f, xs)[..|xs| - 1] == Mapped(f, rest);
    }
  }

  ghost predicate KeepsMidpoints(f: real -> real) {
    forall a, b :: f(Midpoint(a, b)) == Midpoint(f(a), f(b))
  }

  ghost predicate KeepsBands(f: real -> real) {
    forall c, m :: KeepsBand(f, c, m)
  }

  predicate KeepsBand(f: real -> real, c: real, m: real) {
    && (f(m) > 0.0 <==> m > 0.0)
    && (f(c) < 0.75 * f(m) <==> c < 0.75 * m)
    && (f(c) > 1.25 * f(m) <==> c > 1.25 * m)
  }

  /** What a change of currency unit does to costs: it keeps their order, midpoints and 25% bands. */
  ghost predicate Rescales(f: real -> real) {
    KeepsOrder(f) && KeepsMidpoints(f) && KeepsBands(f)
  }

  /** One edge `q * m` of the band, on either side of `c`; the products carry names so that the rest is linear. */
  lemma EdgeScales(k: real, q: real, c: real, m: real, kc: real, km: real)
    requires k > 0.0 && kc == k * c && km == k * m
    ensures kc < q * km <==> c < q * m
    ensures kc > q * km <==> c > q * m
  {
    var edge := q * m;
    ScaleCompares(k, c, edge);
    ScaleCompares(k, edge, c);
    assert k * edge == q * km;
  }

  lemma BandScales(k: real, c: real, m: real)
    requires k > 0.0
    ensures KeepsBand(Times(k), c, m)
  {
    var kc, km := Times(k)(c), Times(k)(m);
    SignOfProduct(k, m);
    EdgeScales(k, 0.75, c, m, kc, km);
    EdgeScales(k, 1.25, c, m, kc, km);
  }

  lemma MidpointScales(k: real, a: real, b: real)
    ensures Times(k)(Midpoint(a, b)) == Midpoint(Times(k)(a), Times(k)(b))
  {
  }

  lemma TimesRescales(k: real)
    requires k > 0.0
    ensures Rescales(Times(k))
  {
    TimesKeepsOrder(k);
    forall a, b ensures Times(k)(Midpoint(a, b)) == Midpoint(Times(k)(a), Times(k)(b)) {
      MidpointScales(k, a, b);
    }
    forall c, m ensures KeepsBand(Times(k), c, m) {
      BandScales(k, c, m);
    }
  }

  lemma MiddleMaps(f: real -> real, s: seq<real>)
    requires KeepsMidpoints(f) && s != []
    ensures Middle(Mapped(f, s)) == f(Middle(s))
  {
  }

  lemma MedianMaps(f: real -> real, prior: seq<real>)
    requires Rescales(f) && prior != []
    ensures Median(Mapped(f, prior)) == f(Median(prior))
  {
    SortedMaps(f, prior);
    MiddleMaps(f, Sorted(prior));
  }

  /** A change of unit changes no alert. */
  lemma AlarmingMaps(f: real -> real, prior: seq<real>, cost: real)
    requires Rescales(f)
    ensures Alarming(Mapped(f, prior), f(cost)) == Alarming(prior, cost)
  {
    AlarmingExactly(prior, cost);
    AlarmingExactly(Mapped(f, prior), f(cost));
    if |prior| >= 2 {
      MedianMaps(f, prior);
      assert KeepsBand(f, cost, Median(prior));
    }
  }

  // ---------- the baseline of a pair ----------

  predicate InBaseline(e: Event, dims: Dimensions, week: int, pair: Pair) {
    CostBearing(e, dims) && InWindow(e, week - PRICE_ALERT_BASELINE_WEEKS * WEEK, week) && PairOf(e) == pair
  }

  /** The costs of one pair over the weeks before `week`, in record order. */
  function Baseline(rs: seq<Event>, dims: Dimensions, week: int, pair: Pair): seq<real> {
    if rs == [] then []
    else
      var last := rs[|rs| - 1];
      Baseline(rs[..|rs| - 1], dims, week, pair)
      + (if InBaseline(last, dims, week, pair) then [last.unitCost.value] else [])
  }

  function InBaselineAt(dims: Dimensions, week: int, pair: Pair, cost: real): Event -> bool {
    (e: Event) => InBaseline(e, dims, week, pair) && e.unitCost == Some(cost)
  }

  lemma {:induction false} BaselineCounts(rs: seq<Event>, dims: Dimensions, week: int, pair: Pair, cost: real)
    ensures multiset(Baseline(rs, dims, week, pair))[cost] == Count(InBaselineAt(dims, week, pair, cost), rs)
  {
    if rs != [] {
      BaselineCounts(rs[..|rs| - 1], dims, week, pair, cost);
    }
  }

  /** Record lists with the same number of baseline supplies at each cost have the same baseline up to order. */
  lemma BaselinesMatch(a: seq<Event>, b: seq<Event>, dims: Dimensions, week: int, pair: Pair)
    requires forall cost ::
               Count(InBaselineAt(dims, week, pair, cost), a) == Count(InBaselineAt(dims, week, pair, cost), b)
    ensures multiset(Baseline(a, dims, week, pair)) == multiset(Baseline(b, dims, week, pair))
  {
    forall cost
      ensures multiset(Baseline(a, dims, week, pair))[cost] == multiset(Baseline(b, dims, week, pair))[cost]
    {
      BaselineCounts(a, dims, week, pair, cost);
      BaselineCounts(b, dims, week, pair, cost);
    }
  }

  lemma AlarmingOfRearranged(a: seq<real>, b: seq<real>, cost: real)
    requires multiset(a) == multiset(b)
    ensures Alarming(a, cost) == Alarming(b, cost)
  {
    assert |multiset(a)| == |a| && |multiset(b)| == |b|;
    if |a| >= 2 {
      MedianOfRearranged(a, b);
    }
  }

  // ---------- alerts of a week ----------

  /** A supply of the week that goes into the comparison. */
  predicate Compared(e: Event, dims: Dimensions, week: int) {
    CostBearing(e, dims) && InWeek(e, week)
  }

  /** `rs` supplies the baselines. */
  function Alerts(rs: seq<Event>, dims: Dimensions, week: int): string -> Event -> bool {
    (place: string) => (e: Event) =>
      Compared(e, dims, week) && At(e, place) && Alarming(Baseline(rs, dims, week, PairOf(e)), e.unitCost.value)
  }

  function AlertTotal(rs: seq<Event>, dims: Dimensions, week: int, place: string): nat {
    Count(Alerts(rs, dims, week)(place), rs)
  }

  // ---------- compute_price_alert_counts ----------

  datatype Priced = Priced(location: string, ingredient: string, cost: real)

  function AsPriced(e: Event): Priced
    requires e.location.Some? && e.ingredient.Some? && e.unitCost.Some?
  {
    Priced(e.location.value, e.ingredient.value, e.unitCost.value)
  }

  function WeekSupplies(rs: seq<Event>, dims: Dimensions, week: int): seq<Priced> {
    if rs == [] then []
    else
      var last := rs[|rs| - 1];
      WeekSupplies(rs[..|rs| - 1], dims, week) + (if Compared(last, dims, week) then [AsPriced(last)] else [])
  }

  /** The history dictionary holds exactly the non-empty baselines. */
  ghost predicate HistoryOf(history: map<Pair, seq<real>>, rs: seq<Event>, dims: Dimensions, week: int) {
    forall pair :: Prior(history, pair) == Baseline(rs, dims, week, pair)
  }

  function Prior(history: map<Pair, seq<real>>, pair: Pair): seq<real> {
    if pair in history then history[pair] else []
  }

  lemma HistoryGrows(history: map<Pair, seq<real>>, rs: seq<Event>, dims: Dimensions, week: int, i: nat)
    requires i < |rs| && HistoryOf(history, rs[..i], dims, week)
    ensures
      var e := rs[i];
      HistoryOf(if CostBearing(e, dims) && InBaseline(e, dims, week, PairOf(e))
                then history[PairOf(e) := Prior(history, PairOf(e)) + [e.unitCost.value]] else history,
                rs[..i + 1], dims, week)
  {
    assert rs[..i + 1][..i] == rs[..i];
    var e := rs[i];
    forall pair
      ensures Baseline(rs[..i + 1], dims, week, pair)
           == Baseline(rs[..i], dims, week, pair) + (if InBaseline(e, dims, week, pair) then [e.unitCost.value] else [])
    {
    }
  }

  method ReadSupplies(rs: seq<Event>, dims: Dimensions, week: int)
    returns (history: map<Pair, seq<real>>, supplies: seq<Priced>)
    ensures HistoryOf(history, rs, dims, week)
    ensures supplies == WeekSupplies(rs, dims, week)
  {
    history, supplies := map[], [];
    for i := 0 to |rs|
      invariant HistoryOf(history, rs[..i], dims, week)
      invariant supplies == WeekSupplies(rs[..i], dims, week)
    {
      var e := rs[i];
      HistoryGrows(history, rs, dims, week, i);
      assert rs[..i + 1][..i] == rs[..i];
      if !CostBearing(e, dims) {
        continue;
      }
      var pair := PairOf(e);
      if InWindow(e, week - PRICE_ALERT_BASELINE_WEEKS * WEEK, week) {
        history := history[pair := Prior(history, pair) + [e.unitCost.value]];
      } else if InWeek(e, week) {
        supplies := supplies + [AsPriced(e)];
      }
    }
    assert rs[..|rs|] == rs;
  }

  function AlertsAmong(rs: seq<Event>, dims: Dimensions, week: int): string -> Priced -> bool {
    (place: string) => (p: Priced) =>
      p.location == place && Alarming(Baseline(rs, dims, week, (p.location, p.ingredient)), p.cost)
  }

  lemma {:induction false} ListCountsEvents(source: seq<Event>, rs: seq<Event>, dims: Dimensions, week: int,
                                            place: string)
    ensures Count(AlertsAmong(source, dims, week)(place), WeekSupplies(rs, dims, week))
         == Count(Alerts(source, dims, week)(place), rs)
  {
    if rs != [] {
      var rest := rs[..|rs| - 1];
      ListCountsEvents(source, rest, dims, week, place);
      var listed := WeekSupplies(rest, dims, week);
      var last := rs[|rs| - 1];
      if Compared(last, dims, week) {
        assert WeekSupplies(rs, dims, week) == listed + [AsPriced(last)];
        assert (listed + [AsPriced(last)])[..|listed|] == listed;
        assert AlertsAmong(source, dims, week)(place)(AsPriced(last)) == Alerts(source, dims, week)(place)(last);
      } else {
        assert WeekSupplies(rs, dims, week) == listed;
      }
    }
  }

  lemma {:induction false} ListedAreLocated(rs: seq<Event>, dims: Dimensions, week: int)
    ensures forall p :: p in WeekSupplies(rs, dims, week) ==> p.location in dims
  {
    if rs != [] {
      ListedAreLocated(rs[..|rs| - 1], dims, week);
    }
  }

  /** The early exits and the quotient decide whether the cost leaves the 25% band of a positive median. */
  method IsAlert(prior: seq<real>, cost: real) returns (alert: bool)
    ensures alert <==>
              && |prior| >= 2 && Median(prior) > 0.0
              && (cost < 0.75 * Median(prior) || cost > 1.25 * Median(prior))
  {
    AlarmingExactly(prior, cost);
    if |prior| < 2 {
      return false;
    }
    var baseline := Median(prior);
    if baseline == 0.0 {
      return false;
    }
    return Abs(cost - baseline) / baseline > THRESHOLD;
  }

  /** The second loop: each supply of the week against its pair's history. */
  method CountAlerts(history: map<Pair, seq<real>>, supplies: seq<Priced>, ghost rs: seq<Event>, dims: Dimensions,
                     ghost week: int)
    returns (counts: map<string, nat>)
    requires HistoryOf(history, rs, dims, week) && forall p :: p in supplies ==> p.location in dims
    ensures CountsAre(counts, dims, AlertsAmong(rs, dims, week), supplies)
  {
    counts := map place | place in dims :: 0;
    for i := 0 to |supplies|
      invariant CountsAre(counts, dims, AlertsAmong(rs, dims, week), supplies[..i])
    {
      var p := supplies[i];
      var prior := Prior(history, (p.location, p.ingredient));
      assert p in supplies && prior == Baseline(rs, dims, week, (p.location, p.ingredient));
      var alert := IsAlert(prior, p.cost);
      AlarmingExactly(prior, p.cost);
      if alert {
        CountsStep(counts, dims, AlertsAmong(rs, dims, week), supplies, i, p.location);
        counts := counts[p.location := counts[p.location] + 1];
      } else {
        CountsKept(counts, dims, AlertsAmong(rs, dims, week), supplies, i);
      }
    }
    assert supplies[..|supplies|] == supplies;
  }

  method ComputePriceAlertCounts(rs: seq<Event>, dims: Dimensions, week: int) returns (counts: map<string, nat>)
    ensures CountsAre(counts, dims, Alerts(rs, dims, week), rs)
  {
    var history, supplies := ReadSupplies(rs, dims, week);
    ListedAreLocated(rs, dims, week);
    counts := CountAlerts(history, supplies, rs, dims, week);
    ListCountsAll(counts, rs, dims, week);
  }

  lemma ListCountsAll(counts: map<string, nat>, rs: seq<Event>, dims: Dimensions, week: int)
    requires CountsAre(counts, dims, AlertsAmong(rs, dims, week), WeekSupplies(rs, dims, week))
    ensures CountsAre(counts, dims, Alerts(rs, dims, week), rs)
  {
    forall place | place in dims ensures counts[place] == Count(Alerts(rs, dims, week)(place), rs) {
      ListCountsEvents(rs, rs, dims, week, place);
    }
  }

  // ---------- order and scale of the records ----------

  /** The alert counts do not depend on the order of the records. */
  lemma AlertsOfRearranged(a: seq<Event>, b: seq<Event>, dims: Dimensions, week: int, place: string)
    requires multiset(a) == multiset(b)
    ensures AlertTotal(a, dims, week, place) == AlertTotal(b, dims, week, place)
  {
    forall pair, cost
      ensures Count(InBaselineAt(dims, week, pair, cost), a) == Count(InBaselineAt(dims, week, pair, cost), b)
    {
      CountOfRearranged(InBaselineAt(dims, week, pair, cost), a, b);
    }
    SameBaselinesSameAlerts(a, b, dims, week, place, a);
    CountOfRearranged(Alerts(b, dims, week)(place), a, b);
  }

  lemma SameBaselinesSameAlerts(a: seq<Event>, b: seq<Event>, dims: Dimensions, week: int, place: string,
                                rs: seq<Event>)
    requires forall pair, cost ::
               Count(InBaselineAt(dims, week, pair, cost), a) == Count(InBaselineAt(dims, week, pair, cost), b)
    ensures Count(Alerts(a, dims, week)(place), rs) == Count(Alerts(b, dims, week)(place), rs)
  {
    forall e | e in rs ensures Alerts(a, dims, week)(place)(e) == Alerts(b, dims, week)(place)(e) {
      if Compared(e, dims, week) {
        BaselinesMatch(a, b, dims, week, PairOf(e));
        AlarmingOfRearranged(Baseline(a, dims, week, PairOf(e)), Baseline(b, dims, week, PairOf(e)), e.unitCost.value);
      }
    }
    CountAgrees(Alerts(a, dims, week)(place), Alerts(b, dims, week)(place), rs);
  }

  function Repriced(f: real -> real, e: Event): Event {
    e.(unitCost := if e.unitCost.Some? then Some(f(e.unitCost.value)) else None)
  }

  function AllRepriced(f: real -> real, rs: seq<Event>): seq<Event> {
    if rs == [] then [] else AllRepriced(f, rs[..|rs| - 1]) + [Repriced(f, rs[|rs| - 1])]
  }

  lemma {:induction false} BaselineRepriced(f: real -> real, rs: seq<Event>, dims: Dimensions, week: int, pair: Pair)
    ensures Baseline(AllRepriced(f, rs), dims, week, pair) == Mapped(f, Baseline(rs, dims, week, pair))
  {
    if rs != [] {
      var rest, last := rs[..|rs| - 1], rs[|rs| - 1];
      BaselineRepriced(f, rest, dims, week, pair);
      assert AllRepriced(f, rs)[..|AllRepriced(f, rs)| - 1] == AllRepriced(f, rest);
      assert InBaseline(Repriced(f, last), dims, week, pair) == InBaseline(last, dims, week, pair);
      var b := Baseline(rest, dims, week, pair);
      if InBaseline(last, dims, week, pair) {
        assert (b + [last.unitCost.value])[..|b|] == b;
        assert Mapped(f, b + [last.unitCost.value]) == Mapped(f, b) + [f(last.unitCost.value)];
      }
    }
  }

  lemma AlertRepriced(f: real -> real, source: seq<Event>, dims: Dimensions, week: int, place: string, e: Event)
    requires Rescales(f)
    ensures Alerts(AllRepriced(f, source), dims, week)(place)(Repriced(f, e)) == Alerts(source, dims, week)(place)(e)
  {
    assert Compared(Repriced(f, e), dims, week) == Compared(e, dims, week);
    if Compared(e, dims, week) {
      BaselineRepriced(f, source, dims, week, PairOf(e));
      AlarmingMaps(f, Baseline(source, dims, week, PairOf(e)), e.unitCost.value);
    }
  }

  lemma {:induction false} CountRepriced(f: real -> real, p: Event -> bool, q: Event -> bool, rs: seq<Event>)
    requires forall e :: e in rs ==> p(Repriced(f, e)) == q(e)
    ensures Count(p, AllRepriced(f, rs)) == Count(q, rs)
  {
    if rs != [] {
      CountRepriced(f, p, q, rs[..|rs| - 1]);
      var r := AllRepriced(f, rs);
      assert r[..|r| - 1] == AllRepriced(f, rs[..|rs| - 1]);
    }
  }

  /** A change of unit in every cost changes no alert count. */
  lemma AlertsRepriced(f: real -> real, rs: seq<Event>, dims: Dimensions, week: int, place: string)
    requires Rescales(f)
    ensures AlertTotal(AllRepriced(f, rs), dims, week, place) == AlertTotal(rs, dims, week, place)
  {
    forall e | e in rs
      ensures Alerts(AllRepriced(f, rs), dims, week)(place)(Repriced(f, e)) == Alerts(rs, dims, week)(place)(e)
    {
      AlertRepriced(f, rs, dims, week, place, e);
    }
    CountRepriced(f, Alerts(AllRepriced(f, rs), dims, week)(place), Alerts(rs, dims, week)(place), rs);
  }

  /** In particular, multiplying every cost by the same positive factor changes no alert count. */
  lemma AlertsScale(k: real, rs: seq<Event>, dims: Dimensions, week: int, place: string)
    requires k > 0.0
    ensures AlertTotal(AllRepriced(Times(k), rs), dims, week, place) == AlertTotal(rs, dims, week, place)
  {
    TimesRescales(k);
    AlertsRepriced(Times(k), rs, dims, week, place);
  }
}
