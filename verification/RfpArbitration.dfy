/**
 The fixed arbitration rules: which departments are asked for changes, and whether
 the CEO has to approve, computed from the numbers extracted for each section.
 */
module RfpArbitration {
  import opened Options

  datatype Dept = Marketing | Operaciones | Procurement | Training

  const ALL_DEPARTMENTS: seq<Dept> := [Marketing, Operaciones, Procurement, Training]
  const SETUP_SLA_MIN_DAYS: real := 10.0
  const CEO_USD_THRESHOLD: real := 50000.0

  type Time = int

  datatype Numbers = Numbers(cost: Option<real>, setupDays: Option<real>, pricePerCover: Option<real>)

  const NULL_NUMBERS := Numbers(None, None, None)

  /** One fired rule; the resolution text is determined by it. */
  datatype Trigger =
    | SetupSlaBreach(dept: Dept, days: real)
    | CostVsFeasibility(price: real, cost: real)
    | CeoThreshold(ceiling: Option<real>, fromBudget: bool, fromSections: bool)

  datatype CeoDecision = CeoApproved | CeoRejected

  /** The arbitration record that is copied into every needed department row. */
  datatype Arbitration = Arbitration(
    triggers: seq<Trigger>,
    forced: set<Dept>,
    ceoRequired: bool,
    ceoDecision: Option<CeoDecision>,
    ceoApprovedAt: Option<Time>,
    ceoInterruptId: Option<nat>)

  const EMPTY_ARBITRATION := Arbitration([], {}, false, None, None, None)

  /** What arbitration reads of one section: its numbers and its own CEO flag. */
  datatype Figures = Figures(numbers: Numbers, ceoFlag: bool)

  predicate BreachesSetupSla(f: Figures) {
    f.numbers.setupDays.Some? && f.numbers.setupDays.value < SETUP_SLA_MIN_DAYS
  }

  predicate CostExceedsPrice(figures: map<Dept, Figures>) {
    && Operaciones in figures && figures[Operaciones].numbers.pricePerCover.Some?
    && Procurement in figures && figures[Procurement].numbers.cost.Some?
    && figures[Procurement].numbers.cost.value > figures[Operaciones].numbers.pricePerCover.value
  }

  predicate OverThreshold(ceiling: Option<real>) {
    ceiling.Some? && ceiling.value > CEO_USD_THRESHOLD
  }

  predicate SomeSectionFlagged(figures: map<Dept, Figures>) {
    exists d :: d in figures && figures[d].ceoFlag
  }

  /** `order` lists the departments of `figures`, each once: the iteration order of a dict. */
  predicate Lists<T>(order: seq<Dept>, figures: map<Dept, T>) {
    && (forall d :: d in order <==> d in figures)
    && (forall i, j :: 0 <= i < j < |order| ==> order[i] != order[j])
  }

  function SetupTriggers(order: seq<Dept>, figures: map<Dept, Figures>): seq<Trigger>
    requires forall d :: d in order ==> d in figures
  {
    if order == [] then []
    else
      var last := order[|order| - 1];
      SetupTriggers(order[..|order| - 1], figures)
      + (if BreachesSetupSla(figures[last])
         then [SetupSlaBreach(last, figures[last].numbers.setupDays.value)]
         else [])
  }

  function ClashTrigger(figures: map<Dept, Figures>): seq<Trigger> {
    if CostExceedsPrice(figures)
    then [CostVsFeasibility(figures[Operaciones].numbers.pricePerCover.value, figures[Procurement].numbers.cost.value)]
    else []
  }

  function CeoTrigger(figures: map<Dept, Figures>, ceiling: Option<real>): seq<Trigger> {
    if OverThreshold(ceiling) || SomeSectionFlagged(figures)
    then [CeoThreshold(ceiling, OverThreshold(ceiling), SomeSectionFlagged(figures))]
    else []
  }

  function Arbitrate(order: seq<Dept>, figures: map<Dept, Figures>, ceiling: Option<real>): Arbitration
    requires Lists(order, figures)
  {
    var forced := (set d | d in figures && BreachesSetupSla(figures[d]))
                  + (if CostExceedsPrice(figures) then {Operaciones, Procurement} else {});
    EMPTY_ARBITRATION.(
      triggers := SetupTriggers(order, figures) + ClashTrigger(figures) + CeoTrigger(figures, ceiling),
      forced := forced,
      ceoRequired := OverThreshold(ceiling) || SomeSectionFlagged(figures))
  }

  lemma SetupTriggersSnoc(order: seq<Dept>, i: nat, figures: map<Dept, Figures>)
    requires i < |order|
    requires forall d :: d in order ==> d in figures
    ensures SetupTriggers(order[..i + 1], figures)
         == SetupTriggers(order[..i], figures)
            + (if BreachesSetupSla(figures[order[i]])
               then [SetupSlaBreach(order[i], figures[order[i]].numbers.setupDays.value)]
               else [])
  {
    assert order[..i + 1][..i] == order[..i];
  }

  /** The setup rule: one trigger per section promising fewer days than the minimum, in dict order. */
  method SetupRule(order: seq<Dept>, figures: map<Dept, Figures>)
    returns (triggers: seq<Trigger>, forced: set<Dept>)
    requires Lists(order, figures)
    ensures triggers == SetupTriggers(order, figures)
    ensures forced == set d | d in figures && BreachesSetupSla(figures[d])
  {
    triggers, forced := [], {};
    for i := 0 to |order|
      invariant triggers == SetupTriggers(order[..i], figures)
      invariant forall d :: d in forced <==> d in order[..i] && BreachesSetupSla(figures[d])
    {
      var d := order[i];
      SetupTriggersSnoc(order, i, figures);
      assert order[..i + 1] == order[..i] + [d];
      if BreachesSetupSla(figures[d]) {
        forced := forced + {d};
        triggers := triggers + [SetupSlaBreach(d, figures[d].numbers.setupDays.value)];
      }
    }
    assert order[..|order|] == order;
  }

  /** Stops at the first section whose own evaluation asks for the CEO. */
  method FindFlaggedSection(order: seq<Dept>, figures: map<Dept, Figures>) returns (found: bool)
    requires Lists(order, figures)
    ensures found <==> SomeSectionFlagged(figures)
  {
    found := false;
    for i := 0 to |order|
      invariant !found
      invariant forall k :: 0 <= k < i ==> !figures[order[k]].ceoFlag
    {
      if figures[order[i]].ceoFlag {
        return true;
      }
    }
    assert forall d :: d in figures ==> d in order;
  }

  // ---------- what the record says of the sections ----------

  predicate Breaches(figures: map<Dept, Figures>, d: Dept, days: real) {
    d in figures && figures[d].numbers.setupDays == Some(days) && days < 10.0
  }

  predicate Clashes(figures: map<Dept, Figures>, price: real, cost: real) {
    && Operaciones in figures && figures[Operaciones].numbers.pricePerCover == Some(price)
    && Procurement in figures && figures[Procurement].numbers.cost == Some(cost)
    && cost > price
  }

  predicate OverBudget(ceiling: Option<real>) {
    ceiling.Some? && ceiling.value > 50000.0
  }

  predicate Flagged(figures: map<Dept, Figures>) {
    exists d :: d in figures && figures[d].ceoFlag
  }

  /** A trigger states a fact about the sections or the budget. */
  predicate Founded(t: Trigger, figures: map<Dept, Figures>, ceiling: Option<real>) {
    match t
    case SetupSlaBreach(d, days) => Breaches(figures, d, days)
    case CostVsFeasibility(price, cost) => Clashes(figures, price, cost)
    case CeoThreshold(c, fromBudget, fromSections) =>
      && c == ceiling && fromBudget == OverBudget(ceiling) && fromSections == Flagged(figures)
      && (fromBudget || fromSections)
  }

  predicate Distinct(triggers: seq<Trigger>) {
    forall i, j :: 0 <= i < j < |triggers| ==> triggers[i] != triggers[j]
  }

  /** The triggers are exactly the facts; forced departments and the CEO requirement follow from the facts. */
  ghost predicate Follows(arb: Arbitration, figures: map<Dept, Figures>, ceiling: Option<real>) {
    && (forall t :: t in arb.triggers <==> Founded(t, figures, ceiling))
    && Distinct(arb.triggers)
    && (arb.ceoRequired <==> OverBudget(ceiling) || Flagged(figures))
    && (forall d :: d in arb.forced <==>
          || (exists days :: Breaches(figures, d, days))
          || (d in {Operaciones, Procurement} && exists price, cost :: Clashes(figures, price, cost)))
    && arb.ceoDecision == None && arb.ceoApprovedAt == None && arb.ceoInterruptId == None
  }

  lemma {:induction false} SetupTriggersDiffer(order: seq<Dept>, figures: map<Dept, Figures>)
    requires forall d :: d in order ==> d in figures
    requires forall i, j :: 0 <= i < j < |order| ==> order[i] != order[j]
    ensures Distinct(SetupTriggers(order, figures))
  {
    if order != [] {
      var rest, last := order[..|order| - 1], order[|order| - 1];
      SetupTriggersDiffer(rest, figures);
      var before := SetupTriggers(rest, figures);
      forall i | 0 <= i < |before|
        ensures before[i].SetupSlaBreach? && before[i].dept != last
      {
        SetupTriggersAre(rest, figures, before[i]);
      }
    }
  }

  lemma DistinctSnoc(triggers: seq<Trigger>, more: seq<Trigger>)
    requires Distinct(triggers) && |more| <= 1 && forall t :: t in more ==> t !in triggers
    ensures Distinct(triggers + more)
  {
    forall i, j | 0 <= i < j < |triggers + more|
      ensures (triggers + more)[i] != (triggers + more)[j]
    {
      if j == |triggers| { assert more[0] in more && triggers[i] in triggers; }
    }
  }

  lemma SetupTriggersAreBreaches(order: seq<Dept>, figures: map<Dept, Figures>)
    requires Lists(order, figures)
    ensures forall t :: t in SetupTriggers(order, figures) <==> t.SetupSlaBreach? && Breaches(figures, t.dept, t.days)
  {
    forall t
      ensures t in SetupTriggers(order, figures) <==> t.SetupSlaBreach? && Breaches(figures, t.dept, t.days)
    {
      SetupTriggersAre(order, figures, t);
    }
  }

  lemma ClashTriggerIs(figures: map<Dept, Figures>, t: Trigger)
    ensures t in ClashTrigger(figures) <==> t.CostVsFeasibility? && Clashes(figures, t.price, t.cost)
  {
  }

  lemma CeoTriggerIs(figures: map<Dept, Figures>, ceiling: Option<real>, t: Trigger)
    ensures t in CeoTrigger(figures, ceiling) <==> t.CeoThreshold? && Founded(t, figures, ceiling)
  {
  }

  lemma TriggerIsFounded(order: seq<Dept>, figures: map<Dept, Figures>, ceiling: Option<real>, t: Trigger)
    requires Lists(order, figures)
    ensures t in SetupTriggers(order, figures) + ClashTrigger(figures) + CeoTrigger(figures, ceiling)
            <==> Founded(t, figures, ceiling)
  {
    SetupTriggersAre(order, figures, t);
    ClashTriggerIs(figures, t);
    CeoTriggerIs(figures, ceiling, t);
  }

  lemma TriggersAreDistinct(order: seq<Dept>, figures: map<Dept, Figures>, ceiling: Option<real>)
    requires Lists(order, figures)
    ensures Distinct(SetupTriggers(order, figures) + ClashTrigger(figures) + CeoTrigger(figures, ceiling))
  {
    var setup, clash, ceo := SetupTriggers(order, figures), ClashTrigger(figures), CeoTrigger(figures, ceiling);
    SetupTriggersDiffer(order, figures);
    SetupTriggersAreBreaches(order, figures);
    DistinctSnoc(setup, clash);
    DistinctSnoc(setup + clash, ceo);
  }

  lemma ForcedFollows(order: seq<Dept>, figures: map<Dept, Figures>, ceiling: Option<real>, d: Dept)
    requires Lists(order, figures)
    ensures d in Arbitrate(order, figures, ceiling).forced <==>
              || (exists days :: Breaches(figures, d, days))
              || (d in {Operaciones, Procurement} && exists price, cost :: Clashes(figures, price, cost))
  {
    if d in figures && BreachesSetupSla(figures[d]) {
      assert Breaches(figures, d, figures[d].numbers.setupDays.value);
    }
    if CostExceedsPrice(figures) {
      assert Clashes(figures, figures[Operaciones].numbers.pricePerCover.value,
                     figures[Procurement].numbers.cost.value);
    }
  }

  /** The record computed by the rules follows from the figures and the budget alone. */
  lemma ArbitrationFollows(order: seq<Dept>, figures: map<Dept, Figures>, ceiling: Option<real>)
    requires Lists(order, figures)
    ensures Follows(Arbitrate(order, figures, ceiling), figures, ceiling)
  {
    TriggersAreDistinct(order, figures, ceiling);
    forall t
      ensures t in Arbitrate(order, figures, ceiling).triggers <==> Founded(t, figures, ceiling)
    {
      TriggerIsFounded(order, figures, ceiling, t);
    }
    forall d
      ensures d in Arbitrate(order, figures, ceiling).forced <==>
              || (exists days :: Breaches(figures, d, days))
              || (d in {Operaciones, Procurement} && exists price, cost :: Clashes(figures, price, cost))
    {
      ForcedFollows(order, figures, ceiling, d);
    }
  }

  /** The three rules in turn, accumulating triggers and forced departments. */
  method RunArbitration(order: seq<Dept>, figures: map<Dept, Figures>, ceiling: Option<real>)
    returns (arb: Arbitration)
    requires Lists(order, figures)
    ensures arb == Arbitrate(order, figures, ceiling)
    ensures Follows(arb, figures, ceiling)
  {
    ArbitrationFollows(order, figures, ceiling);
    var triggers, forced := SetupRule(order, figures);
    if CostExceedsPrice(figures) {
      forced := forced + {Operaciones, Procurement};
      triggers := triggers + [CostVsFeasibility(figures[Operaciones].numbers.pricePerCover.value,
                                                figures[Procurement].numbers.cost.value)];
    }
    var fromSections := FindFlaggedSection(order, figures);
    var required := OverThreshold(ceiling) || fromSections;
    if required {
      triggers := triggers + [CeoThreshold(ceiling, OverThreshold(ceiling), fromSections)];
    }
    arb := Arbitration(triggers, forced, required, None, None, None);
  }

  /** Does the resolution text of `t` name department `d`? */
  predicate Concerns(t: Trigger, d: Dept) {
    || (t.SetupSlaBreach? && t.dept == d)
    || (t.CostVsFeasibility? && d in {Operaciones, Procurement})
  }

  function Concerning(triggers: seq<Trigger>, d: Dept): seq<Trigger> {
    if triggers == [] then []
    else (if Concerns(triggers[0], d) then [triggers[0]] else []) + Concerning(triggers[1..], d)
  }

  /** The feedback stamped on a forced department: the resolutions about it, or all of them if none is. */
  function FeedbackFor(arb: Arbitration, d: Dept): seq<Trigger> {
    var relevant := Concerning(arb.triggers, d);
    if relevant != [] then relevant else arb.triggers
  }

  lemma {:induction false} SetupTriggersAre(order: seq<Dept>, figures: map<Dept, Figures>, t: Trigger)
    requires forall d :: d in order ==> d in figures
    ensures t in SetupTriggers(order, figures) <==>
            && t.SetupSlaBreach? && t.dept in order
            && BreachesSetupSla(figures[t.dept]) && t.days == figures[t.dept].numbers.setupDays.value
  {
    if order != [] {
      SetupTriggersAre(order[..|order| - 1], figures, t);
      assert order == order[..|order| - 1] + [order[|order| - 1]];
    }
  }

  lemma {:induction false} ConcerningFindsAll(triggers: seq<Trigger>, d: Dept, t: Trigger)
    ensures t in Concerning(triggers, d) <==> t in triggers && Concerns(t, d)
  {
    if triggers != [] {
      ConcerningFindsAll(triggers[1..], d, t);
      assert triggers == [triggers[0]] + triggers[1..];
    }
  }

  /**
   A department is forced exactly when some fired rule names it, so its feedback is never
   the unrelated fallback text; and the CEO is required exactly when the CEO rule fired.
   */
  lemma ForcedIffNamed(order: seq<Dept>, figures: map<Dept, Figures>, ceiling: Option<real>, d: Dept)
    requires Lists(order, figures)
    ensures
      var arb := Arbitrate(order, figures, ceiling);
      && (d in arb.forced <==> exists t :: t in arb.triggers && Concerns(t, d))
      && (d in arb.forced ==> FeedbackFor(arb, d) != []
                              && forall t :: t in FeedbackFor(arb, d) ==> Concerns(t, d))
      && (arb.ceoRequired <==> exists t :: t in arb.triggers && t.CeoThreshold?)
  {
    var arb := Arbitrate(order, figures, ceiling);
    forall t
      ensures t in SetupTriggers(order, figures) <==>
              && t.SetupSlaBreach? && t.dept in order
              && BreachesSetupSla(figures[t.dept]) && t.days == figures[t.dept].numbers.setupDays.value
      ensures t in Concerning(arb.triggers, d) <==> t in arb.triggers && Concerns(t, d)
    {
      SetupTriggersAre(order, figures, t);
      ConcerningFindsAll(arb.triggers, d, t);
    }
    if d in figures && BreachesSetupSla(figures[d]) {
      var t := SetupSlaBreach(d, figures[d].numbers.setupDays.value);
      assert t in SetupTriggers(order, figures);
      assert t in arb.triggers && Concerns(t, d);
      assert t in Concerning(arb.triggers, d);
    } else if d in arb.forced {
      var t := CostVsFeasibility(figures[Operaciones].numbers.pricePerCover.value,
                                 figures[Procurement].numbers.cost.value);
      assert t in arb.triggers && Concerns(t, d);
      assert t in Concerning(arb.triggers, d);
    }
    if arb.ceoRequired {
      var t := CeoThreshold(ceiling, OverThreshold(ceiling), SomeSectionFlagged(figures));
      assert t in arb.triggers && t.CeoThreshold?;
    }
  }
}
