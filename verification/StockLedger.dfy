/** The order endpoints of the inventory service, one request at a time. */
module StockLedger {
  import opened Options
  import opened StockQuery

  datatype Order =
    | Inbound(ingredient: int, location: int, quantity: real)
    | Outbound(ingredient: int, location: int, quantity: real, reason: string)

  datatype Refusal =
    | InvalidQuantity
    | Forbidden
    | InvalidReason
    | IngredientNotFound
    | InsufficientStock(available: real)
    | Interrupted

  datatype Outcome = Accepted(row: Movement) | Refused(why: Refusal)

  function RowOf(order: Order): Movement {
    Movement(order.ingredient, order.location, order.quantity)
  }

  predicate ValidReason(reason: string) {
    reason in {"consumption", "waste"}
  }

  /** What decides an order before it touches the stock: the schema, the caller's claims, the reason. */
  function Screen(order: Order, authorized: bool): Option<Refusal> {
    if order.quantity <= 0.0 then Some(InvalidQuantity)
    else if !authorized then Some(Forbidden)
    else if order.Outbound? && !ValidReason(order.reason) then Some(InvalidReason)
    else None
  }

  datatype Tables = Tables(ingredients: seq<Ingredient>, entries: seq<Movement>, exits: seq<Movement>)

  /** The decision on an order against the tables as they stand. */
  function Decide(db: Tables, order: Order, authorized: bool): Outcome {
    if Screen(order, authorized).Some? then Refused(Screen(order, authorized).value)
    else if !Known(db.ingredients, order.ingredient) then Refused(IngredientNotFound)
    else
      var available := Stock(db.entries, db.exits, order.ingredient, order.location);
      if order.Outbound? && available < order.quantity then Refused(InsufficientStock(available))
      else Accepted(RowOf(order))
  }

  /** The tables after an order: one more row in its table if it is accepted. */
  function Submit(db: Tables, order: Order, authorized: bool): Tables {
    if Decide(db, order, authorized).Refused? then db
    else if order.Inbound? then db.(entries := db.entries + [RowOf(order)])
    else db.(exits := db.exits + [RowOf(order)])
  }

  ghost predicate NeverOverdrawn(db: Tables) {
    forall ingredient, location :: Stock(db.entries, db.exits, ingredient, location) >= 0.0
  }

  lemma SumAppended(ms: seq<Movement>, m: Movement, ingredient: int, location: int)
    ensures SumAt(ms + [m], ingredient, location)
         == SumAt(ms, ingredient, location)
           + (if m.ingredient == ingredient && m.location == location then m.quantity else 0.0)
  {
    assert (ms + [m])[..|ms|] == ms;
  }

  /** An accepted order moves the stock of its own pair by its quantity; nothing else moves any stock. */
  lemma SubmitMovesStock(db: Tables, order: Order, authorized: bool, ingredient: int, location: int)
    ensures
      var after := Submit(db, order, authorized);
      Stock(after.entries, after.exits, ingredient, location)
      == Stock(db.entries, db.exits, ingredient, location)
         + (if Decide(db, order, authorized).Refused? || order.ingredient != ingredient || order.location != location
            then 0.0
            else if order.Inbound? then order.quantity else -order.quantity)
  {
    SumAppended(db.entries, RowOf(order), ingredient, location);
    SumAppended(db.exits, RowOf(order), ingredient, location);
  }

  lemma SubmitNeverOverdraws(db: Tables, order: Order, authorized: bool)
    requires NeverOverdrawn(db)
    ensures NeverOverdrawn(Submit(db, order, authorized))
  {
    var after := Submit(db, order, authorized);
    forall ingredient, location ensures Stock(after.entries, after.exits, ingredient, location) >= 0.0 {
      SubmitMovesStock(db, order, authorized, ingredient, location);
    }
  }

  // ---------- the decision, by its reasons ----------

  ghost predicate Exists(db: Tables, ingredient: int) {
    exists i :: i in db.ingredients && i.id == ingredient
  }

  /** The order's own data allow it: a positive quantity, an authorized caller, one of the two reasons to take out. */
  predicate WellFormed(order: Order, authorized: bool) {
    && order.quantity > 0.0 && authorized
    && (order.Outbound? ==> order.reason == "consumption" || order.reason == "waste")
  }

  /** Each outcome has its reason; the reasons exclude each other. */
  ghost predicate Justified(db: Tables, order: Order, authorized: bool, outcome: Outcome) {
    var stock := Stock(db.entries, db.exits, order.ingredient, order.location);
    match outcome
    case Refused(InvalidQuantity) => order.quantity <= 0.0
    case Refused(Forbidden) => order.quantity > 0.0 && !authorized
    case Refused(InvalidReason) =>
      && order.quantity > 0.0 && authorized
      && order.Outbound? && order.reason != "consumption" && order.reason != "waste"
    case Refused(IngredientNotFound) => WellFormed(order, authorized) && !Exists(db, order.ingredient)
    case Refused(InsufficientStock(available)) =>
      && WellFormed(order, authorized) && Exists(db, order.ingredient)
      && order.Outbound? && available == stock && order.quantity > stock
    case Refused(Interrupted) => false
    case Accepted(row) =>
      && WellFormed(order, authorized) && Exists(db, order.ingredient)
      && (order.Outbound? ==> order.quantity <= stock)
      && row == Movement(order.ingredient, order.location, order.quantity)
  }

  /** An accepted order is one more row at the end of its own table; a refused one changes nothing. */
  predicate Recorded(db: Tables, after: Tables, order: Order, accepted: bool) {
    var row := Movement(order.ingredient, order.location, order.quantity);
    && after.ingredients == db.ingredients
    && after.entries == (if accepted && order.Inbound? then db.entries + [row] else db.entries)
    && after.exits == (if accepted && order.Outbound? then db.exits + [row] else db.exits)
  }

  lemma KnownExists(db: Tables, ingredient: int)
    ensures Known(db.ingredients, ingredient) <==> Exists(db, ingredient)
  {
  }

  /** Exactly one outcome is justified, and it is the one that is decided; the tables record it. */
  lemma DecisionIsJustified(db: Tables, order: Order, authorized: bool, outcome: Outcome)
    ensures Justified(db, order, authorized, outcome) <==> outcome == Decide(db, order, authorized)
    ensures Recorded(db, Submit(db, order, authorized), order, Decide(db, order, authorized).Accepted?)
  {
    KnownExists(db, order.ingredient);
  }

  class Ledger {
    var ingredients: seq<Ingredient>
    var entries: seq<Movement>
    var exits: seq<Movement>

    constructor (catalog: seq<Ingredient>)
      ensures Snapshot() == Tables(catalog, [], []) && Valid()
    {
      ingredients, entries, exits := catalog, [], [];
    }

    ghost function Snapshot(): Tables
      reads this
    {
      Tables(ingredients, entries, exits)
    }

    ghost predicate Valid()
      reads this
    {
      NeverOverdrawn(Snapshot())
    }

    /** GET of one product: its stock, or nothing when it does not exist. */
    method GetProduct(ingredient: int, location: int) returns (stock: Option<real>)
      ensures stock == if Exists(Snapshot(), ingredient) then Some(Stock(entries, exits, ingredient, location))
                       else None
    {
      KnownExists(Snapshot(), ingredient);
      stock := StockOf(ingredients, entries, exits, ingredient, location);
      StockOfIsStock(ingredients, entries, exits, ingredient, location);
    }

    method CreateInboundOrder(order: Order, authorized: bool) returns (outcome: Outcome)
      requires order.Inbound? && Valid()
      modifies this
      ensures Justified(old(Snapshot()), order, authorized, outcome)
      ensures Recorded(old(Snapshot()), Snapshot(), order, outcome.Accepted?)
      ensures Valid()
    {
      SubmitNeverOverdraws(Snapshot(), order, authorized);
      DecisionIsJustified(Snapshot(), order, authorized, Decide(Snapshot(), order, authorized));
      var refusal := Screen(order, authorized);
      if refusal.Some? {
        return Refused(refusal.value);
      }
      if !Known(ingredients, order.ingredient) {
        return Refused(IngredientNotFound);
      }
      entries := entries + [RowOf(order)];
      outcome := Accepted(RowOf(order));
    }

    method CreateOutboundOrder(order: Order, authorized: bool) returns (outcome: Outcome)
      requires order.Outbound? && Valid()
      modifies this
      ensures Justified(old(Snapshot()), order, authorized, outcome)
      ensures Recorded(old(Snapshot()), Snapshot(), order, outcome.Accepted?)
      ensures Valid()
    {
      SubmitNeverOverdraws(Snapshot(), order, authorized);
      DecisionIsJustified(Snapshot(), order, authorized, Decide(Snapshot(), order, authorized));
      var refusal := Screen(order, authorized);
      if refusal.Some? {
        return Refused(refusal.value);
      }
      if !Known(ingredients, order.ingredient) {
        return Refused(IngredientNotFound);
      }
      var available := GetProduct(order.ingredient, order.location);
      if available.None? {
        return Refused(IngredientNotFound);
      }
      if available.value - order.quantity < 0.0 {
        return Refused(InsufficientStock(available.value));
      }
      exits := exits + [RowOf(order)];
      outcome := Accepted(RowOf(order));
    }
  }
}
