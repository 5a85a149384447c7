/** The stock of an ingredient at a location, and the query that computes it for every ingredient. */
module StockQuery {
  import opened Options

  datatype Ingredient = Ingredient(id: int, name: string)

  /** A row of the entry table or of the exit table. */
  datatype Movement = Movement(ingredient: int, location: int, quantity: real)

  // ---------- the reference ----------

  /** The plain sum of the quantities of one ingredient at one location. */
  function SumAt(ms: seq<Movement>, ingredient: int, location: int): real {
    if ms == [] then 0.0
    else
      var last := ms[|ms| - 1];
      SumAt(ms[..|ms| - 1], ingredient, location)
      + (if last.ingredient == ingredient && last.location == location then last.quantity else 0.0)
  }

  function Stock(entries: seq<Movement>, exits: seq<Movement>, ingredient: int, location: int): real {
    SumAt(entries, ingredient, location) - SumAt(exits, ingredient, location)
  }

  // ---------- the two aggregated subqueries ----------

  /** One row of a GROUP BY. */
  datatype Total = Total(ingredient: int, total: real)

  function Lookup(totals: seq<Total>, ingredient: int): Option<real> {
    if totals == [] then None
    else if totals[0].ingredient == ingredient then Some(totals[0].total)
    else Lookup(totals[1..], ingredient)
  }

  function AddTo(totals: seq<Total>, ingredient: int, quantity: real): seq<Total> {
    if totals == [] then [Total(ingredient, quantity)]
    else if totals[0].ingredient == ingredient then [Total(ingredient, totals[0].total + quantity)] + totals[1..]
    else [totals[0]] + AddTo(totals[1..], ingredient, quantity)
  }

  /** Rows of one location, grouped by ingredient: ingredients without a row have no group. */
  function Grouped(ms: seq<Movement>, location: int): seq<Total> {
    if ms == [] then []
    else
      var last := ms[|ms| - 1];
      var before := Grouped(ms[..|ms| - 1], location);
      if last.location == location then AddTo(before, last.ingredient, last.quantity) else before
  }

  predicate DistinctKeys(totals: seq<Total>) {
    forall i, j :: 0 <= i < j < |totals| ==> totals[i].ingredient != totals[j].ingredient
  }

  lemma {:induction false} AddToLookup(totals: seq<Total>, ingredient: int, quantity: real, other: int)
    ensures Lookup(AddTo(totals, ingredient, quantity), other)
         == if other != ingredient then Lookup(totals, other)
            else if Lookup(totals, other).Some? then Some(Lookup(totals, other).value + quantity) else Some(quantity)
  {
    if totals != [] && totals[0].ingredient != ingredient {
      AddToLookup(totals[1..], ingredient, quantity, other);
    }
  }

  lemma {:induction false} AddToKeys(totals: seq<Total>, ingredient: int, quantity: real)
    requires DistinctKeys(totals)
    ensures DistinctKeys(AddTo(totals, ingredient, quantity))
    ensures forall t :: t in AddTo(totals, ingredient, quantity) ==>
              t.ingredient == ingredient || exists u :: u in totals && u.ingredient == t.ingredient
  {
    if totals != [] && totals[0].ingredient != ingredient {
      AddToKeys(totals[1..], ingredient, quantity);
    }
  }

  lemma {:induction false} GroupedKeys(ms: seq<Movement>, location: int)
    ensures DistinctKeys(Grouped(ms, location))
  {
    if ms != [] {
      var last := ms[|ms| - 1];
      GroupedKeys(ms[..|ms| - 1], location);
      AddToKeys(Grouped(ms[..|ms| - 1], location), last.ingredient, last.quantity);
    }
  }

  function Coalesce(x: Option<real>): real {
    if x.Some? then x.value else 0.0
  }

  /** A group holds the plain sum; a missing group stands for a sum of zero. */
  lemma {:induction false} GroupedIsSum(ms: seq<Movement>, location: int, ingredient: int)
    ensures Coalesce(Lookup(Grouped(ms, location), ingredient)) == SumAt(ms, ingredient, location)
  {
    if ms != [] {
      var last := ms[|ms| - 1];
      GroupedIsSum(ms[..|ms| - 1], location, ingredient);
      AddToLookup(Grouped(ms[..|ms| - 1], location), last.ingredient, last.quantity, ingredient);
    }
  }

  // ---------- the outer join ----------

  /** The right-hand rows that join with one key. */
  function Matching(right: seq<Total>, key: int): seq<Total> {
    if right == [] then []
    else (if right[0].ingredient == key then [right[0]] else []) + Matching(right[1..], key)
  }

  function Paired<A>(a: A, ts: seq<Total>): seq<(A, Option<real>)> {
    if ts == [] then [] else [(a, Some(ts[0].total))] + Paired(a, ts[1..])
  }

  /** LEFT OUTER JOIN: one output row for each match, and one with nulls when there is no match. */
  function LeftJoin<A>(left: seq<A>, key: A -> int, right: seq<Total>): seq<(A, Option<real>)> {
    if left == [] then []
    else
      var matches := Matching(right, key(left[0]));
      (if matches == [] then [(left[0], None)] else Paired(left[0], matches)) + LeftJoin(left[1..], key, right)
  }

  lemma {:induction false} NoMatch(right: seq<Total>, key: int)
    requires forall t :: t in right ==> t.ingredient != key
    ensures Matching(right, key) == [] && Lookup(right, key) == None
  {
    if right != [] {
      NoMatch(right[1..], key);
    }
  }

  lemma {:induction false} OneMatch(right: seq<Total>, key: int)
    requires DistinctKeys(right)
    ensures |Matching(right, key)| <= 1
    ensures Lookup(right, key) == if Matching(right, key) == [] then None else Some(Matching(right, key)[0].total)
  {
    if right != [] {
      if right[0].ingredient == key {
        NoMatch(right[1..], key);
      } else {
        OneMatch(right[1..], key);
      }
    }
  }

  /** Joining with a grouped table neither drops nor repeats a row. */
  lemma {:induction false} JoinKeepsRows<A>(left: seq<A>, key: A -> int, right: seq<Total>)
    requires DistinctKeys(right)
    ensures |LeftJoin(left, key, right)| == |left|
    ensures forall i :: 0 <= i < |left| ==> LeftJoin(left, key, right)[i] == (left[i], Lookup(right, key(left[i])))
  {
    if left != [] {
      OneMatch(right, key(left[0]));
      JoinKeepsRows(left[1..], key, right);
      var matches := Matching(right, key(left[0]));
      if matches != [] {
        assert matches[1..] == [];
        assert Paired(left[0], matches) == [(left[0], Some(matches[0].total))];
      }
    }
  }

  // ---------- the stock query ----------

  function OnIngredient(): Ingredient -> int {
    (i: Ingredient) => i.id
  }

  function OnJoined(): ((Ingredient, Option<real>)) -> int {
    (row: (Ingredient, Option<real>)) => row.0.id
  }

  /** The select list: the ingredient and its coalesced difference. */
  function Selected(rows: seq<((Ingredient, Option<real>), Option<real>)>): seq<(Ingredient, real)> {
    seq(|rows|, i requires 0 <= i < |rows| => (rows[i].0.0, Coalesce(rows[i].0.1) - Coalesce(rows[i].1)))
  }

  function StockRows(ingredients: seq<Ingredient>, entries: seq<Movement>, exits: seq<Movement>, location: int)
    : seq<(Ingredient, real)>
  {
    var withEntries := LeftJoin(ingredients, OnIngredient(), Grouped(entries, location));
    Selected(LeftJoin(withEntries, OnJoined(), Grouped(exits, location)))
  }

  /**
   For every content of the three tables the query returns exactly one row for each ingredient, with
   the plain difference of the sums, also for ingredients without entries or without exits.
   */
  lemma StockRowsAreNaive(ingredients: seq<Ingredient>, entries: seq<Movement>, exits: seq<Movement>, location: int)
    ensures |StockRows(ingredients, entries, exits, location)| == |ingredients|
    ensures forall i :: 0 <= i < |ingredients| ==>
              StockRows(ingredients, entries, exits, location)[i]
              == (ingredients[i], Stock(entries, exits, ingredients[i].id, location))
  {
    GroupedKeys(entries, location);
    GroupedKeys(exits, location);
    var withEntries := LeftJoin(ingredients, OnIngredient(), Grouped(entries, location));
    JoinKeepsRows(ingredients, OnIngredient(), Grouped(entries, location));
    JoinKeepsRows(withEntries, OnJoined(), Grouped(exits, location));
    forall i | 0 <= i < |ingredients|
      ensures StockRows(ingredients, entries, exits, location)[i]
           == (ingredients[i], Stock(entries, exits, ingredients[i].id, location))
    {
      GroupedIsSum(entries, location, ingredients[i].id);
      GroupedIsSum(exits, location, ingredients[i].id);
    }
  }

  /** The query restricted to one ingredient. */
  function StockRowsOf(rows: seq<(Ingredient, real)>, ingredient: int): seq<(Ingredient, real)> {
    if rows == [] then []
    else (if rows[0].0.id == ingredient then [rows[0]] else []) + StockRowsOf(rows[1..], ingredient)
  }

  /** The first row of the restricted query, or nothing: what the handler reads before it decides. */
  function StockOf(ingredients: seq<Ingredient>, entries: seq<Movement>, exits: seq<Movement>, ingredient: int,
                   location: int)
    : Option<real>
  {
    var rows := StockRowsOf(StockRows(ingredients, entries, exits, location), ingredient);
    if rows == [] then None else Some(rows[0].1)
  }

  predicate Known(ingredients: seq<Ingredient>, ingredient: int) {
    exists i :: 0 <= i < |ingredients| && ingredients[i].id == ingredient
  }

  lemma {:induction false} RestrictedRows(rows: seq<(Ingredient, real)>, ingredient: int)
    ensures
      var r := StockRowsOf(rows, ingredient);
      if r == [] then forall i :: 0 <= i < |rows| ==> rows[i].0.id != ingredient
      else exists i :: 0 <= i < |rows| && rows[i].0.id == ingredient && rows[i] == r[0]
  {
    if rows != [] && rows[0].0.id != ingredient {
      RestrictedRows(rows[1..], ingredient);
      if StockRowsOf(rows, ingredient) != [] {
        var i :| 0 <= i < |rows[1..]| && rows[1..][i].0.id == ingredient
                 && rows[1..][i] == StockRowsOf(rows, ingredient)[0];
        assert rows[i + 1] == rows[1..][i];
      } else {
        assert forall i :: 0 < i < |rows| ==> rows[i] == rows[1..][i - 1];
      }
    }
  }

  /** The handler reads the true stock, and finds no row exactly for an unknown ingredient. */
  lemma StockOfIsStock(ingredients: seq<Ingredient>, entries: seq<Movement>, exits: seq<Movement>, ingredient: int,
                       location: int)
    ensures StockOf(ingredients, entries, exits, ingredient, location)
         == if Known(ingredients, ingredient) then Some(Stock(entries, exits, ingredient, location)) else None
  {
    var all := StockRows(ingredients, entries, exits, location);
    StockRowsAreNaive(ingredients, entries, exits, location);
    RestrictedRows(all, ingredient);
    if Known(ingredients, ingredient) {
      var i :| 0 <= i < |ingredients| && ingredients[i].id == ingredient;
      assert all[i].0.id == ingredient;
    }
  }
}
