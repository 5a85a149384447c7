/**
 Any number of order transactions interleaved on Postgres: every statement sees what is committed when
 it runs, and an outbound order holds the advisory lock of its (ingredient, location) from before it
 reads the stock until its transaction ends.
 */
module StockRace {
  import opened Options
  import opened StockQuery
  import opened StockLedger

  type Pair = (int, int)

  datatype Phase =
    | Begun
    | Found
    | Locked
    | Read(available: real)
    | Inserted
    | Committed
    | RolledBack(why: Refusal)

  datatype Tx = Tx(order: Order, authorized: bool, phase: Phase)

  datatype State = State(
    ingredients: seq<Ingredient>,
    entries: seq<Movement>,
    exits: seq<Movement>,
    txs: map<nat, Tx>,
    locks: map<Pair, nat>)

  datatype Step =
    | Begin(id: nat, order: Order, authorized: bool)
    | FindIngredient(id: nat)
    | TakeLock(id: nat)
    | ReadStock(id: nat)
    | Insert(id: nat)
    | Commit(id: nat)
    | Interrupt(id: nat)

  function PairOf(order: Order): Pair { (order.ingredient, order.location) }

  function StockIn(s: State, pair: Pair): real {
    Stock(s.entries, s.exits, pair.0, pair.1)
  }

  // ---------- one step ----------

  function At(s: State, id: nat, phase: Phase): State
    requires id in s.txs
  {
    s.(txs := s.txs[id := s.txs[id].(phase := phase)])
  }

  /** The end of a transaction frees its advisory lock. */
  function Released(s: State, id: nat): State
    requires id in s.txs
  {
    var pair := PairOf(s.txs[id].order);
    if pair in s.locks && s.locks[pair] == id then s.(locks := s.locks - {pair}) else s
  }

  function Stop(s: State, id: nat, why: Refusal): State
    requires id in s.txs
  {
    At(Released(s, id), id, RolledBack(why))
  }

  predicate Enabled(s: State, step: Step) {
    match step
    case Begin(id, order, authorized) => id !in s.txs
    case FindIngredient(id) => id in s.txs && s.txs[id].phase.Begun?
    case TakeLock(id) =>
      id in s.txs && s.txs[id].phase.Found? && s.txs[id].order.Outbound? && PairOf(s.txs[id].order) !in s.locks
    case ReadStock(id) => id in s.txs && s.txs[id].phase.Locked?
    case Insert(id) =>
      id in s.txs && (s.txs[id].phase.Read? || (s.txs[id].order.Inbound? && s.txs[id].phase.Found?))
    case Commit(id) => id in s.txs && s.txs[id].phase.Inserted?
    case Interrupt(id) => id in s.txs && !s.txs[id].phase.Committed? && !s.txs[id].phase.RolledBack?
  }

  function Screened(s: State, id: nat): State
    requires id in s.txs
  {
    var tx := s.txs[id];
    var refusal := Screen(tx.order, tx.authorized);
    if refusal.Some? then Stop(s, id, refusal.value)
    else if !Known(s.ingredients, tx.order.ingredient) then Stop(s, id, IngredientNotFound)
    else At(s, id, Found)
  }

  function Looked(s: State, id: nat): State
    requires id in s.txs
  {
    var order := s.txs[id].order;
    var available := StockOf(s.ingredients, s.entries, s.exits, order.ingredient, order.location);
    if available.None? then Stop(s, id, IngredientNotFound) else At(s, id, Read(available.value))
  }

  function Checked(s: State, id: nat): State
    requires id in s.txs
  {
    var tx := s.txs[id];
    if tx.phase.Read? && tx.phase.available - tx.order.quantity < 0.0
    then Stop(s, id, InsufficientStock(tx.phase.available))
    else At(s, id, Inserted)
  }

  /** The inserted row becomes visible to everyone, and the lock goes. */
  function Visible(s: State, id: nat): State
    requires id in s.txs
  {
    var order := s.txs[id].order;
    var written :=
      if order.Inbound? then s.(entries := s.entries + [RowOf(order)]) else s.(exits := s.exits + [RowOf(order)]);
    At(Released(written, id), id, Committed)
  }

  function Apply(s: State, step: Step): State
    requires Enabled(s, step)
  {
    match step
    case Begin(id, order, authorized) => s.(txs := s.txs[id := Tx(order, authorized, Begun)])
    case FindIngredient(id) => Screened(s, id)
    case TakeLock(id) => At(s.(locks := s.locks[PairOf(s.txs[id].order) := id]), id, Locked)
    case ReadStock(id) => Looked(s, id)
    case Insert(id) => Checked(s, id)
    case Commit(id) => Visible(s, id)
    case Interrupt(id) => Stop(s, id, Interrupted)
  }

  // ---------- what each statement decides ----------

  /** Only the transaction `id` went on to another phase; a lock of its pair is freed when it ends. */
  ghost predicate GoesOnTo(s: State, t: State, id: nat, phase: Phase) {
    && id in s.txs && t.ingredients == s.ingredients
    && (forall other :: other in t.txs <==> other in s.txs)
    && (forall other :: other in s.txs && other != id ==> t.txs[other] == s.txs[other])
    && id in t.txs && t.txs[id] == Tx(s.txs[id].order, s.txs[id].authorized, phase)
    && (forall pair :: pair in s.locks && s.locks[pair] != id ==> pair in t.locks && t.locks[pair] == s.locks[pair])
  }

  ghost predicate Ends(s: State, t: State, id: nat, phase: Phase) {
    && GoesOnTo(s, t, id, phase) && t.locks.Keys <= s.locks.Keys
    && var pair := PairOf(s.txs[id].order); pair in t.locks ==> t.locks[pair] != id
  }

  /** The first checks, in their order. */
  lemma FirstChecksDecide(s: State, id: nat)
    requires Enabled(s, FindIngredient(id))
    ensures
      var t := Apply(s, FindIngredient(id));
      var order, authorized := s.txs[id].order, s.txs[id].authorized;
      && TablesOf(t) == TablesOf(s)
      && if order.quantity <= 0.0 then Ends(s, t, id, RolledBack(InvalidQuantity))
         else if !authorized then Ends(s, t, id, RolledBack(Forbidden))
         else if order.Outbound? && order.reason != "consumption" && order.reason != "waste"
              then Ends(s, t, id, RolledBack(InvalidReason))
         else if !Exists(TablesOf(s), order.ingredient) then Ends(s, t, id, RolledBack(IngredientNotFound))
         else GoesOnTo(s, t, id, Found) && t.locks == s.locks
  {
    KnownExists(TablesOf(s), s.txs[id].order.ingredient);
  }

  /** The read sees the stock of the moment. */
  lemma ReadSeesStock(s: State, id: nat)
    requires Enabled(s, ReadStock(id))
    ensures
      var t := Apply(s, ReadStock(id));
      var order := s.txs[id].order;
      && TablesOf(t) == TablesOf(s)
      && if Exists(TablesOf(s), order.ingredient)
         then GoesOnTo(s, t, id, Read(StockIn(s, (order.ingredient, order.location)))) && t.locks == s.locks
         else Ends(s, t, id, RolledBack(IngredientNotFound))
  {
    var order := s.txs[id].order;
    KnownExists(TablesOf(s), order.ingredient);
    StockOfIsStock(s.ingredients, s.entries, s.exits, order.ingredient, order.location);
  }

  /** An order for no more than it has read goes on, also for exactly as much; any other outbound order is refused. */
  lemma InsertDecides(s: State, id: nat)
    requires Enabled(s, Insert(id))
    ensures
      var t := Apply(s, Insert(id));
      var tx := s.txs[id];
      && TablesOf(t) == TablesOf(s)
      && if tx.phase.Read? && tx.order.quantity > tx.phase.available
         then Ends(s, t, id, RolledBack(InsufficientStock(tx.phase.available)))
         else GoesOnTo(s, t, id, Inserted) && t.locks == s.locks
  {
  }

  /** The commit makes the one row visible and frees the lock. */
  lemma CommitRecords(s: State, id: nat)
    requires Enabled(s, Commit(id))
    ensures
      var t := Apply(s, Commit(id));
      Recorded(TablesOf(s), TablesOf(t), s.txs[id].order, true) && Ends(s, t, id, Committed)
  {
  }

  /** A lock is taken only when free, and an interrupted transaction writes nothing. */
  lemma LockAndInterrupt(s: State, step: Step)
    requires Enabled(s, step) && (step.TakeLock? || step.Interrupt?)
    ensures
      var t := Apply(s, step);
      && TablesOf(t) == TablesOf(s)
      && if step.Interrupt? then Ends(s, t, step.id, RolledBack(Interrupted))
         else
           var pair := (s.txs[step.id].order.ingredient, s.txs[step.id].order.location);
           GoesOnTo(s, t, step.id, Locked) && pair !in s.locks && t.locks == s.locks[pair := step.id]
  {
  }

  // ---------- the invariant ----------

  predicate InLockedSection(tx: Tx) {
    tx.order.Outbound? && (tx.phase.Locked? || tx.phase.Read? || tx.phase.Inserted?)
  }

  /** A transaction in its locked section holds the lock of its pair. */
  ghost predicate HoldsItsLock(s: State, id: nat) {
    id in s.txs && InLockedSection(s.txs[id]) ==>
      PairOf(s.txs[id].order) in s.locks && s.locks[PairOf(s.txs[id].order)] == id
  }

  /** What it has read is still covered by the committed stock; what it has inserted is too. */
  ghost predicate Covered(s: State, id: nat) {
    id in s.txs && s.txs[id].order.Outbound? ==>
      var tx := s.txs[id];
      && (tx.phase.Read? ==> tx.phase.available <= StockIn(s, PairOf(tx.order)))
      && (tx.phase.Inserted? ==> tx.order.quantity <= StockIn(s, PairOf(tx.order)))
  }

  /** Orders past the first checks have passed them; only outbound orders lock and read. */
  ghost predicate WellPhased(s: State, id: nat) {
    id in s.txs ==>
      var tx := s.txs[id];
      && (!tx.phase.Begun? && !tx.phase.RolledBack? ==>
            Screen(tx.order, tx.authorized).None? && Known(s.ingredients, tx.order.ingredient))
      && (tx.order.Inbound? ==> !tx.phase.Locked? && !tx.phase.Read?)
  }

  ghost predicate NoneNegative(s: State) {
    forall pair :: StockIn(s, pair) >= 0.0
  }

  ghost predicate Inv(s: State) {
    && NoneNegative(s)
    && (forall id :: HoldsItsLock(s, id))
    && (forall id :: Covered(s, id))
    && (forall id :: WellPhased(s, id))
  }

  // ---------- what a step does to the committed stock ----------

  /** The change of one pair's stock: only a commit changes stock, and only that of its own pair. */
  function Delta(s: State, step: Step, pair: Pair): real
    requires Enabled(s, step)
  {
    if step.Commit? && PairOf(s.txs[step.id].order) == pair
    then if s.txs[step.id].order.Inbound? then s.txs[step.id].order.quantity else -s.txs[step.id].order.quantity
    else 0.0
  }

  /** Tables change at commits only. */
  lemma OnlyCommitsWrite(s: State, step: Step)
    requires Enabled(s, step)
    ensures
      var t := Apply(s, step);
      if !step.Commit? then t.entries == s.entries && t.exits == s.exits
      else
        var order := s.txs[step.id].order;
        && t.entries == s.entries + (if order.Inbound? then [RowOf(order)] else [])
        && t.exits == s.exits + (if order.Inbound? then [] else [RowOf(order)])
  {
  }

  lemma RowMovesStock(entries: seq<Movement>, exits: seq<Movement>, order: Order, ingredient: int, location: int)
    ensures
      var row := RowOf(order);
      Stock(entries + (if order.Inbound? then [row] else []), exits + (if order.Inbound? then [] else [row]),
            ingredient, location)
      == Stock(entries, exits, ingredient, location)
         + (if (order.ingredient, order.location) != (ingredient, location) then 0.0
            else if order.Inbound? then order.quantity else -order.quantity)
  {
    SumAppended(entries, RowOf(order), ingredient, location);
    SumAppended(exits, RowOf(order), ingredient, location);
    assert entries + [] == entries && exits + [] == exits;
  }

  lemma StepMovesStock(s: State, step: Step, pair: Pair)
    requires Enabled(s, step)
    ensures StockIn(Apply(s, step), pair) == StockIn(s, pair) + Delta(s, step, pair)
  {
    OnlyCommitsWrite(s, step);
    if step.Commit? {
      RowMovesStock(s.entries, s.exits, s.txs[step.id].order, pair.0, pair.1);
    }
  }

  /** Two transactions in their locked sections work on different pairs. */
  lemma LockedSectionsAreDisjoint(s: State, a: nat, b: nat)
    requires HoldsItsLock(s, a) && HoldsItsLock(s, b)
    requires a in s.txs && b in s.txs && InLockedSection(s.txs[a]) && InLockedSection(s.txs[b])
    ensures a == b || PairOf(s.txs[a].order) != PairOf(s.txs[b].order)
  {
  }

  // ---------- the invariant is kept ----------

  /** A step changes no transaction but its own. */
  lemma OthersKeepTheirPhase(s: State, step: Step, other: nat)
    requires Enabled(s, step) && other != step.id
    ensures (other in Apply(s, step).txs) == (other in s.txs)
    ensures other in s.txs ==> Apply(s, step).txs[other] == s.txs[other]
  {
  }

  lemma LocksStepKept(s: State, step: Step, id: nat)
    requires Enabled(s, step) && HoldsItsLock(s, id) && HoldsItsLock(s, step.id) && WellPhased(s, step.id)
    ensures HoldsItsLock(Apply(s, step), id)
  {
  }

  lemma OwnPhaseStepKept(s: State, step: Step)
    requires Enabled(s, step) && WellPhased(s, step.id)
    ensures WellPhased(Apply(s, step), step.id)
  {
  }

  lemma PhasesStepKept(s: State, step: Step, id: nat)
    requires Enabled(s, step) && WellPhased(s, id)
    ensures WellPhased(Apply(s, step), id)
  {
    if id == step.id {
      OwnPhaseStepKept(s, step);
    } else {
      OthersKeepTheirPhase(s, step, id);
    }
  }

  /** Nobody else takes stock from a pair while a transaction holds its lock. */
  lemma OthersStayCovered(s: State, step: Step, id: nat)
    requires Enabled(s, step) && Covered(s, id) && id != step.id
    requires HoldsItsLock(s, id) && HoldsItsLock(s, step.id) && WellPhased(s, step.id)
    ensures Covered(Apply(s, step), id)
  {
    OthersKeepTheirPhase(s, step, id);
    if id in s.txs && InLockedSection(s.txs[id]) {
      StepMovesStock(s, step, PairOf(s.txs[id].order));
      if step.Commit? && InLockedSection(s.txs[step.id]) {
        LockedSectionsAreDisjoint(s, id, step.id);
      }
    }
  }

  lemma StepperIsCovered(s: State, step: Step)
    requires Enabled(s, step) && Covered(s, step.id) && WellPhased(s, step.id)
    ensures Covered(Apply(s, step), step.id)
  {
    if step.ReadStock? {
      var order := s.txs[step.id].order;
      StockOfIsStock(s.ingredients, s.entries, s.exits, order.ingredient, order.location);
    }
  }

  lemma StepNeverOverdraws(s: State, step: Step, pair: Pair)
    requires Enabled(s, step) && Covered(s, step.id) && WellPhased(s, step.id) && StockIn(s, pair) >= 0.0
    ensures StockIn(Apply(s, step), pair) >= 0.0
  {
    StepMovesStock(s, step, pair);
  }

  lemma StepKeepsInv(s: State, step: Step)
    requires Enabled(s, step) && Inv(s)
    ensures Inv(Apply(s, step))
  {
    var t := Apply(s, step);
    forall pair ensures StockIn(t, pair) >= 0.0 {
      StepNeverOverdraws(s, step, pair);
    }
    forall id ensures HoldsItsLock(t, id) {
      LocksStepKept(s, step, id);
    }
    forall id ensures WellPhased(t, id) {
      PhasesStepKept(s, step, id);
    }
    forall id ensures Covered(t, id) {
      if id == step.id {
        StepperIsCovered(s, step);
      } else {
        OthersStayCovered(s, step, id);
      }
    }
  }

  // ---------- runs ----------

  ghost predicate Runs(s: State, steps: seq<Step>, t: State)
    decreases |steps|
  {
    if steps == [] then s == t
    else Enabled(s, steps[0]) && Runs(Apply(s, steps[0]), steps[1..], t)
  }

  /** What the commits of a run moved in or out of one pair. */
  function Moved(s: State, steps: seq<Step>, pair: Pair): real
    decreases |steps|
  {
    if steps == [] || !Enabled(s, steps[0]) then 0.0
    else Delta(s, steps[0], pair) + Moved(Apply(s, steps[0]), steps[1..], pair)
  }

  /** A database at rest: no transaction open and nothing overdrawn. */
  ghost predicate AtRest(s: State) {
    s.txs == map[] && s.locks == map[] && NoneNegative(s)
  }

  /** Whatever orders run, and however their statements interleave, no stock is ever negative. */
  lemma {:induction false} RunNeverOverdraws(s: State, steps: seq<Step>, t: State)
    requires Inv(s) && Runs(s, steps, t)
    ensures Inv(t)
    decreases |steps|
  {
    if steps != [] {
      StepKeepsInv(s, steps[0]);
      RunNeverOverdraws(Apply(s, steps[0]), steps[1..], t);
    }
  }

  lemma StockIsNeverNegative(s: State, steps: seq<Step>, t: State, pair: Pair)
    requires AtRest(s) && Runs(s, steps, t)
    ensures StockIn(t, pair) >= 0.0
  {
    RunNeverOverdraws(s, steps, t);
  }

  /** Conservation: the stock of a pair moves by exactly the committed orders on that pair. */
  lemma {:induction false} StockIsConserved(s: State, steps: seq<Step>, t: State, pair: Pair)
    requires Runs(s, steps, t)
    ensures StockIn(t, pair) == StockIn(s, pair) + Moved(s, steps, pair)
    decreases |steps|
  {
    if steps != [] {
      StepMovesStock(s, steps[0], pair);
      StockIsConserved(Apply(s, steps[0]), steps[1..], t, pair);
    }
  }

  /** A run without a commit on a pair leaves its stock alone. */
  lemma {:induction false} OtherPairsAreUntouched(s: State, steps: seq<Step>, t: State, pair: Pair)
    requires Runs(s, steps, t)
    requires forall step :: step in steps && step.Commit? && step.id in t.txs ==> PairOf(t.txs[step.id].order) != pair
    ensures StockIn(t, pair) == StockIn(s, pair)
    decreases |steps|
  {
    if steps != [] {
      StepMovesStock(s, steps[0], pair);
      OrdersNeverChange(Apply(s, steps[0]), steps[1..], t, steps[0].id);
      OtherPairsAreUntouched(Apply(s, steps[0]), steps[1..], t, pair);
    }
  }

  lemma {:induction false} OrdersNeverChange(s: State, steps: seq<Step>, t: State, id: nat)
    requires Runs(s, steps, t) && id in s.txs
    ensures id in t.txs && t.txs[id].order == s.txs[id].order
    decreases |steps|
  {
    if steps != [] {
      OrdersNeverChange(Apply(s, steps[0]), steps[1..], t, id);
    }
  }

  // ---------- serializability ----------

  function TablesOf(s: State): Tables { Tables(s.ingredients, s.entries, s.exits) }

  datatype Request = Request(order: Order, authorized: bool)

  /** The committed orders of a run, in the order of their commits. */
  function CommitOrder(s: State, steps: seq<Step>): seq<Request>
    decreases |steps|
  {
    if steps == [] || !Enabled(s, steps[0]) then []
    else
      (if steps[0].Commit? then [Request(s.txs[steps[0].id].order, s.txs[steps[0].id].authorized)] else [])
      + CommitOrder(Apply(s, steps[0]), steps[1..])
  }

  /** The endpoints called one after the other. */
  function SubmitAll(db: Tables, requests: seq<Request>): Tables
    decreases |requests|
  {
    if requests == [] then db
    else SubmitAll(Submit(db, requests[0].order, requests[0].authorized), requests[1..])
  }

  /** An order that commits is one the endpoint would accept on the tables of that very moment. */
  lemma CommitIsAccepted(s: State, id: nat)
    requires Inv(s) && Enabled(s, Commit(id))
    ensures Decide(TablesOf(s), s.txs[id].order, s.txs[id].authorized) == Accepted(RowOf(s.txs[id].order))
  {
    assert Covered(s, id) && WellPhased(s, id);
  }

  /** Every interleaving leaves the tables that the serial endpoints leave when called in commit order. */
  lemma {:induction false} RunsAreSerializable(s: State, steps: seq<Step>, t: State)
    requires Inv(s) && Runs(s, steps, t)
    ensures TablesOf(t) == SubmitAll(TablesOf(s), CommitOrder(s, steps))
    decreases |steps|
  {
    if steps != [] {
      var step := steps[0];
      StepKeepsInv(s, step);
      RunsAreSerializable(Apply(s, step), steps[1..], t);
      CommitTables(s, step);
      var later := CommitOrder(Apply(s, step), steps[1..]);
      if step.Commit? {
        var first := Request(s.txs[step.id].order, s.txs[step.id].authorized);
        assert ([first] + later)[1..] == later;
      } else {
        assert [] + later == later;
      }
    }
  }

  lemma CommitTables(s: State, step: Step)
    requires Inv(s) && Enabled(s, step)
    ensures TablesOf(Apply(s, step))
         == if step.Commit? then Submit(TablesOf(s), s.txs[step.id].order, s.txs[step.id].authorized) else TablesOf(s)
  {
    OnlyCommitsWrite(s, step);
    IngredientsStay(s, step);
    if step.Commit? {
      CommitIsAccepted(s, step.id);
      assert s.entries + [] == s.entries && s.exits + [] == s.exits;
    }
  }

  lemma IngredientsStay(s: State, step: Step)
    requires Enabled(s, step)
    ensures Apply(s, step).ingredients == s.ingredients
  {
  }
}
