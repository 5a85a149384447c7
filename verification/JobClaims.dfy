/**
 Any number of workers claiming and finalizing jobs. Every statement commits on its own, so a
 worker can be overtaken between any two of them.
 */
module JobClaims {
  import opened Options
  import opened JobRuns

  type Worker = nat

  /** The statement a worker executes next; the time of a claim is read once, when it begins. */
  datatype Pc =
    | Idle
    | Inserting(key: Key, now: Seconds)
    | Reading(key: Key, now: Seconds)
    | InsertingAgain(key: Key, now: Seconds)
    | MarkingStale(key: Key, now: Seconds)
    | Reclaiming(key: Key, now: Seconds)
    | Holding(key: Key)
    | Finalizing(key: Key, status: Status, error: Option<string>, attempt: nat)
    | Rechecking(key: Key, status: Status, error: Option<string>, attempt: nat)

  datatype System = System(table: Table, pcs: map<Worker, Pc>, clock: Seconds)

  function PcOf(s: System, w: Worker): Pc {
    if w in s.pcs then s.pcs[w] else Idle
  }

  datatype Step =
    | Tick(elapsed: nat)
    | BeginClaim(worker: Worker, key: Key)
    | Advance(worker: Worker)
    | BeginFinalize(worker: Worker, status: Status, error: Option<string>)
    | StatementFails(worker: Worker)
    | Leave(worker: Worker)

  function At(s: System, w: Worker, pc: Pc): System {
    s.(pcs := s.pcs[w := pc])
  }

  /** An attempt of the finalizer failed: try again, or give up after the last and hand back to the caller. */
  function NextAttempt(pc: Pc): Pc
    requires pc.Finalizing? || pc.Rechecking?
  {
    if pc.attempt < TERMINAL_RETRY_ATTEMPTS then Finalizing(pc.key, pc.status, pc.error, pc.attempt + 1)
    else Holding(pc.key)
  }

  /** The branches of a claim after its read. */
  function AfterRead(t: Table, k: Key, now: Seconds): Pc {
    if k !in t then InsertingAgain(k, now)
    else
      match t[k].status
      case Completed => Idle
      case Processing => if IsFresh(t[k], now) then Idle else MarkingStale(k, now)
      case Failed => Reclaiming(k, now)
      case Pending => Idle
  }

  function Statement(s: System, w: Worker): System {
    match PcOf(s, w)
    case Idle => s
    case Inserting(k, now) =>
      var (t, won) := Insert(s.table, k, now);
      At(s.(table := t), w, if won then Holding(k) else Reading(k, now))
    case Reading(k, now) => At(s, w, AfterRead(s.table, k, now))
    case InsertingAgain(k, now) =>
      var (t, won) := Insert(s.table, k, now);
      At(s.(table := t), w, if won then Holding(k) else Idle)
    case MarkingStale(k, now) =>
      var (t, marked) := MarkStale(s.table, k, now);
      At(s.(table := t), w, if marked then Reclaiming(k, now) else Idle)
    case Reclaiming(k, now) =>
      var (t, won) := Reclaim(s.table, k, now);
      At(s.(table := t), w, if won then Holding(k) else Idle)
    case Holding(k) => s
    case Finalizing(k, status, error, attempt) =>
      var (t, written) := Finalize(s.table, k, status, error, s.clock);
      At(s.(table := t), w, if written then Idle else Rechecking(k, status, error, attempt))
    case Rechecking(k, status, _, _) =>
      At(s, w, if HasStatus(s.table, k, status) then Idle else NextAttempt(PcOf(s, w)))
  }

  /** A failed statement writes nothing: a claim is abandoned, a finalizer goes to its next attempt. */
  function FailStatement(s: System, w: Worker): System {
    match PcOf(s, w)
    case Finalizing(_, _, _, _) => At(s, w, NextAttempt(PcOf(s, w)))
    case Rechecking(_, _, _, _) => At(s, w, NextAttempt(PcOf(s, w)))
    case Holding(_) => s
    case _ => At(s, w, Idle)
  }

  function Take(s: System, step: Step): System {
    match step
    case Tick(elapsed) => s.(clock := s.clock + elapsed)
    case BeginClaim(w, k) => if PcOf(s, w) == Idle then At(s, w, Inserting(k, s.clock)) else s
    case Advance(w) => Statement(s, w)
    case BeginFinalize(w, status, error) =>
      if PcOf(s, w).Holding? && (status == Completed || status == Failed)
      then At(s, w, Finalizing(PcOf(s, w).key, status, error, 1)) else s
    case StatementFails(w) => FailStatement(s, w)
    case Leave(w) => At(s, w, Idle)
  }

  function Run(s: System, steps: seq<Step>): System
    decreases |steps|
  {
    if steps == [] then s else Run(Take(s, steps[0]), steps[1..])
  }

  const EMPTY_SYSTEM := System(map[], map[], 0)

  // ---------- what each statement writes, and where its worker goes on ----------

  /** Only the place of `w` differs. */
  ghost predicate OnlyWorker(s: System, t: System, w: Worker) {
    t.clock == s.clock && forall v :: v != w ==> PcOf(t, v) == PcOf(s, v)
  }

  /** The insert of a claim wins exactly where no row is; after losing, the first reads and the second gives up. */
  lemma InsertWrites(s: System, w: Worker, k: Key, now: Seconds)
    requires PcOf(s, w) == Inserting(k, now) || PcOf(s, w) == InsertingAgain(k, now)
    ensures
      var t := Take(s, Advance(w));
      && OnlyWorker(s, t, w)
      && if k !in s.table then OpensRow(s.table, t.table, k, now) && PcOf(t, w) == Holding(k)
         else t.table == s.table && PcOf(t, w) == if PcOf(s, w).Inserting? then Reading(k, now) else Idle
  {
  }

  /** The read decides by the status, and for a processing row by its age: over six hours is taken over. */
  lemma ReadDecides(s: System, w: Worker, k: Key, now: Seconds)
    requires PcOf(s, w) == Reading(k, now)
    ensures
      var t := Take(s, Advance(w));
      && OnlyWorker(s, t, w) && t.table == s.table
      && (PcOf(t, w) == InsertingAgain(k, now) <==> k !in s.table)
      && (PcOf(t, w) == Reclaiming(k, now) <==> HasStatus(s.table, k, Failed))
      && (PcOf(t, w) == MarkingStale(k, now) <==>
            HasStatus(s.table, k, Processing) && now - s.table[k].startedAt > 6 * 3600)
      && (PcOf(t, w) == Idle || PcOf(t, w) in {InsertingAgain(k, now), Reclaiming(k, now), MarkingStale(k, now)})
  {
  }

  /** A take-over first closes the processing row, then opens the failed one; either can find it changed. */
  lemma TakeOverWrites(s: System, w: Worker, k: Key, now: Seconds)
    requires PcOf(s, w) == MarkingStale(k, now) || PcOf(s, w) == Reclaiming(k, now)
    ensures
      var t := Take(s, Advance(w));
      && OnlyWorker(s, t, w)
      && if PcOf(s, w).MarkingStale? && HasStatus(s.table, k, Processing) then
           && ClosesRow(s.table, t.table, k, Failed, Some("stale lock takeover"), now)
           && PcOf(t, w) == Reclaiming(k, now)
         else if PcOf(s, w).Reclaiming? && HasStatus(s.table, k, Failed) then
           OpensRow(s.table, t.table, k, now) && PcOf(t, w) == Holding(k)
         else t.table == s.table && PcOf(t, w) == Idle
  {
  }

  /**
   A worker asked to finalize with a status leaves a processing row with that status, the bounded
   message and the time of the statement; it ends there, or looks again at a row it did not write.
   */
  lemma FinalizerWrites(s: System, w: Worker, k: Key, status: Status, error: Option<string>, attempt: nat)
    requires PcOf(s, w) == Finalizing(k, status, error, attempt)
    ensures
      var t := Take(s, Advance(w));
      && OnlyWorker(s, t, w)
      && if HasStatus(s.table, k, Processing) then
           ClosesRow(s.table, t.table, k, status, BoundError(error), s.clock) && PcOf(t, w) == Idle
         else t.table == s.table && PcOf(t, w) == Rechecking(k, status, error, attempt)
  {
  }

  /** A row that already has the wanted status is a success; otherwise there are three attempts in all. */
  lemma RecheckDecides(s: System, w: Worker, k: Key, status: Status, error: Option<string>, attempt: nat)
    requires PcOf(s, w) == Rechecking(k, status, error, attempt)
    ensures
      var t := Take(s, Advance(w));
      && OnlyWorker(s, t, w) && t.table == s.table
      && PcOf(t, w) == if HasStatus(s.table, k, status) then Idle
                       else if attempt < 3 then Finalizing(k, status, error, attempt + 1)
                       else Holding(k)
  {
  }

  /** A worker that starts to finalize and is not disturbed leaves its row with the status it was asked for. */
  lemma UndisturbedFinalize(s: System, w: Worker, k: Key, status: Status, error: Option<string>)
    requires PcOf(s, w) == Holding(k) && HasStatus(s.table, k, Processing) && (status == Completed || status == Failed)
    ensures
      var t := Run(s, [BeginFinalize(w, status, error), Advance(w)]);
      PcOf(t, w) == Idle && ClosesRow(s.table, t.table, k, status, BoundError(error), s.clock)
  {
    var begun := Take(s, BeginFinalize(w, status, error));
    assert [BeginFinalize(w, status, error), Advance(w)] == [BeginFinalize(w, status, error)] + [Advance(w)];
    assert [Advance(w)] == [Advance(w)] + [];
    RunOne(s, BeginFinalize(w, status, error), [Advance(w)]);
    RunOne(begun, Advance(w), []);
    FinalizerWrites(begun, w, k, status, error, 1);
  }

  // ---------- wins and transitions ----------

  /** The worker's statement made it the winner of the key. */
  predicate Wins(s: System, step: Step, k: Key) {
    && step.Advance?
    && (PcOf(s, step.worker).Inserting? || PcOf(s, step.worker).InsertingAgain? || PcOf(s, step.worker).Reclaiming?)
    && PcOf(Take(s, step), step.worker) == Holding(k)
  }

  predicate EntersProcessing(s: System, t: System, k: Key) {
    !HasStatus(s.table, k, Processing) && HasStatus(t.table, k, Processing)
  }

  predicate FallsToFailed(s: System, t: System, k: Key) {
    HasStatus(s.table, k, Processing) && HasStatus(t.table, k, Failed)
  }

  /** What a step can do to one row; in particular a completed row is never written again. */
  lemma RowMoves(s: System, step: Step, k: Key)
    ensures
      var t := Take(s, step);
      && (Wins(s, step, k) <==> EntersProcessing(s, t, k))
      && (k in s.table ==> k in t.table)
      && (HasStatus(s.table, k, Completed) ==> k in t.table && t.table[k] == s.table[k])
      && (HasStatus(s.table, k, Processing) && !HasStatus(t.table, k, Processing) ==>
            HasStatus(t.table, k, Failed) || HasStatus(t.table, k, Completed) || HasStatus(t.table, k, Pending))
  {
  }

  lemma {:induction false} CompletedIsAbsorbing(s: System, steps: seq<Step>, k: Key)
    requires HasStatus(s.table, k, Completed)
    ensures k in Run(s, steps).table && Run(s, steps).table[k] == s.table[k]
    decreases |steps|
  {
    if steps != [] {
      RowMoves(s, steps[0], k);
      CompletedIsAbsorbing(Take(s, steps[0]), steps[1..], k);
    }
  }

  function CountWins(s: System, steps: seq<Step>, k: Key): nat
    decreases |steps|
  {
    if steps == [] then 0
    else (if Wins(s, steps[0], k) then 1 else 0) + CountWins(Take(s, steps[0]), steps[1..], k)
  }

  function CountFalls(s: System, steps: seq<Step>, k: Key): nat
    decreases |steps|
  {
    if steps == [] then 0
    else (if FallsToFailed(s, Take(s, steps[0]), k) then 1 else 0) + CountFalls(Take(s, steps[0]), steps[1..], k)
  }

  /** No finalizer was started with a status other than completed or failed. */
  ghost predicate FinalStatuses(s: System) {
    forall w :: (PcOf(s, w).Finalizing? || PcOf(s, w).Rechecking?) ==> PcOf(s, w).status in {Completed, Failed}
  }

  lemma FinalStatusesKept(s: System, step: Step)
    requires FinalStatuses(s)
    ensures FinalStatuses(Take(s, step))
  {
    var t := Take(s, step);
    forall w | PcOf(t, w).Finalizing? || PcOf(t, w).Rechecking?
      ensures PcOf(t, w).status in {Completed, Failed}
    {
      assert (PcOf(s, w).Finalizing? || PcOf(s, w).Rechecking?) ==> PcOf(s, w).status in {Completed, Failed};
    }
  }

  lemma FallsOrCompletes(s: System, step: Step, k: Key)
    requires FinalStatuses(s) && HasStatus(s.table, k, Processing)
    ensures
      var t := Take(s, step);
      HasStatus(t.table, k, Processing) || HasStatus(t.table, k, Failed) || HasStatus(t.table, k, Completed)
  {
    if step.Advance? {
      assert PcOf(s, step.worker).Finalizing? ==> PcOf(s, step.worker).status in {Completed, Failed};
    }
  }

  /**
   Over any interleaving, the wins on a key number the falls from processing to failed, plus one
   for a row that is processing now and was not at the start; so any two wins have a fall between
   them, and nothing wins after completion.
   */
  lemma {:induction false} WinsAreSeparatedByFalls(s: System, steps: seq<Step>, k: Key)
    requires FinalStatuses(s)
    ensures
      var t := Run(s, steps);
      var wins, falls := CountWins(s, steps, k), CountFalls(s, steps, k);
      && (HasStatus(s.table, k, Processing) ==>
            if HasStatus(t.table, k, Processing) || HasStatus(t.table, k, Completed) then wins == falls
            else wins + 1 == falls)
      && (!HasStatus(s.table, k, Processing) && !HasStatus(s.table, k, Completed) ==>
            if HasStatus(t.table, k, Processing) || HasStatus(t.table, k, Completed) then wins == falls + 1
            else wins == falls)
      && (HasStatus(s.table, k, Completed) ==> wins == falls == 0)
    decreases |steps|
  {
    if steps != [] {
      var step := steps[0];
      RowMoves(s, step, k);
      FinalStatusesKept(s, step);
      if HasStatus(s.table, k, Processing) {
        FallsOrCompletes(s, step, k);
      }
      if HasStatus(Take(s, step).table, k, Completed) {
        CompletedIsAbsorbing(Take(s, step), steps[1..], k);
      }
      WinsAreSeparatedByFalls(Take(s, step), steps[1..], k);
    }
  }

  lemma FallBetweenTwoWins(s: System, win: Step, between: seq<Step>, again: Step, k: Key)
    requires FinalStatuses(s) && Wins(s, win, k)
    requires Wins(Run(Take(s, win), between), again, k)
    ensures CountFalls(Take(s, win), between, k) >= 1
  {
    var t := Run(Take(s, win), between);
    RowMoves(s, win, k);
    FinalStatusesKept(s, win);
    WinsAreSeparatedByFalls(Take(s, win), between, k);
    RowMoves(t, again, k);
  }

  // ---------- a claim nobody interleaves with ----------

  /**
   Left alone, the statements of a claim come to the same end as `JobRunner.ClaimJob`: the key is
   won on a missing, failed or stale row, and a lost claim leaves the table as it was.
   */
  lemma UndisturbedClaim(s: System, w: Worker, k: Key)
    requires PcOf(s, w) == Idle
    ensures
      var c1 := Take(Take(Take(s, BeginClaim(w, k)), Advance(w)), Advance(w));
      var t := Take(Take(c1, Advance(w)), Advance(w));
      var wins := k !in s.table || s.table[k].status == Failed
                  || (s.table[k].status == Processing && !IsFresh(s.table[k], s.clock));
      && PcOf(t, w) == (if wins then Holding(k) else Idle)
      && t.table == (if wins then s.table[k := JobRow(Processing, s.clock, None, None,
                                                      if k in s.table then s.table[k].createdAt else s.clock)]
                     else s.table)
      && forall v :: v != w ==> PcOf(t, v) == PcOf(s, v)
  {
    var c0 := Take(s, BeginClaim(w, k));
    var c1 := Take(Take(c0, Advance(w)), Advance(w));
    assert PcOf(c0, w) == Inserting(k, s.clock);
    if k in s.table {
      assert c1.table == s.table && PcOf(c1, w) == AfterRead(s.table, k, s.clock);
    } else {
      assert PcOf(c1, w) == Holding(k);
    }
  }

  // ---------- mutual exclusion ----------

  /** Between winning and finalizing. */
  predicate Holds(s: System, w: Worker, k: Key) {
    PcOf(s, w) == Holding(k)
    || ((PcOf(s, w).Finalizing? || PcOf(s, w).Rechecking?) && PcOf(s, w).key == k)
  }

  /** A claim reads a row of `k` that is processing but older than the limit. */
  predicate StaleRead(s: System, step: Step, k: Key) {
    && step.Advance? && PcOf(s, step.worker).Reading? && PcOf(s, step.worker).key == k
    && HasStatus(s.table, k, Processing) && !IsFresh(s.table[k], PcOf(s, step.worker).now)
  }

  predicate NoStaleReads(s: System, steps: seq<Step>, k: Key)
    decreases |steps|
  {
    steps == [] || (!StaleRead(s, steps[0], k) && NoStaleReads(Take(s, steps[0]), steps[1..], k))
  }

  /** One holder at most, its row still processing, and nobody about to mark that row stale. */
  ghost predicate Exclusive(s: System, k: Key) {
    && (forall w, v :: Holds(s, w, k) && Holds(s, v, k) ==> w == v)
    && (forall w :: Holds(s, w, k) ==> HasStatus(s.table, k, Processing))
    && (forall w :: PcOf(s, w).MarkingStale? ==> PcOf(s, w).key != k)
  }

  /** Who holds the key after a step: those who did, except a finalizer that got through, plus a winner. */
  lemma HoldersAfter(s: System, step: Step, k: Key, w: Worker)
    requires Exclusive(s, k) && Holds(Take(s, step), w, k)
    ensures Holds(s, w, k) || (Wins(s, step, k) && w == step.worker)
    ensures HasStatus(Take(s, step).table, k, Processing)
  {
    RowMoves(s, step, k);
    if step.Advance? {
      assert Holds(s, w, k) && Holds(s, step.worker, k) ==> w == step.worker;
      assert PcOf(s, step.worker).MarkingStale? ==> PcOf(s, step.worker).key != k;
    }
  }

  lemma StepKeepsExclusive(s: System, step: Step, k: Key)
    requires Exclusive(s, k) && !StaleRead(s, step, k)
    ensures Exclusive(Take(s, step), k)
  {
    var t := Take(s, step);
    RowMoves(s, step, k);
    forall w, v | Holds(t, w, k) && Holds(t, v, k)
      ensures w == v
    {
      HoldersAfter(s, step, k, w);
      HoldersAfter(s, step, k, v);
    }
    forall w | Holds(t, w, k)
      ensures HasStatus(t.table, k, Processing)
    {
      HoldersAfter(s, step, k, w);
    }
    forall w | PcOf(t, w).MarkingStale?
      ensures PcOf(t, w).key != k
    {
      assert PcOf(s, w).MarkingStale? ==> PcOf(s, w).key != k;
    }
  }

  /**
   In any run, of any number of workers, in which no claim ever reads a stale row of the key, at
   most one worker at a time is between winning that key and finalizing it.
   */
  lemma {:induction false} OneHolderWithoutStaleReads(s: System, steps: seq<Step>, k: Key)
    requires Exclusive(s, k) && NoStaleReads(s, steps, k)
    ensures Exclusive(Run(s, steps), k)
    decreases |steps|
  {
    if steps != [] {
      StepKeepsExclusive(s, steps[0], k);
      OneHolderWithoutStaleReads(Take(s, steps[0]), steps[1..], k);
    }
  }

  lemma RunOne(s: System, a: Step, rest: seq<Step>)
    ensures Run(s, [a] + rest) == Run(Take(s, a), rest)
  {
    assert ([a] + rest)[1..] == rest;
  }

  lemma RunThree(s: System, a: Step, b: Step, c: Step, rest: seq<Step>)
    ensures Run(s, [a, b, c] + rest) == Run(Take(Take(Take(s, a), b), c), rest)
  {
    assert [a, b, c] + rest == [a] + ([b] + ([c] + rest));
    RunOne(s, a, [b] + ([c] + rest));
    RunOne(Take(s, a), b, [c] + rest);
    RunOne(Take(Take(s, a), b), c, rest);
  }

  // ---------- take-overs: safe exactly when nobody holds the key ----------

  ghost predicate TwoHold(s: System, k: Key) {
    exists w, v :: w != v && Holds(s, w, k) && Holds(s, v, k)
  }

  /** A claim has read a dead lock: nobody holds the key, and only that claim is about to mark it. */
  ghost predicate TakesOverDeadLock(s: System, k: Key, w: Worker) {
    && HasStatus(s.table, k, Processing)
    && PcOf(s, w).MarkingStale? && PcOf(s, w).key == k
    && (forall v :: !Holds(s, v, k))
    && (forall v :: v != w && PcOf(s, v).MarkingStale? ==> PcOf(s, v).key != k)
  }

  /** While the lock is dead nobody but the taker writes the row, and nobody wins it. */
  lemma DeadLockIsLeftAlone(s: System, step: Step, k: Key, w: Worker)
    requires TakesOverDeadLock(s, k, w) && (step.Advance? ==> step.worker != w)
    ensures HasStatus(Take(s, step).table, k, Processing) && !Wins(s, step, k)
  {
    if step.Advance? {
      assert !Holds(s, step.worker, k);
      assert PcOf(s, step.worker).MarkingStale? ==> PcOf(s, step.worker).key != k;
    }
  }

  /** Who is where after a step: nobody holds the key, and only the taker may be about to mark its row. */
  lemma NobodyElseTakesOver(s: System, step: Step, k: Key, w: Worker, v: Worker)
    requires TakesOverDeadLock(s, k, w) && !StaleRead(s, step, k)
    ensures !Holds(Take(s, step), v, k)
    ensures v != w && PcOf(Take(s, step), v).MarkingStale? ==> PcOf(Take(s, step), v).key != k
  {
    assert !Holds(s, v, k);
    assert v != w && PcOf(s, v).MarkingStale? ==> PcOf(s, v).key != k;
    if !(step.Advance? && step.worker == w) {
      DeadLockIsLeftAlone(s, step, k, w);
    }
  }

  lemma StepOfTakeOver(s: System, step: Step, k: Key, w: Worker)
    requires TakesOverDeadLock(s, k, w) && !StaleRead(s, step, k)
    ensures TakesOverDeadLock(Take(s, step), k, w) || Exclusive(Take(s, step), k)
  {
    var t := Take(s, step);
    forall v
      ensures !Holds(t, v, k)
      ensures v != w && PcOf(t, v).MarkingStale? ==> PcOf(t, v).key != k
    {
      NobodyElseTakesOver(s, step, k, w, v);
    }
    if !(step.Advance? && step.worker == w) {
      DeadLockIsLeftAlone(s, step, k, w);
    }
    assert PcOf(t, w) == PcOf(s, w) || !PcOf(t, w).MarkingStale?;
  }

  lemma {:induction false} RunOfTakeOver(s: System, steps: seq<Step>, k: Key, w: Worker)
    requires TakesOverDeadLock(s, k, w) && NoStaleReads(s, steps, k)
    ensures !TwoHold(Run(s, steps), k)
    decreases |steps|
  {
    if steps != [] {
      StepOfTakeOver(s, steps[0], k, w);
      var t := Take(s, steps[0]);
      if TakesOverDeadLock(t, k, w) {
        RunOfTakeOver(t, steps[1..], k, w);
      } else {
        OneHolderWithoutStaleReads(t, steps[1..], k);
      }
    }
  }

  /** The claim's next two statements give it the key, whoever holds it and whatever its row looks like by then. */
  lemma TakesOver(s: System, w: Worker, k: Key, now: Seconds)
    requires PcOf(s, w) == MarkingStale(k, now) && HasStatus(s.table, k, Processing)
    ensures
      var t := Run(s, [Advance(w), Advance(w)]);
      && PcOf(t, w) == Holding(k) && HasStatus(t.table, k, Processing) && t.table[k].startedAt == now
      && forall v :: v != w ==> PcOf(t, v) == PcOf(s, v)
  {
    RunOne(s, Advance(w), [Advance(w)]);
    RunOne(Take(s, Advance(w)), Advance(w), []);
    assert [Advance(w), Advance(w)] == [Advance(w)] + [Advance(w)] && [Advance(w)] == [Advance(w)] + [];
  }

  lemma NoStaleReadsInTakeOver(s: System, w: Worker, k: Key, now: Seconds)
    requires PcOf(s, w) == MarkingStale(k, now) && HasStatus(s.table, k, Processing)
    ensures NoStaleReads(s, [Advance(w), Advance(w)], k)
  {
    var t := Take(s, Advance(w));
    assert [Advance(w), Advance(w)][1..] == [Advance(w)] && [Advance(w)][1..] == [];
    assert NoStaleReads(Take(t, Advance(w)), [], k);
    assert NoStaleReads(t, [Advance(w)], k);
  }

  /**
   The exact limit of the stale take-over. A claim has just read a stale row of a key under mutual
   exclusion; without a further stale read, some continuation has two holders if and only if some
   worker holds the key at that read. So a take-over of a dead lock stays exclusive, and one of a
   live lock, in whatever state its holder is, can always break exclusion.
   */
  lemma TakeOverIsUnsafeExactly(s: System, w: Worker, k: Key)
    requires Exclusive(s, k) && StaleRead(s, Advance(w), k)
    ensures
      var t := Take(s, Advance(w));
      (exists steps :: NoStaleReads(t, steps, k) && TwoHold(Run(t, steps), k)) <==> (exists v :: Holds(s, v, k))
  {
    var t := Take(s, Advance(w));
    var now := PcOf(s, w).now;
    assert PcOf(t, w) == MarkingStale(k, now) && t.table == s.table;
    if v :| Holds(s, v, k) {
      NoStaleReadsInTakeOver(t, w, k, now);
      TakesOver(t, w, k, now);
      assert v != w;
      var u := Run(t, [Advance(w), Advance(w)]);
      assert Holds(u, w, k) && Holds(u, v, k);
      assert TwoHold(u, k);
    } else {
      forall v ensures !Holds(t, v, k) {
        assert !Holds(s, v, k);
      }
      forall v | v != w && PcOf(t, v).MarkingStale? ensures PcOf(t, v).key != k {
        assert PcOf(s, v).MarkingStale? ==> PcOf(s, v).key != k;
      }
      forall steps | NoStaleReads(t, steps, k) ensures !TwoHold(Run(t, steps), k) {
        RunOfTakeOver(t, steps, k, w);
      }
    }
  }

  predicate Closed(t: Table, k: Key) {
    HasStatus(t, k, Completed) || HasStatus(t, k, Failed)
  }

  /** A worker that still believes it holds the key can close the row of another holder by its own statements. */
  lemma {:induction false} ClosesRowOfOther(s: System, w: Worker, v: Worker, k: Key) returns (steps: seq<Step>)
    requires w != v && PcOf(s, w) == Holding(k) && Holds(s, v, k) && HasStatus(s.table, k, Processing)
    requires FinalStatuses(s)
    ensures PcOf(Run(s, steps), w) == Holding(k) && Closed(Run(s, steps).table, k)
    decreases if PcOf(s, v).Rechecking? then 1 else 0
  {
    var t := Take(s, Advance(v));
    match PcOf(s, v)
    case Holding(_) =>
      var begun := Take(s, BeginFinalize(v, Completed, None));
      steps := [BeginFinalize(v, Completed, None)] + ([Advance(v)] + []);
      RunOne(s, BeginFinalize(v, Completed, None), [Advance(v)] + []);
      RunOne(begun, Advance(v), []);
    case Finalizing(_, status, _, _) =>
      assert PcOf(s, v).status in {Completed, Failed};
      steps := [Advance(v)] + [];
      RunOne(s, Advance(v), []);
    case Rechecking(_, status, _, _) =>
      assert PcOf(s, v).status in {Completed, Failed};
      FinalStatusesKept(s, Advance(v));
      var rest := ClosesRowOfOther(t, w, v, k);
      steps := [Advance(v)] + rest;
      RunOne(s, Advance(v), rest);
  }

  /** A take-over ousts its holder, finalizing or not; the ousted worker can then close the new holder's row. */
  lemma StaleTakeoverOustsHolder(s: System, w: Worker, v: Worker, k: Key, now: Seconds) returns (closing: seq<Step>)
    requires w != v && PcOf(s, w) == MarkingStale(k, now) && Holds(s, v, k)
    requires HasStatus(s.table, k, Processing) && FinalStatuses(s)
    ensures
      var t := Run(s, [Advance(w), Advance(w)]);
      && Holds(t, w, k) && Holds(t, v, k) && HasStatus(t.table, k, Processing) && t.table[k].startedAt == now
      && Holds(Run(t, closing), w, k) && Closed(Run(t, closing).table, k)
  {
    TakesOver(s, w, k, now);
    RunOne(s, Advance(w), [Advance(w)]);
    assert [Advance(w), Advance(w)] == [Advance(w)] + [Advance(w)];
    RunKeepsFinalStatuses(s, [Advance(w), Advance(w)]);
    closing := ClosesRowOfOther(Run(s, [Advance(w), Advance(w)]), w, v, k);
  }

  lemma {:induction false} RunKeepsFinalStatuses(s: System, steps: seq<Step>)
    requires FinalStatuses(s)
    ensures FinalStatuses(Run(s, steps))
    decreases |steps|
  {
    if steps != [] {
      FinalStatusesKept(s, steps[0]);
      RunKeepsFinalStatuses(Take(s, steps[0]), steps[1..]);
    }
  }

  /** Worker `w` begins a claim and executes its insert and its read. */
  function ClaimUpToRead(w: Worker, k: Key): seq<Step> {
    [BeginClaim(w, k), Advance(w), Advance(w)]
  }

  function Reads(s: System, w: Worker, k: Key): System {
    s.(pcs := s.pcs[w := MarkingStale(k, s.clock)])
  }

  lemma ReadsStale(s: System, w: Worker, k: Key, rest: seq<Step>)
    requires PcOf(s, w) == Idle && HasStatus(s.table, k, Processing) && !IsFresh(s.table[k], s.clock)
    ensures Run(s, ClaimUpToRead(w, k) + rest) == Run(Reads(s, w, k), rest)
  {
    RunThree(s, BeginClaim(w, k), Advance(w), Advance(w), rest);
    assert s.pcs[w := Inserting(k, s.clock)][w := Reading(k, s.clock)][w := MarkingStale(k, s.clock)]
        == s.pcs[w := MarkingStale(k, s.clock)];
  }

  /** Worker 0 wins the key, leaves without finalizing, and more than the limit passes. */
  lemma DeadLock(k: Key, rest: seq<Step>) returns (s: System)
    ensures Run(EMPTY_SYSTEM, [BeginClaim(0, k), Advance(0), Leave(0)] + ([Tick(6 * 3600 + 1)] + rest)) == Run(s, rest)
    ensures HasStatus(s.table, k, Processing) && !IsFresh(s.table[k], s.clock)
    ensures PcOf(s, 0) == PcOf(s, 1) == PcOf(s, 2) == Idle
  {
    var wait := Tick(6 * 3600 + 1);
    RunThree(EMPTY_SYSTEM, BeginClaim(0, k), Advance(0), Leave(0), [wait] + rest);
    var dead := Take(Take(Take(EMPTY_SYSTEM, BeginClaim(0, k)), Advance(0)), Leave(0));
    RunOne(dead, wait, rest);
    s := Take(dead, wait);
  }

  /**
   A run that breaks exclusion from an empty table although the only slow worker is dead: worker 0
   wins and leaves without finalizing; when its lock has become stale, workers 1 and 2 both read
   it before either takes it over, and both win.
   */
  lemma TwoTakeoversBothWin(k: Key) returns (steps: seq<Step>)
    ensures
      var t := Run(EMPTY_SYSTEM, steps);
      Holds(t, 1, k) && Holds(t, 2, k) && !Holds(t, 0, k)
  {
    var takeOvers := [Advance(1), Advance(1)] + [Advance(2), Advance(2)];
    var second := ClaimUpToRead(2, k) + takeOvers;
    var first := ClaimUpToRead(1, k) + second;
    var s := DeadLock(k, first);
    ReadsStale(s, 1, k, second);
    var s1 := Reads(s, 1, k);
    ReadsStale(s1, 2, k, takeOvers);
    var s2 := Reads(s1, 2, k);
    RunSplits(s2, [Advance(1), Advance(1)], [Advance(2), Advance(2)]);
    TakesOver(s2, 1, k, s.clock);
    TakesOver(Run(s2, [Advance(1), Advance(1)]), 2, k, s.clock);
    steps := [BeginClaim(0, k), Advance(0), Leave(0)] + ([Tick(6 * 3600 + 1)] + first);
  }

  lemma {:induction false} RunSplits(s: System, a: seq<Step>, b: seq<Step>)
    ensures Run(s, a + b) == Run(Run(s, a), b)
    decreases |a|
  {
    if a == [] {
      assert a + b == b;
    } else {
      assert (a + b)[1..] == a[1..] + b;
      RunSplits(Take(s, a[0]), a[1..], b);
    }
  }
}
