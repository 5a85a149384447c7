/**
 How an approval can go on: the bound on decisions, what is frozen, what gets stuck, and what is published.
 */
module RfpProgress {
  import opened Options
  import opened RfpLifecycle
  import opened RfpArbitration
  import opened RfpThread
  import opened RfpProtocol
  import opened RfpInvariant
  import opened RfpTaskProofs
  import opened RfpDecisionProofs
  import opened RfpTheorems

  // ---------- the effect of one step ----------

  ghost predicate Approving(s: State) {
    Inv(s) && InApproval(s)
  }

  /** During approval the tasks do nothing but, for an intake, rewrite metadata of the same departments. */
  lemma TasksIdleInApproval(s: State, step: Step)
    requires Approving(s) && Harmless(s, step) && !step.CallSection? && !step.CallCeo?
    ensures
      var t := Take(s, step);
      t == s.(metadata := t.metadata) && t.metadata.Some? && NeededSet(t.metadata.value) == NeededSet(s.metadata.value)
  {
    match step
    case DeliverIntake(i, outage) =>
      IntakeUnfolded(s, i, outage);
      if i.IntakeValid? { MarketingIsSelected(i.metadata); }
    case DeliverResponse(run) => ResponseLeavesOthersAlone(s, run);
    case DeliverApproval(run) =>
  }

  /** The section call touched one department; the others kept their rows (but for the record) and threads. */
  ghost predicate OnlyTouched(s: State, t: State, d: Dept) {
    && t.rows.Keys == s.rows.Keys
    && t.threads.Keys == s.threads.Keys + {d}
    && (forall e :: e in s.rows && e != d ==> SameExceptArbitration(s.rows[e], t.rows[e]))
    && (forall e :: e in s.threads && e != d ==> t.threads[e] == s.threads[e])
    && Core(SharedArbitration(t)) == Core(SharedArbitration(s))
  }

  /** What an answer does to its department, next to `OnlyTouched` for the others. */
  ghost predicate AnswerEffect(s: State, call: SectionCall, t: State)
    requires AwaitsAnswer(s, call.dept) && call.action.Known?
  {
    var d := call.dept;
    && OnlyTouched(s, t, d) && d in t.rows
    && SharedArbitration(s).ceoDecision == None && SharedArbitration(t).ceoDecision == None
    && d in t.threads && t.threads[d] == Resumed(s, call).threads[d]
    && (t.threads[d].Paused? ==>
          t.status == s.status && t.rows[d].status == StatusPending && t.rows[d].eval.interruptId.Some?)
    && (t.threads[d].Ended? ==> SameExceptArbitration(Closed(s, call).rows[d], t.rows[d]))
  }

  lemma ReworkEffect(s: State, call: SectionCall, t: State)
    requires Approving(s) && AwaitsAnswer(s, call.dept) && call.action.Known?
    requires Resumed(s, call).threads[call.dept].Paused? && t == Reworked(s, call)
    ensures AnswerEffect(s, call, t)
  {
    StillOpen(s, call.dept);
    assert SharedArbitration(t) == SharedArbitration(s);
  }

  lemma CloseEffect(s: State, call: SectionCall, closed: State, t: State)
    requires Approving(s) && AwaitsAnswer(s, call.dept) && call.action.Known?
    requires Resumed(s, call).threads[call.dept].Ended? && closed == Closed(s, call)
    requires t == MaybeFinalize(closed, call.order, call.reread, call.now).0
    ensures AnswerEffect(s, call, t)
  {
    StillOpen(s, call.dept);
    CloseKeepsGateUntouched(s, call);
    FinalizeCases(closed, call.order, call.reread, call.now);
    assert SharedArbitration(closed) == SharedArbitration(s);
    assert closed.rows.Keys == s.rows.Keys;
  }

  lemma SectionEffect(s: State, call: SectionCall)
    requires Approving(s) && AwaitsAnswer(s, call.dept) && call.action.Known?
    ensures AnswerEffect(s, call, DecideSection(s, call).0)
  {
    GuardsAdmitAwaiting(s, call);
    DecideUnfolds(s, call);
    if Resumed(s, call).threads[call.dept].Paused? {
      ReworkEffect(s, call, Reworked(s, call));
    } else {
      CloseEffect(s, call, Closed(s, call), DecideSection(s, call).0);
    }
  }

  // ---------- the bound on accepted decisions ----------

  /** Answers the department can still take before its row is terminal. */
  function AnswersLeft(s: State, d: Dept): nat {
    if d !in s.rows || s.rows[d].status != StatusPending then 0
    else if d in s.threads && s.threads[d].rework <= ITERATION_LIMIT then ITERATION_LIMIT + 1 - s.threads[d].rework
    else ITERATION_LIMIT + 1
  }

  function CeoAnswersLeft(s: State): nat {
    var arb := SharedArbitration(s);
    if s.status == WaitingForApproval && arb.ceoRequired && arb.ceoDecision == None then 1 else 0
  }

  function DecisionsLeft(s: State): nat {
    AnswersLeft(s, Marketing) + AnswersLeft(s, Operaciones) + AnswersLeft(s, Procurement) + AnswersLeft(s, Training)
    + CeoAnswersLeft(s)
  }

  lemma AnswersDrop(s: State, t: State, d: Dept)
    requires forall e: Dept :: e != d ==> AnswersLeft(t, e) == AnswersLeft(s, e)
    requires AnswersLeft(t, d) < AnswersLeft(s, d) && CeoAnswersLeft(t) <= CeoAnswersLeft(s)
    ensures DecisionsLeft(t) < DecisionsLeft(s)
  {
    match d case Marketing => case Operaciones => case Procurement => case Training =>
  }

  lemma SectionUsesOneAnswer(s: State, call: SectionCall)
    requires Approving(s) && AwaitsAnswer(s, call.dept) && call.action.Known?
    ensures DecisionsLeft(DecideSection(s, call).0) < DecisionsLeft(s)
  {
    SectionEffect(s, call);
    var t := DecideSection(s, call).0;
    forall e: Dept | e != call.dept
      ensures AnswersLeft(t, e) == AnswersLeft(s, e)
    {
      assert e in s.rows <==> e in t.rows;
      assert e in s.threads <==> e in t.threads;
    }
    AnswersDrop(s, t, call.dept);
  }

  lemma CeoUsesOneAnswer(s: State, call: CeoCall)
    requires Approving(s) && GateOpen(s) && CeoAnswer(call.action)
    ensures DecisionsLeft(DecideCeo(s, call).0) < DecisionsLeft(s)
    ensures EveryRowTerminal(s)
  {
    CeoKeepsInv(s, call);
    var t := DecideCeo(s, call).0;
    forall d: Dept ensures AnswersLeft(t, d) == AnswersLeft(s, d) == 0 {
      if d in s.rows { assert RowIsTerminal(s.rows[d]); }
      if d in t.rows { assert RowIsTerminal(t.rows[d]); }
    }
  }

  lemma StaysApproving(s: State, step: Step)
    requires Approving(s) && Harmless(s, step)
    ensures Approving(Take(s, step))
  {
    StepKeepsInv(s, step);
    match step
    case CallSection(call) => SectionKeepsInv(s, call);
    case CallCeo(call) => CeoKeepsInv(s, call);
    case _ => TasksIdleInApproval(s, step);
  }

  lemma StepUsesAnswers(s: State, step: Step)
    requires Approving(s) && Harmless(s, step)
    ensures DecisionsLeft(Take(s, step)) + (if Accepted(s, step) then 1 else 0) <= DecisionsLeft(s)
  {
    match step
    case CallSection(call) =>
      SectionKeepsInv(s, call);
      if Accepted(s, step) { SectionUsesOneAnswer(s, call); }
    case CallCeo(call) =>
      CeoKeepsInv(s, call);
      if Accepted(s, step) { CeoUsesOneAnswer(s, call); }
    case _ => IdleKeepsCount(s, step);
  }

  lemma IdleKeepsCount(s: State, step: Step)
    requires Approving(s) && Harmless(s, step) && !step.CallSection? && !step.CallCeo?
    ensures DecisionsLeft(Take(s, step)) == DecisionsLeft(s)
  {
    TasksIdleInApproval(s, step);
    MetadataDoesNotCount(s, Take(s, step).metadata);
  }

  lemma MetadataDoesNotCount(s: State, m: Option<Metadata>)
    ensures DecisionsLeft(s.(metadata := m)) == DecisionsLeft(s)
  {
    var t := s.(metadata := m);
    assert SharedArbitration(t) == SharedArbitration(s);
    assert forall d :: AnswersLeft(t, d) == AnswersLeft(s, d);
  }

  function AcceptedCount(s: State, steps: seq<Step>): nat
    decreases |steps|
  {
    if steps == [] then 0
    else (if Accepted(s, steps[0]) then 1 else 0) + AcceptedCount(Take(s, steps[0]), steps[1..])
  }

  function Present(keys: set<Dept>, d: Dept): nat {
    if d in keys then 1 else 0
  }

  lemma OneCounted(keys: set<Dept>, d: Dept)
    ensures |keys| == |keys - {d}| + Present(keys, d)
  {
    if d !in keys { assert keys - {d} == keys; }
  }

  lemma NoneLeft(keys: set<Dept>)
    requires Marketing !in keys && Operaciones !in keys && Procurement !in keys && Training !in keys
    ensures keys == {}
  {
    forall d | d in keys ensures false {
      match d case Marketing => case Operaciones => case Procurement => case Training =>
    }
  }

  lemma DeptsCounted(keys: set<Dept>)
    ensures |keys| == Present(keys, Marketing) + Present(keys, Operaciones)
                      + Present(keys, Procurement) + Present(keys, Training)
  {
    var k1 := keys - {Marketing};
    var k2 := k1 - {Operaciones};
    var k3 := k2 - {Procurement};
    OneCounted(keys, Marketing);
    OneCounted(k1, Operaciones);
    OneCounted(k2, Procurement);
    OneCounted(k3, Training);
    NoneLeft(k3 - {Training});
  }

  lemma DecisionsLeftBound(s: State)
    ensures DecisionsLeft(s) <= (ITERATION_LIMIT + 1) * |s.rows.Keys| + 1
  {
    DeptsCounted(s.rows.Keys);
  }

  /**
   Over any run during approval, each accepted decision uses up one of at most 4n + 1, where n is
   the number of distinct needed departments.
   */
  lemma {:induction false} AcceptedDecisionsAreBounded(s: State, steps: seq<Step>)
    requires Approving(s) && HarmlessRun(s, steps)
    ensures Approving(Run(s, steps))
    ensures AcceptedCount(s, steps) + DecisionsLeft(Run(s, steps)) <= DecisionsLeft(s)
    ensures AcceptedCount(s, steps) <= 4 * |NeededSet(s.metadata.value)| + 1
    decreases |steps|
  {
    DecisionsLeftBound(s);
    if steps != [] {
      StaysApproving(s, steps[0]);
      StepUsesAnswers(s, steps[0]);
      AcceptedDecisionsAreBounded(Take(s, steps[0]), steps[1..]);
    }
  }
}
