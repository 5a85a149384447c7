/** The section and CEO decisions: what each call does to a ticket in approval, and that it keeps the invariant. */
module RfpDecisionProofs {
  import opened Options
  import opened RfpLifecycle
  import opened RfpArbitration
  import opened RfpThread
  import opened RfpProtocol
  import opened RfpInvariant

  // ---------- reading and patching the shared record ----------

  /** Every row carries the same record, so the row the database returns first does not matter. */
  lemma {:induction false} FirstRowIsAnyRow(order: seq<Dept>, s: State)
    requires SameRecordEverywhere(s) && Marketing in s.rows
    ensures Marketing in order ==> FirstArbitration(order, s.rows) == SharedArbitration(s)
  {
    if order != [] && order[0] !in s.rows {
      FirstRowIsAnyRow(order[1..], s);
      assert order == [order[0]] + order[1..];
    }
  }

  lemma ReadsAgree(s: State, order: RowOrder, other: RowOrder)
    requires DuringApproval(s)
    ensures FirstArbitration(order, s.rows) == FirstArbitration(other, s.rows) == SharedArbitration(s)
  {
    EveryDeptListed(order);
    EveryDeptListed(other);
    FirstRowIsAnyRow(order, s);
    FirstRowIsAnyRow(other, s);
  }

  /** The record is the only thing a CEO patch changes, and it changes it in every row alike. */
  lemma PatchIsUniform(s: State, p: CeoPatch)
    requires RowsMatchMetadata(s) && SameRecordEverywhere(s)
    ensures
      var t := PatchArbitration(s, s.metadata.value.needed, p);
      && RowsMatchMetadata(t) && SameRecordEverywhere(t)
      && SharedArbitration(t) == WithCeoPatch(SharedArbitration(s), p)
      && (EveryRowTerminal(t) <==> EveryRowTerminal(s))
      && (forall d :: d in s.rows ==>
            t.rows[d] == s.rows[d].(eval := s.rows[d].eval.(arbitration := t.rows[d].eval.arbitration)))
  {
    var t := PatchArbitration(s, s.metadata.value.needed, p);
    assert t.rows.Keys == s.rows.Keys;
    forall d | d in s.rows
      ensures t.rows[d] == CeoPatchedRow(s.rows[d], p) && RowIsTerminal(t.rows[d]) == RowIsTerminal(s.rows[d])
    {
      assert d in NeededSet(s.metadata.value);
    }
  }

  lemma PatchKeepsAgreement(s: State, p: CeoPatch)
    requires RowsMatchMetadata(s) && SameRecordEverywhere(s) && RowsAgreeWithThreads(s)
    ensures RowsAgreeWithThreads(PatchArbitration(s, s.metadata.value.needed, p))
  {
    PatchIsUniform(s, p);
    var t := PatchArbitration(s, s.metadata.value.needed, p);
    forall d | d in t.rows
      ensures RowAgreesWithThread(t.rows[d], d, t.threads)
    {
      assert RowAgreesWithThread(s.rows[d], d, s.threads);
    }
  }

  // ---------- finishing ----------

  /** What arbitration decided, without what the CEO gate added to the record. */
  function Core(arb: Arbitration): Arbitration {
    arb.(ceoDecision := None, ceoApprovedAt := None, ceoInterruptId := None)
  }

  predicate SameExceptArbitration(r: Row, r': Row) {
    r' == r.(eval := r.eval.(arbitration := r'.eval.arbitration))
  }

  /** Rows and threads agree and the CEO gate was never touched: the state a closed section leaves. */
  ghost predicate GateUntouched(s: State) {
    && s.status == WaitingForApproval && s.document == None
    && RowsMatchMetadata(s) && SameRecordEverywhere(s) && RowsAgreeWithThreads(s)
    && SharedArbitration(s).ceoInterruptId == None && SharedArbitration(s).ceoDecision == None
  }

  lemma AllTerminalIsEveryRow(s: State)
    requires RowsMatchMetadata(s)
    ensures AllTerminal(s.rows, s.metadata.value.needed) <==> EveryRowTerminal(s)
  {
    assert forall d :: d in s.metadata.value.needed <==> d in NeededSet(s.metadata.value);
  }

  /** The state after a synthesis from `arb`. */
  function Finished(s: State, arb: Arbitration, now: Time): State
    requires s.metadata.Some? && arb.ceoDecision != Some(CeoRejected)
  {
    s.(document := SynthesizeDocument(s, s.metadata.value, arb, now), status := Done)
  }

  lemma SynthesisFinishes(s: State, reread: RowOrder, now: Time)
    requires s.status == WaitingForApproval && RowsMatchMetadata(s) && SameRecordEverywhere(s)
    requires SharedArbitration(s).ceoDecision != Some(CeoRejected)
    ensures SynthesizeAndComplete(s, reread, now) == (Finished(s, SharedArbitration(s), now), Completed)
  {
    EveryDeptListed(reread);
    FirstRowIsAnyRow(reread, s);
    AllowedIsNextStatus(WaitingForApproval, Done);
  }

  lemma FinishedIsSound(s: State, now: Time)
    requires RowsMatchMetadata(s) && SameRecordEverywhere(s) && RowsAgreeWithThreads(s) && EveryRowTerminal(s)
    requires
      var arb := SharedArbitration(s);
      && arb.ceoInterruptId == None
      && (if arb.ceoRequired
          then arb.ceoDecision == Some(CeoApproved) && arb.ceoApprovedAt.Some? && s.ceoThread == CeoEnded(CeoApproved)
          else arb.ceoDecision == None)
    ensures DuringApproval(Finished(s, SharedArbitration(s), now))
  {
    var t := Finished(s, SharedArbitration(s), now);
    assert SharedArbitration(t) == SharedArbitration(s);
    assert EveryRowTerminal(t);
    assert DocumentMatchesRows(t);
  }

  lemma GateOpensSoundly(s: State)
    requires GateUntouched(s) && EveryRowTerminal(s) && SharedArbitration(s).ceoRequired
    ensures
      var gate := s.(ceoThread := CeoPaused(s.nextId), nextId := s.nextId + 1);
      DuringApproval(PatchArbitration(gate, s.metadata.value.needed, OpenGate(s.nextId)))
  {
    var gate := s.(ceoThread := CeoPaused(s.nextId), nextId := s.nextId + 1);
    assert SharedArbitration(gate) == SharedArbitration(s);
    PatchIsUniform(gate, OpenGate(s.nextId));
    PatchKeepsAgreement(gate, OpenGate(s.nextId));
  }

  /**
   The finalization attempt after a closed section: nothing while a department is open, the CEO
   gate when the shared record asks for the CEO, the finished ticket otherwise; it never raises.
   */
  lemma FinalizeCases(s: State, order: RowOrder, reread: RowOrder, now: Time)
    requires GateUntouched(s)
    ensures
      var (t, how) := MaybeFinalize(s, order, reread, now);
      && DuringApproval(t) && t.rows.Keys == s.rows.Keys
      && how == (if !EveryRowTerminal(s) then NotAllTerminal
                 else if SharedArbitration(s).ceoRequired then CeoGateOpened else Completed)
      && (t.status == Done <==> how == Completed)
      && (how == NotAllTerminal ==> t == s)
      && t.threads == s.threads && t.metadata == s.metadata
      && Core(SharedArbitration(t)) == Core(SharedArbitration(s)) && SharedArbitration(t).ceoDecision == None
      && (forall d :: d in s.rows ==> SameExceptArbitration(s.rows[d], t.rows[d]))
  {
    EveryDeptListed(order);
    FirstRowIsAnyRow(order, s);
    AllTerminalIsEveryRow(s);
    if EveryRowTerminal(s) {
      if SharedArbitration(s).ceoRequired {
        var gate := s.(ceoThread := CeoPaused(s.nextId), nextId := s.nextId + 1);
        assert SharedArbitration(gate) == SharedArbitration(s);
        GateOpensSoundly(s);
        PatchIsUniform(gate, OpenGate(s.nextId));
      } else {
        SynthesisFinishes(s, reread, now);
        FinishedIsSound(s, now);
        assert SharedArbitration(Finished(s, SharedArbitration(s), now)) == SharedArbitration(s);
      }
    }
  }

  // ---------- apply_section_decision ----------

  /** The row of `d` is waiting for an answer under the id of its own paused thread. */
  ghost predicate AwaitsAnswer(s: State, d: Dept) {
    && s.status == WaitingForApproval && s.metadata.Some? && d in s.rows
    && s.rows[d].status == StatusPending && s.rows[d].eval.interruptId.Some?
    && d in s.threads && s.threads[d].Paused? && s.threads[d].interruptId == s.rows[d].eval.interruptId.value
    && Text(s.threads[d].section.draft) == Text(s.rows[d].draft)
    && s.threads[d].rework <= ITERATION_LIMIT
  }

  /** Exactly when a section call gets past the guards of the endpoint. */
  lemma GuardsAdmitAwaiting(s: State, call: SectionCall)
    requires DuringApproval(s)
    ensures
      var guarded := DecideSection(s, call).1 in
        {Refused(WrongStatus), Refused(MissingMetadata), Refused(NotNeeded), Refused(MissingSection),
         Refused(MissingInterrupt), Refused(InvalidAction), Refused(MissingThread)};
      && (!guarded ==> AwaitsAnswer(s, call.dept) && call.action.Known?)
      && (guarded ==> DecideSection(s, call).0 == s)
      && (AwaitsAnswer(s, call.dept) && call.action.Known? ==> call.dept in s.metadata.value.needed)
  {
    assert call.dept in s.rows ==> RowAgreesWithThread(s.rows[call.dept], call.dept, s.threads);
    assert forall d :: d in s.metadata.value.needed <==> d in NeededSet(s.metadata.value);
  }

  /** The thread answered: its new state, next to the ticket it is saved in. */
  function Resumed(s: State, call: SectionCall): State
    requires AwaitsAnswer(s, call.dept) && call.action.Known?
  {
    var d := call.dept;
    s.(threads := s.threads[d := Resume(s.threads[d], s.threads[d].interruptId, call.action.action,
                                        call.feedback, call.reply, s.nextId)],
       nextId := s.nextId + 1)
  }

  function Reworked(s: State, call: SectionCall): State
    requires AwaitsAnswer(s, call.dept) && call.action.Known? && Resumed(s, call).threads[call.dept].Paused?
  {
    var d := call.dept;
    var r := Resumed(s, call);
    var section := r.threads[d].section;
    r.(rows := s.rows[d := s.rows[d].(
        draft := Some(RegenDraft(section, s.rows[d])),
        eval := RegenEval(s.rows[d].eval, section, OverThreshold(s.metadata.value.budgetCeiling),
                          r.threads[d].interruptId))])
  }

  function Closed(s: State, call: SectionCall): State
    requires AwaitsAnswer(s, call.dept) && call.action.Known? && Resumed(s, call).threads[call.dept].Ended?
  {
    var d := call.dept;
    var r := Resumed(s, call);
    var outcome := r.threads[d].outcome;
    r.(rows := s.rows[d := s.rows[d].(
        status := StatusFor(outcome), approver := Some(Owner(d)), approvedAt := Some(call.now),
        eval := s.rows[d].eval.(interruptId := None, outcome := Some(outcome)))])
  }

  lemma DecideUnfolds(s: State, call: SectionCall)
    requires AwaitsAnswer(s, call.dept) && call.action.Known? && call.dept in s.metadata.value.needed
    ensures
      var t := Resumed(s, call).threads[call.dept];
      if t.Paused? then DecideSection(s, call) == (Reworked(s, call), PendingReapproval)
      else
        var (fin, how) := MaybeFinalize(Closed(s, call), call.order, call.reread, call.now);
        DecideSection(s, call) == (fin, if how == Raised then Refused(FinalizationRaised) else Decided(t.outcome, how))
  {
    var d := call.dept;
    var r := Resumed(s, call);
    if r.threads[d].Ended? {
      var stamped := UpdateApproval(r, d, StatusFor(r.threads[d].outcome), call.now).value;
      var patch := NO_PATCH.(interruptId := Some(None), outcome := Some(r.threads[d].outcome));
      var row := stamped.rows[d].(eval := Patched(stamped.rows[d].eval, patch));
      assert stamped.rows[d := row] == s.rows[d := row];
      assert row == Closed(s, call).rows[d];
      assert CloseRow(r, d, r.threads[d].outcome, call.now) == Closed(s, call);
    }
  }

  /** A rework leaves the row pending under the new pause, with the regenerated text and numbers. */
  lemma ReworkKeepsInv(s: State, call: SectionCall)
    requires DuringApproval(s) && AwaitsAnswer(s, call.dept) && call.action.Known?
    requires Resumed(s, call).threads[call.dept].Paused?
    ensures DuringApproval(Reworked(s, call)) && Reworked(s, call).status == WaitingForApproval
  {
    var t := Reworked(s, call);
    ReworkAgrees(s, call);
    assert t.rows.Keys == s.rows.Keys;
    assert SharedArbitration(t) == SharedArbitration(s);
    StillOpen(s, call.dept);
    StillOpen(t, call.dept);
  }

  lemma StillOpen(s: State, d: Dept)
    requires s.metadata.Some? && s.status == WaitingForApproval && s.document == None
    requires d in s.rows && s.rows[d].status == StatusPending
    ensures CeoGateSound(s) <==> SharedArbitration(s).ceoInterruptId == None && SharedArbitration(s).ceoDecision == None
  {
    assert !RowIsTerminal(s.rows[d]);
    assert !EveryRowTerminal(s);
  }

  lemma ReworkAgrees(s: State, call: SectionCall)
    requires RowsAgreeWithThreads(s) && AwaitsAnswer(s, call.dept) && call.action.Known?
    requires Resumed(s, call).threads[call.dept].Paused?
    ensures RowsAgreeWithThreads(Reworked(s, call))
  {
    var t := Reworked(s, call);
    forall d | d in t.rows
      ensures RowAgreesWithThread(t.rows[d], d, t.threads)
    {
      assert RowAgreesWithThread(s.rows[d], d, s.threads);
    }
  }

  /** Closing a section leaves rows and threads in agreement, with the gate still untouched. */
  lemma CloseKeepsGateUntouched(s: State, call: SectionCall)
    requires DuringApproval(s) && AwaitsAnswer(s, call.dept) && call.action.Known?
    requires Resumed(s, call).threads[call.dept].Ended?
    ensures GateUntouched(Closed(s, call))
  {
    var t := Closed(s, call);
    StillOpen(s, call.dept);
    assert t.rows.Keys == s.rows.Keys;
    assert SharedArbitration(t) == SharedArbitration(s);
    forall d | d in t.rows
      ensures RowAgreesWithThread(t.rows[d], d, t.threads)
    {
      assert RowAgreesWithThread(s.rows[d], d, s.threads);
    }
  }

  /** What an admitted call leaves: a rework, or a closed section and the finalization attempt after it. */
  ghost predicate Answered(s: State, call: SectionCall, t: State, answer: Decision)
    requires AwaitsAnswer(s, call.dept) && call.action.Known?
  {
    && DuringApproval(t) && InApproval(t) && t.metadata == s.metadata
    && !answer.Refused?
    && (answer == PendingReapproval ==> Resumed(s, call).threads[call.dept].Paused? && t == Reworked(s, call))
  }

  lemma ReworkingCall(s: State, call: SectionCall, t: State)
    requires DuringApproval(s) && AwaitsAnswer(s, call.dept) && call.action.Known?
    requires Resumed(s, call).threads[call.dept].Paused? && t == Reworked(s, call)
    ensures Answered(s, call, t, PendingReapproval)
  {
    ReworkKeepsInv(s, call);
  }

  lemma ClosingCall(s: State, call: SectionCall, closed: State, t: State, how: Finalized, answer: Decision)
    requires DuringApproval(s) && AwaitsAnswer(s, call.dept) && call.action.Known?
    requires Resumed(s, call).threads[call.dept].Ended? && closed == Closed(s, call)
    requires (t, how) == MaybeFinalize(closed, call.order, call.reread, call.now)
    requires how != Raised ==> answer.Decided?
    ensures Answered(s, call, t, answer) && how != Raised
  {
    CloseKeepsGateUntouched(s, call);
    FinalizeCases(closed, call.order, call.reread, call.now);
  }

  lemma AdmittedSectionCall(s: State, call: SectionCall)
    requires DuringApproval(s) && AwaitsAnswer(s, call.dept) && call.action.Known?
    ensures Answered(s, call, DecideSection(s, call).0, DecideSection(s, call).1)
  {
    GuardsAdmitAwaiting(s, call);
    DecideUnfolds(s, call);
    if Resumed(s, call).threads[call.dept].Paused? {
      ReworkingCall(s, call, Reworked(s, call));
    } else {
      var closed := Closed(s, call);
      var (t, how) := MaybeFinalize(closed, call.order, call.reread, call.now);
      ClosingCall(s, call, closed, t, how, DecideSection(s, call).1);
    }
  }

  /**
   A section call is accepted exactly when the department awaits an answer and the action is one
   of the three; a refused call changes nothing, and no call fails half-way through its writes.
   */
  lemma SectionKeepsInv(s: State, call: SectionCall)
    requires DuringApproval(s) && InApproval(s)
    ensures DuringApproval(DecideSection(s, call).0) && InApproval(DecideSection(s, call).0)
    ensures DecideSection(s, call).0.metadata == s.metadata
    ensures DecideSection(s, call).1.Refused? <==> !AwaitsAnswer(s, call.dept) || call.action.Unknown?
    ensures DecideSection(s, call).1.Refused? ==> DecideSection(s, call).0 == s
    ensures s.status == Done ==> DecideSection(s, call).0 == s
  {
    GuardsAdmitAwaiting(s, call);
    if AwaitsAnswer(s, call.dept) && call.action.Known? {
      AdmittedSectionCall(s, call);
    }
  }

  // ---------- apply_ceo_decision ----------

  /** The gate is open: the record names the live pause of the CEO thread. */
  ghost predicate GateOpen(s: State) {
    s.status == WaitingForApproval && SharedArbitration(s).ceoInterruptId.Some?
  }

  predicate CeoAnswer(a: RawAction) {
    a == Known(Approve) || a == Known(Reject)
  }

  lemma CeoUnfolds(s: State, call: CeoCall)
    requires DuringApproval(s)
    ensures DecideCeo(s, call) ==
      if !GateOpen(s) || !CeoAnswer(call.action) then (s, DecideCeo(s, call).1)
      else if call.action == Known(Approve) then
        var recorded := CeoRecorded(s, CeoApproved, call.now);
        (Finished(recorded, SharedArbitration(recorded), call.now), CeoDecided(CeoApproved))
      else (CeoRecorded(s, CeoRejected, call.now), CeoDecided(CeoRejected))
    ensures DecideCeo(s, call).1.Refused? <==> !GateOpen(s) || !CeoAnswer(call.action)
  {
    EveryDeptListed(call.order);
    FirstRowIsAnyRow(call.order, s);
    if GateOpen(s) && call.action == Known(Approve) {
      var resumed := s.(ceoThread := CeoEnded(CeoApproved));
      assert SharedArbitration(resumed) == SharedArbitration(s);
      PatchIsUniform(resumed, RecordApproval(call.now));
      SynthesisFinishes(CeoRecorded(s, CeoApproved, call.now), call.reread, call.now);
    }
  }

  lemma RecordingIsUniform(s: State, decision: CeoDecision, now: Time)
    requires DuringApproval(s) && GateOpen(s)
    ensures
      var t := CeoRecorded(s, decision, now);
      && RowsMatchMetadata(t) && SameRecordEverywhere(t) && RowsAgreeWithThreads(t) && EveryRowTerminal(t)
      && t.rows.Keys == s.rows.Keys && t.metadata == s.metadata && t.document == None && t.status == s.status
      && t.threads == s.threads
      && SharedArbitration(t) == WithCeoPatch(SharedArbitration(s),
                                              if decision == CeoApproved then RecordApproval(now) else RecordRejection)
  {
    var resumed := s.(ceoThread := CeoEnded(decision));
    var p := if decision == CeoApproved then RecordApproval(now) else RecordRejection;
    assert SharedArbitration(resumed) == SharedArbitration(s);
    assert RowsAgreeWithThreads(resumed) by {
      assert forall d :: d in s.rows ==> RowAgreesWithThread(s.rows[d], d, s.threads);
    }
    PatchIsUniform(resumed, p);
    PatchKeepsAgreement(resumed, p);
  }

  /** How a CEO call ends: approval finishes the ticket, rejection parks it, a refusal changes nothing. */
  ghost predicate CeoAnswered(s: State, call: CeoCall, t: State, answer: Decision) {
    && DuringApproval(t) && InApproval(t) && t.metadata == s.metadata
    && (answer.Refused? <==> !GateOpen(s) || !CeoAnswer(call.action))
    && (answer.Refused? ==> t == s)
    && (answer == CeoDecided(CeoApproved) ==> t.status == Done)
    && (answer == CeoDecided(CeoRejected) ==>
          t.status == WaitingForApproval && SharedArbitration(t).ceoDecision == Some(CeoRejected))
    && (!answer.Refused? ==> answer.CeoDecided? && SharedArbitration(t).ceoDecision.Some?
                             && t.rows.Keys == s.rows.Keys)
    && Rank(s.status) <= Rank(t.status)
  }

  lemma FinishingAnswers(s: State, call: CeoCall, recorded: State, t: State)
    requires DuringApproval(s) && GateOpen(s) && call.action == Known(Approve)
    requires recorded == CeoRecorded(s, CeoApproved, call.now)
    requires t == Finished(recorded, SharedArbitration(recorded), call.now)
    ensures CeoAnswered(s, call, t, CeoDecided(CeoApproved))
  {
    RecordingIsUniform(s, CeoApproved, call.now);
    FinishedIsSound(recorded, call.now);
    assert SharedArbitration(t) == SharedArbitration(recorded);
  }

  lemma CeoApprovalFinishes(s: State, call: CeoCall)
    requires DuringApproval(s) && GateOpen(s) && call.action == Known(Approve)
    ensures CeoAnswered(s, call, DecideCeo(s, call).0, DecideCeo(s, call).1)
  {
    CeoUnfolds(s, call);
    FinishingAnswers(s, call, CeoRecorded(s, CeoApproved, call.now), DecideCeo(s, call).0);
  }

  lemma CeoRejectionParks(s: State, call: CeoCall)
    requires DuringApproval(s) && GateOpen(s) && call.action == Known(Reject)
    ensures CeoAnswered(s, call, DecideCeo(s, call).0, DecideCeo(s, call).1)
  {
    CeoUnfolds(s, call);
    RecordingIsUniform(s, CeoRejected, call.now);
  }

  lemma CeoRefusalIsHarmless(s: State, call: CeoCall)
    requires DuringApproval(s) && InApproval(s) && (!GateOpen(s) || !CeoAnswer(call.action))
    ensures CeoAnswered(s, call, DecideCeo(s, call).0, DecideCeo(s, call).1)
  {
    CeoUnfolds(s, call);
  }

  /** A CEO call is accepted exactly at an open gate; approval finishes the ticket, rejection parks it. */
  lemma CeoKeepsInv(s: State, call: CeoCall)
    requires DuringApproval(s) && InApproval(s)
    ensures CeoAnswered(s, call, DecideCeo(s, call).0, DecideCeo(s, call).1)
  {
    if !GateOpen(s) || !CeoAnswer(call.action) {
      CeoRefusalIsHarmless(s, call);
    } else if call.action == Known(Approve) {
      CeoApprovalFinishes(s, call);
    } else {
      CeoRejectionParks(s, call);
    }
  }
}
