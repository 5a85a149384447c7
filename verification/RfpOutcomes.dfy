/** Where an approval can end: what stays as decided, what gets stuck, what can be finished, what is published. */
module RfpOutcomes {
  import opened Options
  import opened RfpLifecycle
  import opened RfpArbitration
  import opened RfpThread
  import opened RfpProtocol
  import opened RfpInvariant
  import opened RfpTaskProofs
  import opened RfpDecisionProofs
  import opened RfpTheorems
  import opened RfpProgress
  import opened RfpRedelivery

  // ---------- the approved text is the published text ----------

  lemma SectionsHave(rows: map<Dept, Row>, depts: seq<Dept>, d: Dept)
    ensures d in depts ==> SectionOf(rows, d) in SectionsOf(rows, depts)
    ensures forall c :: c in SectionsOf(rows, depts) ==> c == SectionOf(rows, c.dept) && c.dept in depts
  {
    if d in depts {
      var i :| 0 <= i < |depts| && depts[i] == d;
      assert SectionsOf(rows, depts)[i] == SectionOf(rows, d);
    }
  }

  /** Every section of the document for `d` shows `text` stamped at `at`. */
  predicate OnlyShows(doc: Document, d: Dept, text: string, at: Time) {
    forall c :: c in doc.sections && c.dept == d ==> Text(c.draft) == text && c.approvedAt == Some(at)
  }

  ghost predicate Publishes(doc: Document, d: Dept, text: string, at: Time) {
    (exists c :: c in doc.sections && c.dept == d) && OnlyShows(doc, d, text, at)
  }

  /** A closed row with the text and the stamp of its decision. */
  predicate Decides(r: Row, text: string, at: Time) {
    RowIsTerminal(r) && Text(r.draft) == text && r.approvedAt == Some(at)
  }

  /** The document, if there is one, shows nothing else for `d`. */
  ghost predicate Promised(s: State, d: Dept, text: string, at: Time) {
    && Loose(s) && d in s.rows && Decides(s.rows[d], text, at)
    && (s.document.Some? ==> OnlyShows(s.document.value, d, text, at))
  }

  /** A synthesis: the document was not there before, and shows the decided row. */
  ghost predicate Shows(s: State, t: State, d: Dept, text: string, at: Time) {
    && s.metadata.Some? && t.document.Some? && OnlyShows(t.document.value, d, text, at)
    && (d in s.metadata.value.needed ==> Publishes(t.document.value, d, text, at))
  }

  lemma SynthesisShows(s: State, order: RowOrder, now: Time, d: Dept, text: string, at: Time)
    requires s.status == WaitingForApproval && d in s.rows && Decides(s.rows[d], text, at)
    ensures
      var t := SynthesizeAndComplete(s, order, now).0;
      (t.document == s.document && t.status == s.status) || Shows(s, t, d, text, at)
  {
    var arb := FirstArbitration(order, s.rows);
    if s.metadata.None? || arb.ceoDecision == Some(CeoRejected) {
      SynthesisRaises(s, order, now);
    } else {
      SynthesisCompletes(s, order, now);
      DocumentShows(s, s.metadata.value, arb, now, d, text, at);
    }
  }

  lemma DocumentShows(s: State, m: Metadata, arb: Arbitration, now: Time, d: Dept, text: string, at: Time)
    requires d in s.rows && Decides(s.rows[d], text, at) && SynthesizeDocument(s, m, arb, now).Some?
    ensures
      var doc := SynthesizeDocument(s, m, arb, now).value;
      OnlyShows(doc, d, text, at) && (d in m.needed ==> Publishes(doc, d, text, at))
  {
    MarketingIsSelected(m);
    SectionsHave(s.rows, DocumentDepts(s, m), d);
  }

  lemma FinalizationShows(s: State, order: RowOrder, reread: RowOrder, now: Time, d: Dept, text: string, at: Time)
    requires s.status == WaitingForApproval && d in s.rows && Decides(s.rows[d], text, at)
    ensures
      var t := MaybeFinalize(s, order, reread, now).0;
      (t.document == s.document && t.status == s.status) || Shows(s, t, d, text, at)
  {
    if OpensGate(s, order) {
      FinalizationOpensGate(s, order, reread, now);
    } else if Finalizes(s) && !AsksCeo(s, order) {
      FinalizationSynthesizes(s, order, reread, now);
      SynthesisShows(s, reread, now, d, text, at);
    } else {
      FinalizationWaits(s, order, reread, now);
    }
  }

  lemma SectionShows(s: State, call: SectionCall, d: Dept, text: string, at: Time)
    requires Promised(s, d, text, at)
    ensures
      var t := DecideSection(s, call).0;
      (t.document == s.document && t.status == s.status) || Shows(s, t, d, text, at)
  {
    RefusedExactly(s, call);
    if Admits(s, call) {
      DecideUnfolds(s, call);
      if Resumed(s, call).threads[call.dept].Ended? {
        FinalizationShows(Closed(s, call), call.order, call.reread, call.now, d, text, at);
      }
    }
  }

  lemma CeoShows(s: State, call: CeoCall, d: Dept, text: string, at: Time)
    requires Promised(s, d, text, at)
    ensures
      var t := DecideCeo(s, call).0;
      (t.document == s.document && t.status == s.status) || Shows(s, t, d, text, at)
  {
    if !AdmitsCeo(s, call) {
      CeoRefused(s, call);
    } else if call.action == Known(Reject) {
      CeoRejects(s, call);
    } else {
      CeoApproves(s, call);
      PatchWritesRecords(s, CeoEnded(CeoApproved), s.nextId, s.metadata.value.needed, RecordApproval(call.now));
      SynthesisShows(CeoRecorded(s, CeoApproved, call.now), call.reread, call.now, d, text, at);
    }
  }

  lemma StepShows(s: State, step: Step, d: Dept, text: string, at: Time)
    requires Promised(s, d, text, at) && ValidStep(step)
    ensures
      var t := Take(s, step);
      && Promised(t, d, text, at)
      && ((t.document == s.document && t.status == s.status) || Shows(s, t, d, text, at))
  {
    StepEffect(s, step);
    assert RowKept(s, Take(s, step), d);
    match step
    case CallSection(call) => SectionShows(s, call, d, text, at);
    case CallCeo(call) => CeoShows(s, call, d, text, at);
    case _ => TasksOnlyWriteMetadata(s, step);
  }

  /** While the department is still asked for, the finished document does show it. */
  ghost predicate Delivers(s: State, d: Dept, text: string, at: Time) {
    && (s.status == WaitingForApproval ==> s.metadata.Some? && d in s.metadata.value.needed)
    && (s.status == Done ==> s.document.Some? && Publishes(s.document.value, d, text, at))
  }

  lemma StepDelivers(s: State, step: Step, d: Dept, text: string, at: Time)
    requires Promised(s, d, text, at) && Delivers(s, d, text, at) && ValidStep(step) && KeepsNeeding([step], d)
    ensures Delivers(Take(s, step), d, text, at)
  {
    StepShows(s, step, d, text, at);
    StatusOfStep(s, step);
    if step.CallCeo? {
      CeoCallWritesRecords(s, step.ceo);
    } else if step.CallSection? {
      SectionKeepsMetadata(s, step.section);
    } else {
      TasksOnlyWriteMetadata(s, step);
      assert step in [step];
    }
  }

  lemma SectionKeepsMetadata(s: State, call: SectionCall)
    requires Loose(s)
    ensures DecideSection(s, call).0.metadata == s.metadata
  {
    RefusedExactly(s, call);
    if Admits(s, call) {
      var base := AdmittedCall(s, call);
    }
  }

  /** A finished ticket is not written by any call. */
  lemma StatusOfStep(s: State, step: Step)
    ensures s.status == Done && (step.CallSection? || step.CallCeo?) ==> Take(s, step) == s
  {
  }

  lemma {:induction false} RunShows(s: State, steps: seq<Step>, d: Dept, text: string, at: Time)
    requires Promised(s, d, text, at) && ValidRun(steps)
    ensures Promised(Run(s, steps), d, text, at)
    ensures Delivers(s, d, text, at) && KeepsNeeding(steps, d) ==> Delivers(Run(s, steps), d, text, at)
    decreases |steps|
  {
    if steps != [] {
      StepShows(s, steps[0], d, text, at);
      if Delivers(s, d, text, at) && KeepsNeeding(steps, d) {
        StepDelivers(s, steps[0], d, text, at);
      }
      RunShows(Take(s, steps[0]), steps[1..], d, text, at);
    }
  }

  lemma DoneRowIsPublished(s: State, d: Dept, text: string, at: Time)
    requires Approving(s) && d in s.rows && Decides(s.rows[d], text, at)
    ensures Promised(s, d, text, at) && Delivers(s, d, text, at)
  {
    var m := s.metadata.value;
    ApprovingIsLoose(s);
    assert d in NeededSet(m);
    MarketingIsSelected(m);
    SectionsHave(s.rows, NeededInOrder(m), d);
  }

  lemma ApprovalClosesWithShownText(s: State, call: SectionCall)
    requires Approving(s) && AwaitsAnswer(s, call.dept) && call.action == Known(Approve)
    ensures
      var t := DecideSection(s, call).0;
      && Approving(t) && call.dept in t.rows && RowIsTerminal(t.rows[call.dept])
      && Text(t.rows[call.dept].draft) == Text(OnPause(s.threads[call.dept]).draft)
      && t.rows[call.dept].approvedAt == Some(call.now)
  {
    SectionKeepsInv(s, call);
    SectionEffect(s, call);
  }

  /**
   Whatever is redelivered: no document ever shows another text for an approved department than the one
   its approver was shown at the pause, stamped with the time of the approval; and a finished ticket's
   document does show it, unless a redelivered intake stopped asking for the department.
   */
  lemma ApprovedTextIsPublished(s: State, call: SectionCall, steps: seq<Step>)
    requires Approving(s) && AwaitsAnswer(s, call.dept) && call.action == Known(Approve) && ValidRun(steps)
    ensures
      var text := Text(OnPause(s.threads[call.dept]).draft);
      var end := Run(DecideSection(s, call).0, steps);
      && (end.document.Some? ==> OnlyShows(end.document.value, call.dept, text, call.now))
      && (end.status == Done && KeepsNeeding(steps, call.dept) ==>
            end.document.Some? && Publishes(end.document.value, call.dept, text, call.now))
  {
    var t, text := DecideSection(s, call).0, Text(OnPause(s.threads[call.dept]).draft);
    ApprovalClosesWithShownText(s, call);
    DoneRowIsPublished(t, call.dept, text, call.now);
    RunShows(t, steps, call.dept, text, call.now);
  }

  // ---------- everything else can be finished ----------

  function Approval(d: Dept): Step {
    CallSection(SectionCall(d, Known(Approve), None, Failed, 0, ALL_DEPARTMENTS, ALL_DEPARTMENTS))
  }

  const CEO_APPROVAL := CallCeo(CeoCall(Known(Approve), 0, ALL_DEPARTMENTS, ALL_DEPARTMENTS))

  ghost predicate Finishes(s: State, steps: seq<Step>) {
    HarmlessRun(s, steps) && Run(s, steps).status == Done
  }

  /** Waiting, every open department was started, and the CEO has not said no. */
  ghost predicate CanFinish(s: State) {
    Approving(s) && s.status == WaitingForApproval && CompleteStart(s) && !CeoSaidNo(s)
  }

  lemma OpenRowAwaits(s: State, d: Dept)
    requires Approving(s) && s.status == WaitingForApproval && CompleteStart(s)
    requires d in s.rows && s.rows[d].status == StatusPending
    ensures AwaitsAnswer(s, d) && !CeoSaidNo(s)
  {
    assert RowAgreesWithThread(s.rows[d], d, s.threads);
    assert !RowIsTerminal(s.rows[d]);
  }

  lemma ApprovalKeepsCanFinish(s: State, call: SectionCall)
    requires CanFinish(s) && AwaitsAnswer(s, call.dept) && call.action.Known?
    ensures var t := DecideSection(s, call).0; (t.status == Done || CanFinish(t)) && t.metadata == s.metadata
  {
    SectionKeepsInv(s, call);
    SectionEffect(s, call);
    CompleteAfterSection(s, call);
  }

  lemma CompleteAfterSection(s: State, call: SectionCall)
    requires Approving(s) && CompleteStart(s) && AwaitsAnswer(s, call.dept) && call.action.Known?
    ensures CompleteStart(DecideSection(s, call).0)
  {
    SectionEffect(s, call);
    var t := DecideSection(s, call).0;
    forall e | e in t.rows
      ensures t.rows[e].status != StatusPending || t.rows[e].eval.interruptId.Some?
    {
      if e != call.dept { assert SameExceptArbitration(s.rows[e], t.rows[e]); }
    }
  }

  lemma ClosedRowsOpenTheGate(s: State)
    requires CanFinish(s) && forall d :: d in s.rows ==> s.rows[d].status != StatusPending
    ensures GateOpen(s)
  {
    forall d | d in s.rows
      ensures RowIsTerminal(s.rows[d])
    {
      assert RowAgreesWithThread(s.rows[d], d, s.threads);
    }
    assert EveryRowTerminal(s);
  }

  lemma CeoApprovalFinishes(s: State, call: CeoCall)
    requires Approving(s) && GateOpen(s) && call.action == Known(Approve)
    ensures DecideCeo(s, call).0.status == Done && DecideCeo(s, call).0.metadata == s.metadata
  {
    CeoUnfolds(s, call);
  }

  lemma FinishesAfter(s: State, step: Step, t: State, rest: seq<Step>)
    requires Harmless(s, step) && t == Take(s, step) && t.metadata == s.metadata
    requires Finishes(t, rest) && Run(t, rest).metadata == t.metadata
    ensures Finishes(s, [step] + rest) && Run(s, [step] + rest).metadata == s.metadata
  {
    assert ([step] + rest)[1..] == rest;
  }

  lemma AcceptedAnswerProgresses(s: State, call: SectionCall, t: State)
    requires CanFinish(s) && AwaitsAnswer(s, call.dept) && call.action.Known? && t == DecideSection(s, call).0
    ensures (t.status == Done || CanFinish(t)) && t.metadata == s.metadata
    ensures DecisionsLeft(t) < DecisionsLeft(s)
  {
    ApprovalKeepsCanFinish(s, call);
    SectionUsesOneAnswer(s, call);
  }

  /** Approving one open department brings the ticket closer to its end. */
  lemma ApproveOne(s: State, d: Dept) returns (t: State)
    requires CanFinish(s) && d in s.rows && s.rows[d].status == StatusPending
    ensures t == Take(s, Approval(d)) && t.metadata == s.metadata
    ensures (t.status == Done || CanFinish(t)) && DecisionsLeft(t) < DecisionsLeft(s)
  {
    OpenRowAwaits(s, d);
    t := Take(s, Approval(d));
    AcceptedAnswerProgresses(s, Approval(d).section, t);
  }

  lemma ApproveAsCeo(s: State) returns (t: State)
    requires Approving(s) && GateOpen(s)
    ensures t == Take(s, CEO_APPROVAL) && t.status == Done && t.metadata == s.metadata
  {
    CeoApprovalFinishes(s, CEO_APPROVAL.ceo);
    t := DecideCeo(s, CEO_APPROVAL.ceo).0;
  }

  /** The finishing run itself: approve each open department, then let the CEO approve if asked. */
  lemma {:induction false} CanBeFinished(s: State) returns (steps: seq<Step>)
    requires CanFinish(s)
    ensures Finishes(s, steps) && Run(s, steps).metadata == s.metadata
    decreases DecisionsLeft(s)
  {
    if d :| d in s.rows && s.rows[d].status == StatusPending {
      var t := ApproveOne(s, d);
      var rest: seq<Step> := [];
      if t.status != Done {
        rest := CanBeFinished(t);
      }
      FinishesAfter(s, Approval(d), t, rest);
      steps := [Approval(d)] + rest;
    } else {
      ClosedRowsOpenTheGate(s);
      var t := ApproveAsCeo(s);
      FinishesAfter(s, CEO_APPROVAL, t, []);
      steps := [CEO_APPROVAL] + [];
    }
  }

  lemma {:induction false} HarmlessRunKeepsNeeding(s: State, steps: seq<Step>, d: Dept)
    requires Approving(s) && HarmlessRun(s, steps) && d in NeededSet(s.metadata.value)
    ensures KeepsNeeding(steps, d)
    decreases |steps|
  {
    if steps != [] {
      StaysApproving(s, steps[0]);
      SameNeeded(s, steps[0]);
      HarmlessRunKeepsNeeding(Take(s, steps[0]), steps[1..], d);
      HarmlessKeepsNeeding(s, steps[0], d);
      NeedingJoins(steps, d);
    }
  }

  lemma HarmlessKeepsNeeding(s: State, step: Step, d: Dept)
    requires Approving(s) && Harmless(s, step) && d in NeededSet(s.metadata.value)
    ensures KeepsNeeding([step], d)
  {
    assert step.DeliverIntake? && step.outage > 0 && step.intake.IntakeValid? ==> d in NeededSet(step.intake.metadata);
  }

  lemma NeedingJoins(steps: seq<Step>, d: Dept)
    requires steps != [] && KeepsNeeding([steps[0]], d) && KeepsNeeding(steps[1..], d)
    ensures KeepsNeeding(steps, d)
  {
    assert steps[0] in [steps[0]];
    assert steps == [steps[0]] + steps[1..];
  }

  lemma SameNeeded(s: State, step: Step)
    requires Approving(s) && Harmless(s, step)
    ensures Take(s, step).metadata.Some? && NeededSet(Take(s, step).metadata.value) == NeededSet(s.metadata.value)
  {
    match step
    case CallSection(call) => SectionKeepsInv(s, call);
    case CallCeo(call) => CeoKeepsInv(s, call);
    case _ => TasksIdleInApproval(s, step);
  }

  /** A department of a waiting ticket whose thread was never started blocks it. */
  lemma UnstartedBlocks(s: State, d: Dept)
    requires Approving(s) && s.status == WaitingForApproval && d in s.rows && !RowStarted(s.rows[d])
    ensures Blocked(s, d) && d in NeededSet(s.metadata.value)
  {
    assert !RowIsTerminal(s.rows[d]);
    assert !EveryRowTerminal(s);
    assert d in NeededSet(s.metadata.value);
  }

  lemma DuringApprovalFinishable(s: State)
    requires Approving(s)
    ensures (exists steps :: Finishes(s, steps)) <==> s.status == Done || CanFinish(s)
  {
    if s.status == Done {
      assert Finishes(s, []);
    } else if CanFinish(s) {
      var steps := CanBeFinished(s);
    } else {
      forall steps | HarmlessRun(s, steps)
        ensures !Finishes(s, steps)
      {
        HarmlessRunIsValid(s, steps);
        if CeoSaidNo(s) {
          RejectedStaysRejected(s, steps);
        } else {
          var d :| d in s.rows && !RowStarted(s.rows[d]);
          UnstartedBlocks(s, d);
          ApprovingIsLoose(s);
          HarmlessRunKeepsNeeding(s, steps, d);
          BlockedIsNeverDone(s, steps, d);
        }
      }
    }
  }

  lemma RunChain(s: State, step: Step, rest: seq<Step>)
    requires Harmless(s, step) && HarmlessRun(Take(s, step), rest)
    ensures HarmlessRun(s, [step] + rest) && Run(s, [step] + rest) == Run(Take(s, step), rest)
  {
    assert ([step] + rest)[1..] == rest;
  }

  lemma OpenRowCanFinish(s: State)
    requires Approving(s) && CompleteStart(s) && s.status == WaitingForApproval
    requires Marketing in s.rows && s.rows[Marketing].status == StatusPending
    ensures CanFinish(s)
  {
    assert !RowIsTerminal(s.rows[Marketing]);
    assert !EveryRowTerminal(s);
  }

  /** A delivery with nothing extracted and an outage too late to matter. */
  function UndisturbedRun(m: Metadata): StartRun {
    StartRun(map[], ALL_DEPARTMENTS, |NeededInOrder(m)| + 2 * |m.needed| + 1, {})
  }

  lemma PreFlipLength(s: State, m: Metadata)
    ensures |PreFlip(s, m, UndisturbedRun(m))| == |NeededInOrder(m)| + |m.needed|
  {
  }

  lemma UndisturbedStart(s: State, m: Metadata)
    requires Inv(s) && s.status == UnderEvaluation && s.metadata == Some(m)
    ensures
      var t := ProcessApproval(s, UndisturbedRun(m));
      && Inv(t) && t.metadata == s.metadata && t.status == WaitingForApproval && CompleteStart(t)
      && forall d :: d in t.rows ==> t.rows[d].status == StatusPending
  {
    PreFlipLength(s, m);
    ApprovalStarted(s, UndisturbedRun(m));
  }

  /** An undisturbed delivery of the approval task leaves a ticket that can finish. */
  lemma FullStart(s: State) returns (step: Step)
    requires Inv(s) && s.status == UnderEvaluation
    ensures step.DeliverApproval? && CanFinish(Take(s, step)) && Take(s, step).metadata == s.metadata
  {
    var run := UndisturbedRun(s.metadata.value);
    UndisturbedStart(s, s.metadata.value);
    OpenRowCanFinish(ProcessApproval(s, run));
    step := DeliverApproval(run);
  }

  lemma FromEvaluation(s: State) returns (steps: seq<Step>)
    requires Inv(s) && s.status == UnderEvaluation
    ensures Finishes(s, steps) && Run(s, steps).metadata == s.metadata
  {
    var approval := FullStart(s);
    var rest := CanBeFinished(Take(s, approval));
    RunChain(s, approval, rest);
    steps := [approval] + rest;
  }

  lemma FromIntake(s: State) returns (steps: seq<Step>)
    requires Inv(s) && (s.status == IntakeComplete || s.status == Drafting)
    ensures Finishes(s, steps) && Run(s, steps).metadata == s.metadata
  {
    var response := DeliverResponse(ResponseRun(None, 1, {}, true));
    ResponseLandsAtEvaluation(s, response.response);
    ResponseFrame(s, response.response);
    StepKeepsInv(s, response);
    var rest := FromEvaluation(Take(s, response));
    RunChain(s, response, rest);
    steps := [response] + rest;
  }

  /** A first, undisturbed delivery of a valid intake. */
  lemma FromUpload(s: State, m: Metadata) returns (steps: seq<Step>)
    requires Inv(s) && s.status == Analyzing && s.rows == map[] && Marketing in m.needed
    ensures Finishes(s, steps) && Run(s, steps).metadata == Some(m)
  {
    var intake := DeliverIntake(IntakeValid(m), 3);
    IntakeUnfolded(s, IntakeValid(m), 3);
    StepKeepsInv(s, intake);
    var rest := FromIntake(Take(s, intake));
    RunChain(s, intake, rest);
    steps := [intake] + rest;
  }

  /**
   From upload to publication: whatever departments a valid intake needs, the ticket can be taken
   to its end. So the guarantees above are not about states no ticket reaches.
   */
  lemma EveryValidTicketCanFinish(m: Metadata) returns (steps: seq<Step>)
    requires Marketing in m.needed
    ensures HarmlessRun(NEW_TICKET, steps) && Run(NEW_TICKET, steps).status == Done
    ensures Run(NEW_TICKET, steps).metadata == Some(m)
  {
    steps := FromUpload(NEW_TICKET, m);
  }

  /** Analysis stopped between the insert of the rows and the status write, or the ticket was discarded. */
  ghost predicate Dead(s: State) {
    (s.status == Analyzing && Marketing in s.rows) || s.status == Discarded
  }

  /** Every further valid intake meets the rows that are there, and raises. */
  lemma DeadStep(s: State, step: Step)
    requires Dead(s) && ValidStep(step)
    ensures Dead(Take(s, step)) && !Accepted(s, step)
  {
    match step
    case DeliverIntake(i, outage) =>
      IntakeUnfolded(s, i, outage);
      if i.IntakeValid? { MarketingIsSelected(i.metadata); }
      if s.status == Discarded { StepIsForward(s, step); }
    case DeliverResponse(run) => ResponseLeavesOthersAlone(s, run);
    case _ =>
  }

  lemma {:induction false} DeadStaysDead(s: State, steps: seq<Step>)
    requires Dead(s) && ValidRun(steps)
    ensures Dead(Run(s, steps)) && AcceptedCount(s, steps) == 0
    decreases |steps|
  {
    if steps != [] {
      DeadStep(s, steps[0]);
      DeadStaysDead(Take(s, steps[0]), steps[1..]);
    }
  }

  /**
   In every reachable state: some run finishes the ticket if and only if it is done, or still on its way
   to approval, or waiting with a complete start and no rejection. What is left out is a ticket that was
   discarded, or whose analysis stopped after inserting the rows.
   */
  lemma FinishableExactly(s: State)
    requires Inv(s)
    ensures (exists steps :: Finishes(s, steps)) <==>
            || s.status == Done || CanFinish(s)
            || s.status in {IntakeComplete, Drafting, UnderEvaluation}
            || (s.status == Analyzing && s.rows == map[])
  {
    if InApproval(s) {
      DuringApprovalFinishable(s);
    } else if s.status == IntakeComplete || s.status == Drafting {
      var steps := FromIntake(s);
    } else if s.status == UnderEvaluation {
      var steps := FromEvaluation(s);
    } else if s.status == Analyzing && s.rows == map[] {
      var steps := FromUpload(s, Metadata([Marketing], None));
    } else {
      forall steps | HarmlessRun(s, steps)
        ensures !Finishes(s, steps)
      {
        HarmlessRunIsValid(s, steps);
        DeadStaysDead(s, steps);
      }
    }
  }

  // ---------- a decision call that stops half-way ----------

  /**
   A section call that stops after closing the row and before the finalization attempt. If a department is
   still open nothing is lost; otherwise no decision is ever accepted again and the ticket is never done.
   */
  lemma StoppedBeforeFinalization(s: State, call: SectionCall)
    requires Approving(s) && AwaitsAnswer(s, call.dept) && call.action.Known?
    requires Resumed(s, call).threads[call.dept].Ended?
    ensures
      var closed := Closed(s, call);
      && (!EveryRowTerminal(closed) ==> Approving(closed) && closed == DecideSection(s, call).0)
      && (EveryRowTerminal(closed) ==>
            forall steps | ValidRun(steps) :: Run(closed, steps).status != Done && AcceptedCount(closed, steps) == 0)
  {
    var closed := Closed(s, call);
    CloseKeepsGateUntouched(s, call);
    GuardsAdmitAwaiting(s, call);
    if EveryRowTerminal(closed) {
      UntouchedIsParked(closed);
      forall steps | ValidRun(steps)
        ensures Run(closed, steps).status != Done && AcceptedCount(closed, steps) == 0
      {
        ParkedStaysParked(closed, steps);
      }
    } else {
      FinalizeCases(closed, call.order, call.reread, call.now);
      DecideUnfolds(s, call);
    }
  }

  lemma UntouchedIsParked(s: State)
    requires GateUntouched(s) && EveryRowTerminal(s)
    ensures Parked(s)
  {
    assert Marketing in NeededSet(s.metadata.value);
  }

  /** A CEO approval that stops before the synthesis leaves a ticket that is never done. */
  lemma StoppedBeforeSynthesis(s: State, now: Time, steps: seq<Step>)
    requires Approving(s) && GateOpen(s) && ValidRun(steps)
    ensures
      var recorded := CeoRecorded(s, CeoApproved, now);
      Run(recorded, steps).status != Done && AcceptedCount(recorded, steps) == 0
  {
    RecordingIsUniform(s, CeoApproved, now);
    ParkedStaysParked(CeoRecorded(s, CeoApproved, now), steps);
  }
}
