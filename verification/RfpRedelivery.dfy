/** What holds over every run of an approval, whatever departments a redelivered intake asks for. */
module RfpRedelivery {
  import opened Options
  import opened RfpLifecycle
  import opened RfpArbitration
  import opened RfpThread
  import opened RfpProtocol
  import opened RfpInvariant
  import opened RfpTaskProofs
  import opened RfpDecisionProofs
  import opened RfpTheorems
  import opened RfpProgress

  // ---------- any run ----------

  predicate ValidStep(step: Step) {
    step.DeliverIntake? ==> IntakeResult(step.intake)
  }

  /** Every delivery the tasks can make: a redelivered intake may ask for any departments. */
  predicate ValidRun(steps: seq<Step>) {
    forall step :: step in steps ==> ValidStep(step)
  }

  /** What no redelivery breaks: the rows and threads agree, and marketing has a row and is needed. */
  ghost predicate Loose(s: State) {
    && InApproval(s) && s.metadata.Some? && Marketing in s.metadata.value.needed && Marketing in s.rows
    && RowsAgreeWithThreads(s)
  }

  lemma ApprovingIsLoose(s: State)
    requires Approving(s)
    ensures Loose(s)
  {
    assert Marketing in NeededSet(s.metadata.value);
  }

  lemma HarmlessRunIsValid(s: State, steps: seq<Step>)
    requires HarmlessRun(s, steps)
    ensures ValidRun(steps)
    decreases |steps|
  {
    if steps != [] {
      HarmlessRunIsValid(Take(s, steps[0]), steps[1..]);
      assert steps == [steps[0]] + steps[1..];
    }
  }

  /** The tasks write nothing but metadata: the insert of a redelivered intake meets the row of marketing. */
  lemma TasksOnlyWriteMetadata(s: State, step: Step)
    requires Loose(s) && ValidStep(step) && !step.CallSection? && !step.CallCeo?
    ensures
      var t := Take(s, step);
      && t == s.(metadata := t.metadata) && t.metadata.Some? && Marketing in t.metadata.value.needed
      && (t.metadata == s.metadata
          || (step.DeliverIntake? && step.outage > 0 && step.intake.IntakeValid?
              && t.metadata == Some(step.intake.metadata)))
  {
    match step
    case DeliverIntake(i, outage) =>
      IntakeUnfolded(s, i, outage);
      if i.IntakeValid? { MarketingIsSelected(i.metadata); }
    case DeliverResponse(run) => ResponseLeavesOthersAlone(s, run);
    case DeliverApproval(run) =>
  }

  // ---------- what a CEO patch or a finalization writes ----------

  /** What arbitration decided about a row; a CEO patch does not touch it. */
  function CoreAt(r: Row): Arbitration {
    if r.eval.arbitration.Some? then Core(r.eval.arbitration.value) else EMPTY_ARBITRATION
  }

  ghost predicate SameCore(r: Row, r': Row) {
    CoreAt(r') == CoreAt(r) && (r.eval.arbitration.Some? ==> r'.eval.arbitration.Some?)
  }

  ghost predicate OnlyRecord(r: Row, r': Row) {
    SameExceptArbitration(r, r') && SameCore(r, r')
  }

  ghost predicate OnlyRowRecords(rows: map<Dept, Row>, rows': map<Dept, Row>) {
    rows'.Keys == rows.Keys && forall e :: e in rows ==> OnlyRecord(rows[e], rows'[e])
  }

  /** Of rows, threads and metadata only the CEO fields of the records differ. */
  ghost predicate OnlyRecords(s: State, t: State) {
    && t.metadata == s.metadata && t.threads == s.threads
    && (t.status == s.status || t.status == Done)
    && OnlyRowRecords(s.rows, t.rows)
  }

  /** The CEO thread and the counter of ids do not show in the rows. */
  lemma PatchWritesRecords(s: State, ceoThread: CeoThread, nextId: nat, needed: seq<Dept>, p: CeoPatch)
    ensures OnlyRecords(s, PatchArbitration(s.(ceoThread := ceoThread, nextId := nextId), needed, p))
  {
    assert PatchArbitration(s.(ceoThread := ceoThread, nextId := nextId), needed, p).rows.Keys == s.rows.Keys;
  }

  lemma SynthesisWritesNoRow(s: State, order: RowOrder, now: Time)
    ensures
      var t := SynthesizeAndComplete(s, order, now).0;
      && t.metadata == s.metadata && t.threads == s.threads && t.rows == s.rows
      && (t.status == s.status || t.status == Done)
  {
  }

  lemma SynthesisRaises(s: State, order: RowOrder, now: Time)
    requires s.metadata.None? || FirstArbitration(order, s.rows).ceoDecision == Some(CeoRejected)
    ensures SynthesizeAndComplete(s, order, now).0 == s
  {
  }

  lemma SynthesisCompletes(s: State, order: RowOrder, now: Time)
    requires s.status == WaitingForApproval && s.metadata.Some?
    requires FirstArbitration(order, s.rows).ceoDecision != Some(CeoRejected)
    ensures SynthesizeAndComplete(s, order, now) == (Finished(s, FirstArbitration(order, s.rows), now), Completed)
  {
    AllowedIsNextStatus(WaitingForApproval, Done);
  }

  /** The finalization attempt goes past the wait: every needed department is closed. */
  predicate Finalizes(s: State) {
    s.metadata.Some? && AllTerminal(s.rows, s.metadata.value.needed)
  }

  /** The record read first still asks for the CEO. */
  predicate AsksCeo(s: State, order: RowOrder) {
    var arb := FirstArbitration(order, s.rows);
    arb.ceoRequired && arb.ceoDecision != Some(CeoApproved)
  }

  predicate OpensGate(s: State, order: RowOrder) {
    var arb := FirstArbitration(order, s.rows);
    Finalizes(s) && AsksCeo(s, order) && arb.ceoDecision == None && arb.ceoInterruptId == None
  }

  function GateOpened(s: State): State
    requires s.metadata.Some?
  {
    PatchArbitration(s.(ceoThread := CeoPaused(s.nextId), nextId := s.nextId + 1), s.metadata.value.needed,
                     OpenGate(s.nextId))
  }

  lemma FinalizationOpensGate(s: State, order: RowOrder, reread: RowOrder, now: Time)
    requires OpensGate(s, order)
    ensures MaybeFinalize(s, order, reread, now) == (GateOpened(s), CeoGateOpened)
  {
  }

  lemma FinalizationSynthesizes(s: State, order: RowOrder, reread: RowOrder, now: Time)
    requires Finalizes(s) && !AsksCeo(s, order)
    ensures MaybeFinalize(s, order, reread, now) == SynthesizeAndComplete(s, reread, now)
  {
  }

  lemma FinalizationWaits(s: State, order: RowOrder, reread: RowOrder, now: Time)
    requires !OpensGate(s, order) && !(Finalizes(s) && !AsksCeo(s, order))
    ensures MaybeFinalize(s, order, reread, now).0 == s
  {
    var decision := FirstArbitration(order, s.rows).ceoDecision;
    if decision.Some? {
      assert decision.value.CeoApproved? || decision.value.CeoRejected?;
    }
  }

  lemma FinalizationWritesRecords(s: State, order: RowOrder, reread: RowOrder, now: Time)
    ensures OnlyRecords(s, MaybeFinalize(s, order, reread, now).0)
  {
    if OpensGate(s, order) {
      FinalizationOpensGate(s, order, reread, now);
      PatchWritesRecords(s, CeoPaused(s.nextId), s.nextId + 1, s.metadata.value.needed, OpenGate(s.nextId));
    } else if Finalizes(s) && !AsksCeo(s, order) {
      FinalizationSynthesizes(s, order, reread, now);
      SynthesisWritesNoRow(s, reread, now);
    } else {
      FinalizationWaits(s, order, reread, now);
    }
  }

  /** The call gets past the guards of the CEO endpoint. */
  predicate AdmitsCeo(s: State, call: CeoCall) {
    var arb := FirstArbitration(call.order, s.rows);
    && s.status == WaitingForApproval && s.metadata.Some? && arb.ceoRequired && arb.ceoInterruptId.Some?
    && CeoAnswer(call.action) && s.ceoThread == CeoPaused(arb.ceoInterruptId.value)
  }

  lemma CeoRefused(s: State, call: CeoCall)
    requires !AdmitsCeo(s, call)
    ensures DecideCeo(s, call).0 == s && DecideCeo(s, call).1.Refused?
  {
  }

  lemma CeoRejects(s: State, call: CeoCall)
    requires AdmitsCeo(s, call) && call.action == Known(Reject)
    ensures DecideCeo(s, call) == (CeoRecorded(s, CeoRejected, call.now), CeoDecided(CeoRejected))
  {
  }

  lemma CeoApproves(s: State, call: CeoCall)
    requires AdmitsCeo(s, call) && call.action == Known(Approve)
    ensures DecideCeo(s, call).0
         == SynthesizeAndComplete(CeoRecorded(s, CeoApproved, call.now), call.reread, call.now).0
  {
  }

  lemma CeoCallWritesRecords(s: State, call: CeoCall)
    ensures OnlyRecords(s, DecideCeo(s, call).0)
  {
    if !AdmitsCeo(s, call) {
      CeoRefused(s, call);
    } else if call.action == Known(Reject) {
      CeoRejects(s, call);
      PatchWritesRecords(s, CeoEnded(CeoRejected), s.nextId, s.metadata.value.needed, RecordRejection);
    } else {
      CeoApproves(s, call);
      PatchWritesRecords(s, CeoEnded(CeoApproved), s.nextId, s.metadata.value.needed, RecordApproval(call.now));
      SynthesisWritesNoRow(CeoRecorded(s, CeoApproved, call.now), call.reread, call.now);
    }
  }

  lemma RecordsKeepAgreement(s: State, t: State)
    requires RowsAgreeWithThreads(s) && OnlyRecords(s, t)
    ensures RowsAgreeWithThreads(t)
  {
    forall d | d in t.rows
      ensures RowAgreesWithThread(t.rows[d], d, t.threads)
    {
      assert RowAgreesWithThread(s.rows[d], d, s.threads) && OnlyRecord(s.rows[d], t.rows[d]);
    }
  }

  // ---------- a section call ----------

  /** The call gets past the guards of the endpoint. */
  ghost predicate Admits(s: State, call: SectionCall) {
    AwaitsAnswer(s, call.dept) && call.action.Known? && call.dept in s.metadata.value.needed
  }

  lemma RefusedExactly(s: State, call: SectionCall)
    requires Loose(s)
    ensures !Admits(s, call) ==> DecideSection(s, call).0 == s && DecideSection(s, call).1.Refused?
  {
    assert call.dept in s.rows ==> RowAgreesWithThread(s.rows[call.dept], call.dept, s.threads);
  }

  /** The row of the answered department, next to rows that differ from before in CEO fields only. */
  ghost predicate AnsweredAs(s: State, base: State, t: State, call: SectionCall)
    requires Admits(s, call)
  {
    && base == (if Resumed(s, call).threads[call.dept].Paused? then Reworked(s, call) else Closed(s, call))
    && OnlyRecords(base, t)
  }

  lemma AdmittedCall(s: State, call: SectionCall) returns (base: State)
    requires Admits(s, call)
    ensures AnsweredAs(s, base, DecideSection(s, call).0, call)
    ensures Resumed(s, call).threads[call.dept].Paused? ==> DecideSection(s, call).0 == base
  {
    DecideUnfolds(s, call);
    if Resumed(s, call).threads[call.dept].Paused? {
      base := Reworked(s, call);
    } else {
      base := Closed(s, call);
      FinalizationWritesRecords(base, call.order, call.reread, call.now);
    }
  }

  lemma CloseAgrees(s: State, call: SectionCall)
    requires RowsAgreeWithThreads(s) && AwaitsAnswer(s, call.dept) && call.action.Known?
    requires Resumed(s, call).threads[call.dept].Ended?
    ensures RowsAgreeWithThreads(Closed(s, call))
  {
    var t := Closed(s, call);
    forall d | d in t.rows
      ensures RowAgreesWithThread(t.rows[d], d, t.threads)
    {
      assert RowAgreesWithThread(s.rows[d], d, s.threads);
    }
  }

  lemma AnsweredStaysLoose(s: State, base: State, t: State, call: SectionCall)
    requires Loose(s) && Admits(s, call) && AnsweredAs(s, base, t, call)
    ensures Loose(t)
  {
    if Resumed(s, call).threads[call.dept].Paused? {
      ReworkAgrees(s, call);
    } else {
      CloseAgrees(s, call);
    }
    RecordsKeepAgreement(base, t);
  }

  // ---------- the effect of one step ----------

  /** The row keeps all but the CEO fields of its record, and its thread is the same. */
  ghost predicate RowKept(s: State, t: State, d: Dept) {
    && d in s.rows && d in t.rows && OnlyRecord(s.rows[d], t.rows[d])
    && (d in s.threads <==> d in t.threads) && (d in s.threads ==> t.threads[d] == s.threads[d])
  }

  ghost predicate Answers(s: State, step: Step, d: Dept) {
    step.CallSection? && step.section.dept == d && Admits(s, step.section)
  }

  lemma ReworkTouchesOne(s: State, call: SectionCall, e: Dept)
    requires Admits(s, call) && Resumed(s, call).threads[call.dept].Paused? && e in s.rows
    ensures e != call.dept ==> RowKept(s, Reworked(s, call), e)
    ensures e in Reworked(s, call).rows && SameCore(s.rows[e], Reworked(s, call).rows[e])
  {
  }

  lemma CloseTouchesOne(s: State, call: SectionCall, e: Dept)
    requires Admits(s, call) && Resumed(s, call).threads[call.dept].Ended? && e in s.rows
    ensures e != call.dept ==> RowKept(s, Closed(s, call), e)
    ensures e in Closed(s, call).rows && SameCore(s.rows[e], Closed(s, call).rows[e])
  {
  }

  lemma AnsweredKeepsOthers(s: State, base: State, t: State, call: SectionCall, e: Dept)
    requires Admits(s, call) && AnsweredAs(s, base, t, call) && e in s.rows
    ensures e != call.dept ==> RowKept(s, t, e)
    ensures e in t.rows && SameCore(s.rows[e], t.rows[e])
  {
    if Resumed(s, call).threads[call.dept].Paused? {
      ReworkTouchesOne(s, call, e);
    } else {
      CloseTouchesOne(s, call, e);
    }
    RecordsKeepRow(s, base, t, e);
  }

  lemma RecordsKeepRow(s: State, base: State, t: State, e: Dept)
    requires e in s.rows && e in base.rows && SameCore(s.rows[e], base.rows[e]) && OnlyRecords(base, t)
    ensures e in t.rows && SameCore(s.rows[e], t.rows[e])
    ensures RowKept(s, base, e) ==> RowKept(s, t, e)
  {
    assert OnlyRecord(base.rows[e], t.rows[e]);
  }

  /** What every step keeps of the rows that it does not answer. */
  ghost predicate Kept(s: State, t: State, step: Step) {
    && Loose(t) && t.rows.Keys == s.rows.Keys
    && (forall e :: e in s.rows ==> SameCore(s.rows[e], t.rows[e]))
    && (forall e :: e in s.rows && !Answers(s, step, e) ==> RowKept(s, t, e))
  }

  lemma StepEffect(s: State, step: Step)
    requires Loose(s) && ValidStep(step)
    ensures Kept(s, Take(s, step), step)
  {
    match step
    case CallSection(call) => SectionEffectOf(s, call);
    case CallCeo(call) => CeoEffectOf(s, call, DecideCeo(s, call).0);
    case _ => MetadataShowsInNoRow(s, step, Take(s, step));
  }

  lemma CeoEffectOf(s: State, call: CeoCall, t: State)
    requires Loose(s) && t == DecideCeo(s, call).0
    ensures Kept(s, t, CallCeo(call))
  {
    CeoCallWritesRecords(s, call);
    RecordsKeepAgreement(s, t);
  }

  lemma MetadataShowsInNoRow(s: State, step: Step, t: State)
    requires Loose(s) && ValidStep(step) && !step.CallSection? && !step.CallCeo? && t == Take(s, step)
    ensures Kept(s, t, step)
  {
    TasksOnlyWriteMetadata(s, step);
  }

  lemma SectionEffectOf(s: State, call: SectionCall)
    requires Loose(s)
    ensures
      var t := DecideSection(s, call).0;
      && Loose(t) && t.rows.Keys == s.rows.Keys
      && (forall e :: e in s.rows ==> SameCore(s.rows[e], t.rows[e]))
      && (forall e :: e in s.rows && !(e == call.dept && Admits(s, call)) ==> RowKept(s, t, e))
  {
    RefusedExactly(s, call);
    if Admits(s, call) {
      var t := DecideSection(s, call).0;
      var base := AdmittedCall(s, call);
      AnsweredStaysLoose(s, base, t, call);
      assert base.rows.Keys == s.rows.Keys;
      forall e | e in s.rows
        ensures e in t.rows && SameCore(s.rows[e], t.rows[e]) && (e != call.dept ==> RowKept(s, t, e))
      {
        AnsweredKeepsOthers(s, base, t, call, e);
      }
    }
  }

  lemma {:induction false} StaysLoose(s: State, steps: seq<Step>)
    requires Loose(s) && ValidRun(steps)
    ensures Loose(Run(s, steps)) && Run(s, steps).rows.Keys == s.rows.Keys
    decreases |steps|
  {
    if steps != [] {
      StepEffect(s, steps[0]);
      StaysLoose(Take(s, steps[0]), steps[1..]);
    }
  }

  // ---------- decided rows and what arbitration decided never change again ----------

  lemma {:induction false} TerminalRowsAreFrozen(s: State, steps: seq<Step>, d: Dept)
    requires Loose(s) && ValidRun(steps) && d in s.rows && RowIsTerminal(s.rows[d])
    ensures RowKept(s, Run(s, steps), d)
    decreases |steps|
  {
    if steps != [] {
      StepEffect(s, steps[0]);
      assert !Answers(s, steps[0], d);
      TerminalRowsAreFrozen(Take(s, steps[0]), steps[1..], d);
    }
  }

  lemma {:induction false} CoresAreKept(s: State, steps: seq<Step>, d: Dept)
    requires Loose(s) && ValidRun(steps) && d in s.rows
    ensures d in Run(s, steps).rows && SameCore(s.rows[d], Run(s, steps).rows[d])
    decreases |steps|
  {
    if steps != [] {
      StepEffect(s, steps[0]);
      CoresAreKept(Take(s, steps[0]), steps[1..], d);
    }
  }

  lemma {:induction false} FirstHasCore(order: seq<Dept>, rows: map<Dept, Row>, core: Arbitration)
    requires forall d :: d in rows ==> rows[d].eval.arbitration.Some? && CoreAt(rows[d]) == core
    requires exists d :: d in order && d in rows
    ensures Core(FirstArbitration(order, rows)) == core
  {
    if order[0] !in rows {
      assert order == [order[0]] + order[1..];
      FirstHasCore(order[1..], rows, core);
    }
  }

  /**
   From the start of approval on, every row keeps the triggers, the forced departments and the CEO
   requirement computed at the start, whatever is redelivered: every row order reads the same.
   */
  lemma ArbitrationNeverDiverges(s: State, steps: seq<Step>, order: RowOrder)
    requires Approving(s) && ValidRun(steps)
    ensures
      var t := Run(s, steps);
      && Core(FirstArbitration(order, t.rows)) == Core(SharedArbitration(s))
      && forall d :: d in t.rows ==> t.rows[d].eval.arbitration.Some? && CoreAt(t.rows[d]) == Core(SharedArbitration(s))
  {
    var t := Run(s, steps);
    ApprovingIsLoose(s);
    StaysLoose(s, steps);
    forall d | d in t.rows
      ensures t.rows[d].eval.arbitration.Some? && CoreAt(t.rows[d]) == Core(SharedArbitration(s))
    {
      CoresAreKept(s, steps, d);
      assert s.rows[d].eval.arbitration == Some(SharedArbitration(s));
    }
    EveryDeptListed(order);
    FirstHasCore(order, t.rows, Core(SharedArbitration(s)));
  }

  // ---------- every department is paused or closed ----------

  /** Closed with no pause recorded, or paused under the id in its row with the row's own text. */
  ghost predicate PausedOrClosed(s: State, d: Dept)
    requires d in s.rows
  {
    var r := s.rows[d];
    if r.status != StatusPending then RowIsTerminal(r) && r.eval.interruptId == None
    else
      && r.eval.interruptId.Some? && d in s.threads && s.threads[d].Paused?
      && s.threads[d].interruptId == r.eval.interruptId.value
      && Text(s.threads[d].section.draft) == Text(r.draft)
  }

  /** Was the thread of the department started: is its row closed or does it name a pause? */
  predicate RowStarted(r: Row) {
    r.status != StatusPending || r.eval.interruptId.Some?
  }

  lemma AnsweredRowIsStarted(s: State, call: SectionCall)
    requires Loose(s) && Admits(s, call)
    ensures
      var t := DecideSection(s, call).0;
      call.dept in t.rows && RowStarted(t.rows[call.dept])
  {
    var base := AdmittedCall(s, call);
    assert call.dept in base.rows && RowStarted(base.rows[call.dept]);
  }

  lemma {:induction false} StartedStays(s: State, steps: seq<Step>, d: Dept)
    requires Loose(s) && ValidRun(steps) && d in s.rows && RowStarted(s.rows[d])
    ensures Loose(Run(s, steps)) && d in Run(s, steps).rows && RowStarted(Run(s, steps).rows[d])
    decreases |steps|
  {
    if steps != [] {
      StepEffect(s, steps[0]);
      if Answers(s, steps[0], d) { AnsweredRowIsStarted(s, steps[0].section); }
      StartedStays(Take(s, steps[0]), steps[1..], d);
    }
  }

  /** A department that was ever started stays closed or paused, through every run of tasks and calls. */
  lemma AlwaysPausedOrClosed(s: State, steps: seq<Step>, d: Dept)
    requires Loose(s) && ValidRun(steps) && d in s.rows && RowStarted(s.rows[d])
    ensures d in Run(s, steps).rows && PausedOrClosed(Run(s, steps), d)
  {
    StartedStays(s, steps, d);
    var t := Run(s, steps);
    assert RowAgreesWithThread(t.rows[d], d, t.threads);
  }

  // ---------- a rejected ticket stays rejected ----------

  ghost predicate CeoSaidNo(s: State) {
    Approving(s) && SharedArbitration(s).ceoDecision == Some(CeoRejected)
  }

  /** No record names a pause of the CEO thread. */
  ghost predicate NoGate(s: State) {
    forall d :: d in s.rows && s.rows[d].eval.arbitration.Some? ==>
      s.rows[d].eval.arbitration.value.ceoInterruptId == None
  }

  /** Nothing is left that could be answered: every row is closed, and the CEO's thread has ended or is not named. */
  ghost predicate Parked(s: State) {
    && Loose(s) && s.status == WaitingForApproval && s.document == None && EveryRowTerminal(s)
    && (s.ceoThread.CeoEnded? || NoGate(s))
  }

  lemma {:induction false} NoGateIsRead(order: seq<Dept>, s: State)
    requires NoGate(s)
    ensures FirstArbitration(order, s.rows).ceoInterruptId == None
  {
    if order != [] {
      NoGateIsRead(order[1..], s);
    }
  }

  lemma ParkedStep(s: State, step: Step)
    requires Parked(s) && ValidStep(step)
    ensures
      var t := Take(s, step);
      Parked(t) && t == s.(metadata := t.metadata) && !Accepted(s, step)
  {
    StepEffect(s, step);
    match step
    case CallSection(call) =>
      RefusedExactly(s, call);
      assert call.dept in s.rows ==> RowIsTerminal(s.rows[call.dept]);
    case CallCeo(call) =>
      if NoGate(s) { NoGateIsRead(call.order, s); }
      CeoRefused(s, call);
    case _ => TasksOnlyWriteMetadata(s, step);
  }

  lemma {:induction false} ParkedStaysParked(s: State, steps: seq<Step>)
    requires Parked(s) && ValidRun(steps)
    ensures
      var t := Run(s, steps);
      Parked(t) && t == s.(metadata := t.metadata) && AcceptedCount(s, steps) == 0
    decreases |steps|
  {
    if steps != [] {
      ParkedStep(s, steps[0]);
      ParkedStaysParked(Take(s, steps[0]), steps[1..]);
    }
  }

  lemma RejectedStaysRejected(s: State, steps: seq<Step>)
    requires CeoSaidNo(s) && ValidRun(steps)
    ensures
      var t := Run(s, steps);
      && t == s.(metadata := t.metadata)
      && t.status == WaitingForApproval && t.document == None
      && AcceptedCount(s, steps) == 0
  {
    ApprovingIsLoose(s);
    ParkedStaysParked(s, steps);
  }

  // ---------- a department that was not started, or has no row, blocks the ticket ----------

  /** A needed department that no call can close: it has no row, or its thread was never started. */
  ghost predicate Blocked(s: State, d: Dept) {
    && s.status == WaitingForApproval && s.metadata.Some? && d in s.metadata.value.needed
    && (d in s.rows ==> !RowStarted(s.rows[d]))
    && NoGate(s)
  }

  /** Every redelivered intake still asks for the department. */
  predicate KeepsNeeding(steps: seq<Step>, d: Dept) {
    forall step :: step in steps && step.DeliverIntake? && step.outage > 0 && step.intake.IntakeValid? ==>
      d in step.intake.metadata.needed
  }

  lemma BlockedSection(s: State, call: SectionCall, d: Dept)
    requires Loose(s) && Blocked(s, d)
    ensures Blocked(DecideSection(s, call).0, d)
  {
    RefusedExactly(s, call);
    if Admits(s, call) {
      DecideUnfolds(s, call);
      if Resumed(s, call).threads[call.dept].Paused? {
        assert Blocked(Reworked(s, call), d);
      } else {
        var closed := Closed(s, call);
        assert d in closed.rows ==> !RowIsTerminal(closed.rows[d]);
        FinalizationWaits(closed, call.order, call.reread, call.now);
        assert Blocked(closed, d);
      }
    }
  }

  lemma BlockedStep(s: State, step: Step, d: Dept)
    requires Loose(s) && Blocked(s, d) && ValidStep(step) && KeepsNeeding([step], d)
    ensures Blocked(Take(s, step), d)
  {
    match step
    case CallSection(call) => BlockedSection(s, call, d);
    case CallCeo(call) =>
      NoGateIsRead(call.order, s);
      CeoRefused(s, call);
    case _ =>
      assert step in [step];
      TasksOnlyWriteMetadata(s, step);
  }

  /** Such a ticket is never finished, unless a redelivered intake stops asking for the department. */
  lemma {:induction false} BlockedIsNeverDone(s: State, steps: seq<Step>, d: Dept)
    requires Loose(s) && Blocked(s, d) && ValidRun(steps) && KeepsNeeding(steps, d)
    ensures Blocked(Run(s, steps), d) && Run(s, steps).status != Done
    decreases |steps|
  {
    if steps != [] {
      StepEffect(s, steps[0]);
      BlockedStep(s, steps[0], d);
      BlockedIsNeverDone(Take(s, steps[0]), steps[1..], d);
    }
  }

  // ---------- the bound on accepted decisions ----------

  /** One opening of the CEO gate for each department still to be closed, and one if it is open. */
  function GateLeft(s: State, d: Dept): nat {
    if d in s.rows && s.rows[d].status == StatusPending then 1 else 0
  }

  function PerDept(s: State, d: Dept): nat {
    AnswersLeft(s, d) + GateLeft(s, d)
  }

  function CeoWaits(s: State): nat {
    if s.ceoThread.CeoPaused? then 1 else 0
  }

  function AnyLeft(s: State): nat {
    PerDept(s, Marketing) + PerDept(s, Operaciones) + PerDept(s, Procurement) + PerDept(s, Training) + CeoWaits(s)
  }

  lemma KeptCountsAlike(s: State, t: State, d: Dept)
    requires t.rows.Keys == s.rows.Keys && (d in s.rows ==> RowKept(s, t, d))
    ensures PerDept(t, d) == PerDept(s, d)
  {
  }

  /** An accepted answer takes at least one, and a second when it closes the row. */
  lemma AnswerTakes(s: State, call: SectionCall)
    requires Loose(s) && Admits(s, call)
    ensures
      var t := DecideSection(s, call).0;
      PerDept(t, call.dept) + CeoWaits(t) < PerDept(s, call.dept) + CeoWaits(s)
  {
    var base := AdmittedCall(s, call);
    var t, d := DecideSection(s, call).0, call.dept;
    assert d in base.rows;
    assert OnlyRecord(base.rows[d], t.rows[d]);
    assert RowAgreesWithThread(s.rows[d], d, s.threads);
  }

  lemma CeoAnswerTakes(s: State, call: CeoCall)
    ensures
      var t := DecideCeo(s, call).0;
      CeoWaits(t) + (if DecideCeo(s, call).1.Refused? then 0 else 1) <= CeoWaits(s)
  {
    if AdmitsCeo(s, call) {
      if call.action == Known(Reject) { CeoRejects(s, call); } else { CeoApproves(s, call); }
    } else {
      CeoRefused(s, call);
    }
  }

  lemma SumDrops(s: State, t: State, d: Dept)
    requires forall e: Dept :: e != d ==> PerDept(t, e) == PerDept(s, e)
    requires PerDept(t, d) + CeoWaits(t) < PerDept(s, d) + CeoWaits(s)
    ensures AnyLeft(t) < AnyLeft(s)
  {
    match d case Marketing => case Operaciones => case Procurement => case Training =>
  }

  lemma UnansweredCountsAlike(s: State, t: State, step: Step)
    requires Kept(s, t, step)
    ensures forall e: Dept :: !Answers(s, step, e) ==> PerDept(t, e) == PerDept(s, e)
  {
    forall e: Dept | !Answers(s, step, e)
      ensures PerDept(t, e) == PerDept(s, e)
    {
      KeptCountsAlike(s, t, e);
    }
  }

  lemma AllCountAlike(s: State, t: State)
    requires forall e: Dept :: PerDept(t, e) == PerDept(s, e)
    ensures AnyLeft(t) - CeoWaits(t) == AnyLeft(s) - CeoWaits(s)
  {
  }

  lemma SectionTakes(s: State, call: SectionCall)
    requires Loose(s)
    ensures AnyLeft(DecideSection(s, call).0) + (if DecideSection(s, call).1.Refused? then 0 else 1) <= AnyLeft(s)
  {
    RefusedExactly(s, call);
    if Admits(s, call) {
      StepEffect(s, CallSection(call));
      UnansweredCountsAlike(s, DecideSection(s, call).0, CallSection(call));
      AnswerTakes(s, call);
      SumDrops(s, DecideSection(s, call).0, call.dept);
    }
  }

  lemma StepTakes(s: State, step: Step)
    requires Loose(s) && ValidStep(step)
    ensures AnyLeft(Take(s, step)) + (if Accepted(s, step) then 1 else 0) <= AnyLeft(s)
  {
    if step.CallSection? {
      SectionTakes(s, step.section);
    } else {
      StepEffect(s, step);
      UnansweredCountsAlike(s, Take(s, step), step);
      AllCountAlike(s, Take(s, step));
      if step.CallCeo? { CeoAnswerTakes(s, step.ceo); } else { TasksOnlyWriteMetadata(s, step); }
    }
  }

  lemma AnyLeftBound(s: State)
    ensures AnyLeft(s) <= (ITERATION_LIMIT + 2) * |s.rows.Keys| + 1
  {
    DeptsCounted(s.rows.Keys);
  }

  /**
   Over any run, with any redeliveries, at most 5n + 1 decisions are accepted, for n departments with a
   row: four answers each, one opening of the CEO gate for each closed row, and the gate that may be open.
   */
  lemma {:induction false} AcceptedInAnyRun(s: State, steps: seq<Step>)
    requires Loose(s) && ValidRun(steps)
    ensures AcceptedCount(s, steps) + AnyLeft(Run(s, steps)) <= AnyLeft(s)
    ensures AcceptedCount(s, steps) <= 5 * |s.rows.Keys| + 1
    decreases |steps|
  {
    AnyLeftBound(s);
    if steps != [] {
      StepEffect(s, steps[0]);
      StepTakes(s, steps[0]);
      AcceptedInAnyRun(Take(s, steps[0]), steps[1..]);
    }
  }
}
