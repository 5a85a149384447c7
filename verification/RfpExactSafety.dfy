/** Which redelivered intakes, and which starts, can lead to a finished ticket that is not sound: exactly. */
module RfpExactSafety {
  import opened Options
  import opened RfpLifecycle
  import opened RfpArbitration
  import opened RfpThread
  import opened RfpProtocol
  import opened RfpInvariant
  import opened RfpTaskProofs
  import opened RfpDecisionProofs
  import opened RfpTheorems
  import opened RfpProgress
  import opened RfpRedelivery
  import opened RfpOutcomes
  import opened RfpSoundness
  import opened RfpPreparation

  // ---------- every reachable state ----------

  lemma StartingIsLoose(before: State, s: State, run: StartRun, m: Metadata, arb: Arbitration)
    requires Starting(before, s, run, m, arb)
    ensures Loose(s)
  {
  }

  lemma StepStaysConsistent(s: State, step: Step, t: State)
    requires (Preparing(s) || Loose(s)) && ValidStep(step) && t == Take(s, step)
    ensures Preparing(t) || Loose(t)
  {
    if Loose(s) {
      StepEffect(s, step);
    } else if step.DeliverIntake? {
      IntakeKeepsPreparing(s, step.intake, step.outage, t);
    } else if step.DeliverResponse? {
      ResponseKeepsPreparing(s, step.response, t);
    } else if step.DeliverApproval? && s.status == UnderEvaluation {
      var m := s.metadata.value;
      StartLeads(s, step.start, m, t);
      if Starting(s, t, step.start, m, StartArbitration(s, m, step.start)) {
        StartingIsLoose(s, t, step.start, m, StartArbitration(s, m, step.start));
      }
    }
  }

  lemma {:induction false} RunStaysConsistent(s: State, steps: seq<Step>)
    requires (Preparing(s) || Loose(s)) && ValidRun(steps)
    ensures Preparing(Run(s, steps)) || Loose(Run(s, steps))
    decreases |steps|
  {
    if steps != [] {
      StepStaysConsistent(s, steps[0], Take(s, steps[0]));
      RunStaysConsistent(Take(s, steps[0]), steps[1..]);
    }
  }

  /**
   After any run of tasks, outages, redeliveries and decisions, whatever departments the intakes ask for:
   before approval nothing is decided, paused or asked of the CEO; from then on every row agrees with its thread.
   */
  lemma EveryRunStaysConsistent(steps: seq<Step>)
    requires ValidRun(steps)
    ensures
      var s := Run(NEW_TICKET, steps);
      if InApproval(s) then Loose(s) else Preparing(s)
  {
    RunStaysConsistent(NEW_TICKET, steps);
  }

  // ---------- going wrong ----------

  predicate NoIntake(steps: seq<Step>) {
    forall step :: step in steps && step.DeliverIntake? ==> !step.intake.IntakeValid?
  }

  ghost predicate EndsUnsound(s: State) {
    s.status == Done && !SoundlyDone(s)
  }

  /** Some further deliveries and calls, without another valid intake, finish the ticket unsoundly. */
  ghost predicate GoesWrong(s: State) {
    exists steps :: NoIntake(steps) && EndsUnsound(Run(s, steps))
  }

  lemma {:induction false} SoundStaysSound(s: State, steps: seq<Step>)
    requires SoundApproval(s) && NoIntake(steps)
    ensures SoundApproval(Run(s, steps))
    decreases |steps|
  {
    if steps != [] {
      ApprovalStepKeepsSound(s, steps[0], Take(s, steps[0]));
      SoundStaysSound(Take(s, steps[0]), steps[1..]);
    }
  }

  lemma SoundNeverGoesWrong(s: State)
    requires SoundApproval(s)
    ensures !GoesWrong(s)
  {
    forall steps | NoIntake(steps)
      ensures !EndsUnsound(Run(s, steps))
    {
      SoundStaysSound(s, steps);
    }
  }

  // ---------- a redelivered intake during approval ----------

  lemma ApprovingIsSound(s: State)
    requires Approving(s)
    ensures SoundApproval(s)
  {
    var needed := s.metadata.value.needed;
    ApprovingIsLoose(s);
    AllTerminalIsEveryRow(s);
    assert forall d :: d in s.rows ==> s.rows[d].eval.arbitration == Some(SharedArbitration(s));
    assert forall d :: d in needed ==> d in NeededSet(s.metadata.value);
  }

  lemma FewerIsSafe(s: State, m: Metadata)
    requires Approving(s) && NeededSet(m) <= NeededSet(s.metadata.value)
    ensures SafeIntake(s, m)
  {
    assert forall d :: d in m.needed ==> d in NeededSet(m);
    assert forall d :: d in s.rows ==> s.rows[d].eval.arbitration == Some(SharedArbitration(s));
  }

  /** Dropping departments, in any status of an approval, cannot make it go wrong. */
  lemma DroppingStaysSound(s: State, m: Metadata, steps: seq<Step>)
    requires Approving(s) && Marketing in m.needed && NeededSet(m) <= NeededSet(s.metadata.value) && NoIntake(steps)
    ensures SoundApproval(Run(s.(metadata := Some(m)), steps))
  {
    ApprovingIsSound(s);
    FewerIsSafe(s, m);
    MetadataKeepsSound(s, m, s.(metadata := Some(m)));
    SoundStaysSound(s.(metadata := Some(m)), steps);
  }

  lemma AddedBlocks(s: State, m: Metadata, d: Dept, t: State)
    requires Approving(s) && s.status == WaitingForApproval && !GateOpen(s)
    requires Marketing in m.needed && d in m.needed && d !in s.rows && t == s.(metadata := Some(m))
    ensures Loose(t) && Blocked(t, d)
  {
    ApprovingIsLoose(s);
    assert forall e :: e in s.rows ==> s.rows[e].eval.arbitration == Some(SharedArbitration(s));
  }

  /** Adding a department while the gate is closed: the ticket is never done, as long as it is asked for. */
  lemma AddedDepartmentBlocks(s: State, m: Metadata, d: Dept, steps: seq<Step>)
    requires Approving(s) && s.status == WaitingForApproval && !GateOpen(s)
    requires Marketing in m.needed && d in m.needed && d !in s.rows
    requires ValidRun(steps) && KeepsNeeding(steps, d)
    ensures Run(s.(metadata := Some(m)), steps).status != Done
  {
    var t := s.(metadata := Some(m));
    AddedBlocks(s, m, d, t);
    BlockedIsNeverDone(t, steps, d);
  }

  lemma OpenGateAdmitsCeo(s: State, m: Metadata, t: State, call: CeoCall)
    requires Approving(s) && GateOpen(s) && t == s.(metadata := Some(m)) && CeoAnswer(call.action)
    ensures AdmitsCeo(t, call)
  {
    ReadsAgree(s, call.order, call.order);
  }

  /** Any order of rows is possible: here the one that begins with `d`. */
  function StartingWith(d: Dept): RowOrder {
    match d
    case Marketing => [Marketing, Operaciones, Procurement, Training]
    case Operaciones => [Operaciones, Marketing, Procurement, Training]
    case Procurement => [Procurement, Marketing, Operaciones, Training]
    case Training => [Training, Marketing, Operaciones, Procurement]
  }

  lemma FirstIsRead(order: RowOrder, rows: map<Dept, Row>)
    requires order[0] in rows && Recorded(rows[order[0]])
    ensures Some(FirstArbitration(order, rows)) == rows[order[0]].eval.arbitration
  {
  }

  lemma ApprovalIsReadBack(t: State, needed: seq<Dept>, order: RowOrder, now: Time, recorded: State)
    requires order[0] in needed && order[0] in t.rows && t.metadata.Some? && t.metadata.value.needed == needed
    requires recorded == CeoRecorded(t, CeoApproved, now)
    ensures FirstArbitration(order, recorded.rows).ceoDecision == Some(CeoApproved)
    ensures recorded.rows.Keys == t.rows.Keys && recorded.metadata == t.metadata && recorded.status == t.status
  {
    PatchWritesRecords(t, CeoEnded(CeoApproved), t.nextId, needed, RecordApproval(now));
    FirstIsRead(order, recorded.rows);
  }

  lemma MissingRowIsUnsound(recorded: State, order: RowOrder, now: Time, d: Dept, t: State)
    requires recorded.status == WaitingForApproval && recorded.metadata.Some?
    requires FirstArbitration(order, recorded.rows).ceoDecision == Some(CeoApproved)
    requires d in recorded.metadata.value.needed && d !in recorded.rows
    requires t == SynthesizeAndComplete(recorded, order, now).0
    ensures EndsUnsound(t)
  {
    SynthesisCompletes(recorded, order, now);
    assert d !in t.rows && t.metadata == recorded.metadata;
  }

  /** The CEO's approval finishes the ticket without looking at the departments again. */
  lemma ApprovalSkipsMissing(t: State, call: CeoCall, d: Dept)
    requires AdmitsCeo(t, call) && call.action == Known(Approve)
    requires call.reread[0] in t.metadata.value.needed && call.reread[0] in t.rows
    requires d in t.metadata.value.needed && d !in t.rows
    ensures EndsUnsound(DecideCeo(t, call).0)
  {
    var recorded := CeoRecorded(t, CeoApproved, call.now);
    CeoApproves(t, call);
    ApprovalIsReadBack(t, t.metadata.value.needed, call.reread, call.now, recorded);
    MissingRowIsUnsound(recorded, call.reread, call.now, d, DecideCeo(t, call).0);
  }

  lemma ApprovalSkipsAdded(s: State, m: Metadata, d: Dept, t: State, call: CeoCall)
    requires Approving(s) && GateOpen(s) && t == s.(metadata := Some(m))
    requires Marketing in m.needed && d in m.needed && d !in s.rows
    requires call.action == Known(Approve) && call.reread[0] == Marketing
    ensures EndsUnsound(DecideCeo(t, call).0)
  {
    OpenGateAdmitsCeo(s, m, t, call);
    ApprovingIsLoose(s);
    ApprovalSkipsMissing(t, call, d);
  }

  lemma OneStepGoesWrong(s: State, step: Step)
    requires !step.DeliverIntake? && EndsUnsound(Take(s, step))
    ensures GoesWrong(s)
  {
    assert [step][1..] == [];
    assert Run(s, [step]) == Run(Take(s, step), []);
    assert NoIntake([step]) && EndsUnsound(Run(s, [step]));
  }

  lemma UnsoundGoesWrong(s: State, d: Dept)
    requires s.status == Done && s.metadata.Some? && d in s.metadata.value.needed && d !in s.rows
    ensures GoesWrong(s)
  {
    assert NoIntake([]) && EndsUnsound(Run(s, []));
  }

  lemma AddedAtOpenGate(s: State, m: Metadata, d: Dept, t: State, call: CeoCall)
    requires Approving(s) && GateOpen(s) && t == s.(metadata := Some(m))
    requires Marketing in m.needed && d in m.needed && d !in s.rows
    requires call.action == Known(Approve) && call.reread[0] == Marketing
    ensures GoesWrong(t)
  {
    ApprovalSkipsAdded(s, m, d, t, call);
    OneStepGoesWrong(t, CallCeo(call));
  }

  lemma AddedGoesWrong(s: State, m: Metadata, d: Dept, t: State)
    requires Approving(s) && (s.status == Done || GateOpen(s)) && t == s.(metadata := Some(m))
    requires Marketing in m.needed && d in m.needed && d !in s.rows
    ensures GoesWrong(t)
  {
    if s.status == Done {
      UnsoundGoesWrong(t, d);
    } else {
      AddedAtOpenGate(s, m, d, t, CeoCall(Known(Approve), 0, StartingWith(Marketing), StartingWith(Marketing)));
    }
  }

  lemma RedeliveryReplacesMetadata(s: State, m: Metadata, outage: nat)
    requires Approving(s) && Marketing in m.needed && outage > 0
    ensures ProcessIntake(s, IntakeValid(m), outage) == s.(metadata := Some(m))
  {
    IntakeUnfolded(s, IntakeValid(m), outage);
    MarketingIsSelected(m);
    ApprovingIsLoose(s);
  }

  lemma BlockedNeverGoesWrong(s: State, d: Dept)
    requires Loose(s) && Blocked(s, d)
    ensures !GoesWrong(s)
  {
    forall steps | NoIntake(steps)
      ensures !EndsUnsound(Run(s, steps))
    {
      BlockedIsNeverDone(s, steps, d);
    }
  }

  /**
   A valid intake redelivered during approval: the ticket can then be finished unsoundly if and only if the
   intake adds a department, and the ticket is done or its CEO gate is open.
   */
  lemma RedeliveryIsUnsafeExactly(s: State, m: Metadata, outage: nat)
    requires Approving(s) && Marketing in m.needed && outage > 0
    ensures GoesWrong(ProcessIntake(s, IntakeValid(m), outage)) <==>
              !(NeededSet(m) <= NeededSet(s.metadata.value)) && (s.status == Done || GateOpen(s))
  {
    var t := s.(metadata := Some(m));
    RedeliveryReplacesMetadata(s, m, outage);
    if NeededSet(m) <= NeededSet(s.metadata.value) {
      DroppingStaysSound(s, m, []);
      SoundNeverGoesWrong(t);
    } else {
      var d :| d in NeededSet(m) && d !in NeededSet(s.metadata.value);
      if s.status == Done || GateOpen(s) {
        AddedGoesWrong(s, m, d, t);
      } else {
        AddedBlocks(s, m, d, t);
        BlockedNeverGoesWrong(t, d);
      }
    }
  }

  // ---------- a start next to the record of an earlier one ----------

  /** Started departments are answered while the record of `d`, no longer needed, drops the CEO requirement. */
  ghost predicate Stale(s: State, d: Dept) {
    && Loose(s) && s.status == WaitingForApproval && AllUntouched(s.rows)
    && Recorded(s.rows[Marketing]) && Requires(s.rows[Marketing])
    && d in s.rows && d !in s.metadata.value.needed && Recorded(s.rows[d]) && !Requires(s.rows[d])
    && forall e :: e in s.metadata.value.needed ==> e in s.rows && RowStarted(s.rows[e])
  }

  function StaleApproval(e: Dept, d: Dept): SectionCall {
    SectionCall(e, Known(Approve), None, Failed, 0, StartingWith(d), StartingWith(d))
  }

  lemma OpenIsAdmitted(s: State, e: Dept, d: Dept)
    requires Stale(s, d) && e in s.metadata.value.needed && s.rows[e].status == StatusPending
    ensures Admits(s, StaleApproval(e, d)) && Resumed(s, StaleApproval(e, d)).threads[e].Ended?
  {
    assert RowAgreesWithThread(s.rows[e], e, s.threads);
  }

  lemma ClosedRowIs(s: State, call: SectionCall, closed: State, x: Dept)
    requires Admits(s, call) && Resumed(s, call).threads[call.dept].Ended? && closed == Closed(s, call) && x in s.rows
    ensures x in closed.rows && closed.rows[x].eval.arbitration == s.rows[x].eval.arbitration
    ensures RowStarted(s.rows[x]) ==> RowStarted(closed.rows[x])
  {
  }

  lemma ClosedStaysStale(s: State, call: SectionCall, d: Dept, closed: State)
    requires Stale(s, d) && Admits(s, call) && Resumed(s, call).threads[call.dept].Ended?
    requires closed == Closed(s, call)
    ensures Stale(closed, d)
  {
    AnsweredStaysLoose(s, closed, closed, call);
    assert closed.rows.Keys == s.rows.Keys && closed.metadata == s.metadata && closed.status == s.status;
    SameRecordsStayStale(s, call, d, closed);
  }

  lemma SameRecordsStayStale(s: State, call: SectionCall, d: Dept, closed: State)
    requires Stale(s, d) && Admits(s, call) && Resumed(s, call).threads[call.dept].Ended?
    requires closed == Closed(s, call) && Loose(closed)
    requires closed.rows.Keys == s.rows.Keys && closed.metadata == s.metadata && closed.status == s.status
    ensures Stale(closed, d)
  {
    forall x | x in s.rows
      ensures closed.rows[x].eval.arbitration == s.rows[x].eval.arbitration && Untouched(closed.rows[x])
      ensures RowStarted(s.rows[x]) ==> RowStarted(closed.rows[x])
    {
      ClosedRowIs(s, call, closed, x);
      assert Untouched(s.rows[x]);
    }
  }

  /** The last answer: the stale record is read, and the ticket is finished without the CEO. */
  lemma StaleFinishes(s: State, d: Dept, call: SectionCall, t: State)
    requires Stale(s, d) && Finalizes(s) && call.order[0] == d && call.reread[0] == d
    requires t == MaybeFinalize(s, call.order, call.reread, call.now).0
    ensures EndsUnsound(t)
  {
    FirstIsRead(call.order, s.rows);
    FirstIsRead(call.reread, s.rows);
    assert Untouched(s.rows[d]) && Untouched(s.rows[Marketing]);
    FinalizationSynthesizes(s, call.order, call.reread, call.now);
    SynthesisCompletes(s, call.reread, call.now);
    assert t.rows[Marketing] == s.rows[Marketing];
  }

  lemma StaleEnds(closed: State, d: Dept, call: SectionCall, t: State)
    requires Stale(closed, d) && call.order[0] == d && call.reread[0] == d
    requires t == MaybeFinalize(closed, call.order, call.reread, call.now).0
    ensures EndsUnsound(t) || (Stale(t, d) && !Finalizes(t))
  {
    if Finalizes(closed) {
      StaleFinishes(closed, d, call, t);
    } else {
      FinalizationWaits(closed, call.order, call.reread, call.now);
    }
  }

  lemma StaleAnswer(s: State, call: SectionCall, d: Dept, t: State)
    requires Stale(s, d) && Admits(s, call) && Resumed(s, call).threads[call.dept].Ended?
    requires call.order[0] == d && call.reread[0] == d && t == DecideSection(s, call).0
    ensures AnyLeft(t) < AnyLeft(s) && (EndsUnsound(t) || (Stale(t, d) && !Finalizes(t)))
  {
    ClosedStaysStale(s, call, d, Closed(s, call));
    AnswerIsCounted(s, call);
    ClosingFinalizes(s, call, t);
    StaleEnds(Closed(s, call), d, call, t);
  }

  lemma ClosingFinalizes(s: State, call: SectionCall, t: State)
    requires Admits(s, call) && Resumed(s, call).threads[call.dept].Ended? && t == DecideSection(s, call).0
    ensures t == MaybeFinalize(Closed(s, call), call.order, call.reread, call.now).0
  {
    DecideUnfolds(s, call);
  }

  lemma AnswerIsCounted(s: State, call: SectionCall)
    requires Loose(s) && Admits(s, call)
    ensures AnyLeft(DecideSection(s, call).0) < AnyLeft(s)
  {
    StepEffect(s, CallSection(call));
    UnansweredCountsAlike(s, DecideSection(s, call).0, CallSection(call));
    AnswerTakes(s, call);
    SumDrops(s, DecideSection(s, call).0, call.dept);
  }

  lemma OpenDepartmentLeft(s: State, d: Dept) returns (e: Dept)
    requires Stale(s, d) && !Finalizes(s)
    ensures e in s.metadata.value.needed && e in s.rows && s.rows[e].status == StatusPending
  {
    e :| e in s.metadata.value.needed && !(e in s.rows && RowIsTerminal(s.rows[e]));
    assert RowAgreesWithThread(s.rows[e], e, s.threads);
  }

  lemma {:induction false} StaleGoesWrong(s: State, d: Dept) returns (steps: seq<Step>)
    requires Stale(s, d) && !Finalizes(s)
    ensures NoIntake(steps) && EndsUnsound(Run(s, steps))
    decreases AnyLeft(s)
  {
    var e := OpenDepartmentLeft(s, d);
    var call := StaleApproval(e, d);
    var step := CallSection(call);
    var t := Take(s, step);
    OpenIsAdmitted(s, e, d);
    StaleAnswer(s, call, d, t);
    var rest: seq<Step> := [];
    if !EndsUnsound(t) {
      rest := StaleGoesWrong(t, d);
    }
    steps := [step] + rest;
    assert steps[1..] == rest;
  }

  lemma CompleteStartStarts(s: State, run: StartRun, m: Metadata, t: State)
    requires Preparing(s) && s.status == UnderEvaluation && s.metadata == Some(m) && t == ProcessApproval(s, run)
    requires (forall d :: d in m.needed ==> d in s.rows) && run.outage > |PreFlip(s, m, run)| + |m.needed|
    ensures Starting(s, t, run, m, StartArbitration(s, m, run)) && PausedRows(t, m.needed)
  {
    var pre := UpToFlip(s, m, run);
    forall c | c in PreFlip(s, m, run)
      ensures Quiet(c) && c.dept in s.rows
    {
      PreFlipIsClean(s, m, run, c);
    }
    QuietCommits(s, PreFlip(s, m, run), run.outage);
    StartedLeads(s, run, m, pre, WholeStart(s, m, run), t);
  }

  lemma UnsafeStartIsStale(s: State, run: StartRun, m: Metadata, arb: Arbitration, d: Dept, t: State)
    requires Starting(s, t, run, m, arb) && PausedRows(t, m.needed) && arb.ceoRequired
    requires d in s.rows && d in t.rows && d !in m.needed && Recorded(s.rows[d]) && !Requires(s.rows[d])
    ensures Stale(t, d) && !Finalizes(t)
  {
    forall e | e in t.rows
      ensures Untouched(t.rows[e]) && t.rows[e].status == StatusPending
    {
      assert Startable(s, t, run, m, arb, e);
    }
    assert Startable(s, t, run, m, arb, d) && Stamped(t, run, arb, Marketing) by {
      assert Startable(s, t, run, m, arb, Marketing);
    }
    assert !RowIsTerminal(t.rows[Marketing]);
  }

  /**
   A complete start can go wrong if and only if an earlier, crashed start left a record without the CEO
   requirement in a department that is no longer needed, and this start requires the CEO.
   */
  lemma StartIsUnsafeExactly(s: State, run: StartRun)
    requires Preparing(s) && s.status == UnderEvaluation
    requires forall d :: d in s.metadata.value.needed ==> d in s.rows
    requires run.outage > |PreFlip(s, s.metadata.value, run)| + |s.metadata.value.needed|
    ensures GoesWrong(ProcessApproval(s, run)) <==>
              StartArbitration(s, s.metadata.value, run).ceoRequired
              && exists d :: d in s.rows && d !in s.metadata.value.needed && Recorded(s.rows[d]) && !Requires(s.rows[d])
  {
    var m := s.metadata.value;
    var t := ProcessApproval(s, run);
    CompleteStartStarts(s, run, m, t);
    if SafeStart(s, run) {
      StartingIsSound(s, t, run, m, StartArbitration(s, m, run));
      SoundNeverGoesWrong(t);
    } else {
      var d :| d in s.rows && d !in m.needed && Recorded(s.rows[d]) && !Requires(s.rows[d]);
      StartedRowsAreThere(s, run, m, d, t);
      UnsafeStartIsStale(s, run, m, StartArbitration(s, m, run), d, t);
      var steps := StaleGoesWrong(t, d);
    }
  }

  lemma StartedRowsAreThere(s: State, run: StartRun, m: Metadata, d: Dept, t: State)
    requires Preparing(s) && s.status == UnderEvaluation && s.metadata == Some(m) && t == ProcessApproval(s, run)
    requires d in s.rows
    ensures d in t.rows
  {
    ApprovalKeepsKeys(s, StartCommits(s, m, run), run.outage);
  }

  lemma ApprovalKeepsKeys(s: State, commits: seq<Commit>, outage: nat)
    ensures s.rows.Keys <= Execute(s, commits, outage).state.rows.Keys
  {
    var P := (i: int, t: State) => s.rows.Keys <= t.rows.Keys;
    assert commits[0..] == commits;
    ExecuteInduction(P, s, commits, 0, outage);
  }

  // ---------- both happen from the upload on ----------

  lemma {:induction false} RunJoins(s: State, a: seq<Step>, b: seq<Step>)
    ensures Run(s, a + b) == Run(Run(s, a), b)
    decreases |a|
  {
    if a == [] {
      assert a + b == b;
    } else {
      RunJoins(Take(s, a[0]), a[1..], b);
      assert (a + b)[1..] == a[1..] + b;
    }
  }

  lemma OneMore(s: State, steps: seq<Step>, step: Step)
    ensures Run(s, steps + [step]) == Take(Run(s, steps), step)
    ensures ValidRun(steps) && ValidStep(step) ==> ValidRun(steps + [step])
  {
    RunJoins(s, steps, [step]);
    assert [step][1..] == [];
    assert Run(Run(s, steps), [step]) == Run(Take(Run(s, steps), step), []);
  }

  lemma AddingToDone(s: State, m: Metadata, d: Dept)
    requires Inv(s) && s.status == Done && Marketing in m.needed && d in m.needed && d !in NeededSet(s.metadata.value)
    ensures EndsUnsound(ProcessIntake(s, IntakeValid(m), 1))
  {
    assert d in NeededSet(m);
    RedeliveredIntakeOnDone(s, m, 1);
  }

  /** A ticket is finished, and its intake is then redelivered with one more department. */
  lemma UnsoundByRedelivery() returns (steps: seq<Step>)
    ensures ValidRun(steps) && EndsUnsound(Run(NEW_TICKET, steps))
  {
    var first := EveryValidTicketCanFinish(Metadata([Marketing], None));
    var again := DeliverIntake(IntakeValid(Metadata([Marketing, Training], None)), 1);
    HarmlessRunIsValid(NEW_TICKET, first);
    RunKeepsInv(NEW_TICKET, first);
    AddingToDone(Run(NEW_TICKET, first), again.intake.metadata, Training);
    OneMore(NEW_TICKET, first, again);
    steps := first + [again];
  }

  const WITH_TRAINING := Metadata([Marketing, Training], None)
  const LARGE_BUDGET := Metadata([Marketing], Some(60000.0))

  /** A blank row for each needed department. */
  ghost predicate AllBlank(s: State, m: Metadata) {
    && Preparing(s) && s.metadata == Some(m) && s.rows.Keys == NeededSet(m)
    && forall d :: d in s.rows ==> s.rows[d] == BLANK_ROW
  }

  lemma FirstIntakeWrites(s: State, m: Metadata, outage: nat, t: State)
    requires s.status == Analyzing && s.rows == map[] && outage > 2 && t == ProcessIntake(s, IntakeValid(m), outage)
    ensures t.status == IntakeComplete && t.metadata == Some(m)
    ensures forall d :: d in t.rows <==> d in NeededInOrder(m)
  {
    IntakeUnfolded(s, IntakeValid(m), outage);
    assert forall d :: d in NeededInOrder(m) ==> d !in s.rows;
  }

  lemma FirstIntake(s: State, m: Metadata, outage: nat, t: State)
    requires s.status == Analyzing && s.rows == map[] && Marketing in m.needed && outage > 2
    requires t == ProcessIntake(s, IntakeValid(m), outage)
    ensures AllBlank(t, m) && t.status == IntakeComplete
  {
    FirstIntakeWrites(s, m, outage, t);
    IntakeRows(s, IntakeValid(m), outage, t);
    MarketingIsSelected(m);
    assert forall d :: d in t.rows <==> d in NeededSet(m);
  }

  lemma ToEvaluation() returns (steps: seq<Step>)
    ensures ValidRun(steps) && AllBlank(Run(NEW_TICKET, steps), WITH_TRAINING)
    ensures Run(NEW_TICKET, steps).status == UnderEvaluation
  {
    var intake := DeliverIntake(IntakeValid(WITH_TRAINING), 3);
    var response := DeliverResponse(ResponseRun(None, 1, {}, true));
    FirstIntake(NEW_TICKET, WITH_TRAINING, intake.outage, Take(NEW_TICKET, intake));
    OneMore(NEW_TICKET, [], intake);
    BlankResponse(Take(NEW_TICKET, intake), Take(Take(NEW_TICKET, intake), response));
    OneMore(NEW_TICKET, [] + [intake], response);
    steps := [] + [intake] + [response];
  }

  /** The response graph fails at once; the recovery moves on with the rows as they are. */
  lemma BlankResponse(s: State, t: State)
    requires Preparing(s) && s.status == IntakeComplete && t == ProcessResponse(s, ResponseRun(None, 1, {}, true))
    ensures Preparing(t) && t.status == UnderEvaluation && t.metadata == s.metadata && t.rows == s.rows
  {
    ResponseLandsAtEvaluation(s, ResponseRun(None, 1, {}, true));
    ResponseKeepsPreparing(s, ResponseRun(None, 1, {}, true), t);
    ResponseFrame(s, ResponseRun(None, 1, {}, true));
    AllowedIsNextStatus(s.status, Drafting);
    assert Recover(UpdateStatus(s, Drafting).value, s.metadata.value.needed, ResponseRun(None, 1, {}, true)).rows
           == s.rows;
  }

  /** A start that stops right before the flip. */
  function StoppedRun(m: Metadata): StartRun {
    StartRun(map[], ALL_DEPARTMENTS, |NeededInOrder(m)| + |m.needed|, {})
  }

  lemma BlankNeedsNoCeo(s: State, m: Metadata, run: StartRun)
    requires AllBlank(s, m) && !OverThreshold(m.budgetCeiling)
    ensures !StartArbitration(s, m, run).ceoRequired
  {
    assert !SomeSectionFlagged(StartFigures(s, m, run));
  }

  lemma FlagsKeepRecords(s: State, depts: seq<Dept>, flagged: set<Dept>, t: State)
    requires t == FlagRows(s, depts, flagged)
    ensures t.status == s.status && t.metadata == s.metadata && t.rows.Keys == s.rows.Keys
    ensures forall d :: d in s.rows ==> t.rows[d].eval.arbitration == s.rows[d].eval.arbitration
  {
  }

  /** It leaves its record in every needed row. */
  lemma StoppedStartStamps(s: State, m: Metadata, run: StartRun, arb: Arbitration, p: State, t: State)
    requires AllBlank(s, m) && s.status == UnderEvaluation && PreFlipped(s, p, m)
    requires forall d :: d in m.needed ==> Stamped(p, run, arb, d)
    requires t == FlagRows(p, m.needed, run.flagged)
    ensures Preparing(t) && t.status == UnderEvaluation && t.metadata == Some(m)
    ensures forall d :: d in m.needed ==> d in t.rows && t.rows[d].eval.arbitration == Some(arb)
  {
    FlagsKeepPreparing(s, p, m, run.flagged);
    FlagsKeepRecords(p, m.needed, run.flagged, t);
    forall d | d in m.needed
      ensures d in t.rows && t.rows[d].eval.arbitration == Some(arb)
    {
      assert Stamped(p, run, arb, d);
    }
  }

  lemma StoppedStart(s: State, m: Metadata, run: StartRun, t: State)
    requires AllBlank(s, m) && s.status == UnderEvaluation && !OverThreshold(m.budgetCeiling)
    requires run == StoppedRun(m) && t == ProcessApproval(s, run)
    ensures Preparing(t) && t.status == UnderEvaluation && t.metadata == Some(m)
    ensures forall d :: d in m.needed ==> d in t.rows && Recorded(t.rows[d]) && !Requires(t.rows[d])
  {
    forall c | c in PreFlip(s, m, run)
      ensures Quiet(c) && c.dept in s.rows
    {
      PreFlipIsClean(s, m, run, c);
      assert c.dept in NeededSet(m);
    }
    QuietCommits(s, PreFlip(s, m, run), run.outage);
    StartSplits(s, m, run);
    ProcessIsWhole(s, m, run);
    PreFlipLeaves(s, m, run, UpToFlip(s, m, run));
    StoppedStartStamps(s, m, run, StartArbitration(s, m, run), UpToFlip(s, m, run).state, t);
    BlankNeedsNoCeo(s, m, run);
  }

  lemma NewMetadata(s: State, m: Metadata, t: State)
    requires Preparing(s) && s.status == UnderEvaluation && Marketing in m.needed
    requires t == ProcessIntake(s, IntakeValid(m), 1)
    ensures Preparing(t) && t == s.(metadata := Some(m))
  {
    IntakeUnfolded(s, IntakeValid(m), 1);
    IntakeKeepsPreparing(s, IntakeValid(m), 1, t);
  }

  lemma SecondStart(s: State, m: Metadata, d: Dept)
    requires Preparing(s) && s.status == UnderEvaluation && s.metadata == Some(m) && OverThreshold(m.budgetCeiling)
    requires forall e :: e in m.needed ==> e in s.rows
    requires d in s.rows && d !in m.needed && Recorded(s.rows[d]) && !Requires(s.rows[d])
    ensures GoesWrong(ProcessApproval(s, UndisturbedRun(m)))
  {
    PreFlipLength(s, m);
    StartIsUnsafeExactly(s, UndisturbedRun(m));
  }

  /** The three deliveries in turn: a start that stops, an intake with other metadata, and a complete start. */
  lemma StoppedThenStarted(s: State, first: Metadata, second: Metadata, d: Dept, t: State, u: State)
    requires AllBlank(s, first) && s.status == UnderEvaluation && !OverThreshold(first.budgetCeiling)
    requires t == ProcessApproval(s, StoppedRun(first)) && u == ProcessIntake(t, IntakeValid(second), 1)
    requires Marketing in second.needed && OverThreshold(second.budgetCeiling)
    requires (forall e :: e in second.needed ==> e in first.needed) && d in first.needed && d !in second.needed
    ensures GoesWrong(ProcessApproval(u, UndisturbedRun(second)))
  {
    StoppedStart(s, first, StoppedRun(first), t);
    NewMetadata(t, second, u);
    SecondStart(u, second, d);
  }

  lemma ThreeMore(s: State, begun: seq<Step>, x: Step, y: Step, z: Step, rest: seq<Step>)
    requires ValidRun(begun) && ValidStep(x) && ValidStep(y) && ValidStep(z) && NoIntake(rest)
    ensures Run(s, begun + [x] + [y] + [z] + rest) == Run(Take(Take(Take(Run(s, begun), x), y), z), rest)
    ensures ValidRun(begun + [x] + [y] + [z] + rest)
  {
    OneMore(s, begun, x);
    OneMore(s, begun + [x], y);
    OneMore(s, begun + [x] + [y], z);
    RunJoins(s, begun + [x] + [y] + [z], rest);
  }

  lemma RestartGoesWrong(begun: seq<Step>, first: Metadata, second: Metadata, d: Dept) returns (steps: seq<Step>)
    requires ValidRun(begun) && AllBlank(Run(NEW_TICKET, begun), first)
    requires Run(NEW_TICKET, begun).status == UnderEvaluation && !OverThreshold(first.budgetCeiling)
    requires Marketing in second.needed && OverThreshold(second.budgetCeiling)
    requires (forall e :: e in second.needed ==> e in first.needed) && d in first.needed && d !in second.needed
    ensures ValidRun(steps) && EndsUnsound(Run(NEW_TICKET, steps))
  {
    var s := Run(NEW_TICKET, begun);
    var x, y := DeliverApproval(StoppedRun(first)), DeliverIntake(IntakeValid(second), 1);
    var z := DeliverApproval(UndisturbedRun(second));
    StoppedThenStarted(s, first, second, d, Take(s, x), Take(Take(s, x), y));
    var rest :| NoIntake(rest) && EndsUnsound(Run(Take(Take(Take(s, x), y), z), rest));
    ThreeMore(NEW_TICKET, begun, x, y, z, rest);
    steps := begun + [x] + [y] + [z] + rest;
  }

  /**
   A first start stops right before the flip, the intake is redelivered with one department less and a
   budget over the threshold, and a second start completes: the ticket can be finished without the CEO.
   */
  lemma UnsoundByStart() returns (steps: seq<Step>)
    ensures ValidRun(steps) && EndsUnsound(Run(NEW_TICKET, steps))
  {
    var begun := ToEvaluation();
    steps := RestartGoesWrong(begun, WITH_TRAINING, LARGE_BUDGET, Training);
  }
}
