/** Over any run the id of a pause names that pause for ever: no later pause of any department gets it again. */
module RfpPauses {
  import opened Options
  import opened RfpLifecycle
  import opened RfpArbitration
  import opened RfpThread
  import opened RfpProtocol
  import opened RfpInvariant
  import opened RfpTaskProofs
  import opened RfpRedelivery

  predicate PausedAs(s: State, d: Dept, id: nat) {
    d in s.threads && s.threads[d].Paused? && s.threads[d].interruptId == id
  }

  /** The ids of the live pauses were given out, each once. */
  ghost predicate IdsApart(s: State) {
    && (forall d, id: nat :: PausedAs(s, d, id) ==> id < s.nextId && s.ceoThread != CeoPaused(id))
    && (forall d, e, id: nat :: PausedAs(s, d, id) && PausedAs(s, e, id) ==> d == e)
    && (s.ceoThread.CeoPaused? ==> s.ceoThread.interruptId < s.nextId)
  }

  /** Every pause of `t` is one of `s`, untouched, or has an id that `s` had not yet given out. */
  ghost predicate Renews(s: State, t: State) {
    && s.nextId <= t.nextId
    && (forall d, id: nat :: PausedAs(t, d, id) ==> (d in s.threads && t.threads[d] == s.threads[d]) || id >= s.nextId)
    && (t.ceoThread.CeoPaused? ==> t.ceoThread == s.ceoThread || t.ceoThread.interruptId >= s.nextId)
  }

  lemma RenewsTwice(s: State, t: State, u: State)
    requires Renews(s, t) && Renews(t, u)
    ensures Renews(s, u)
  {
    forall d, id: nat | PausedAs(u, d, id)
      ensures (d in s.threads && u.threads[d] == s.threads[d]) || id >= s.nextId
    {
      if d in t.threads && u.threads[d] == t.threads[d] { assert PausedAs(t, d, id); }
    }
  }

  /** Threads and ids are as before. */
  predicate SamePauses(s: State, t: State) {
    t.threads == s.threads && t.ceoThread == s.ceoThread && t.nextId == s.nextId
  }

  lemma SamePausesStay(s: State, t: State)
    requires SamePauses(s, t) && IdsApart(s)
    ensures IdsApart(t) && Renews(s, t)
  {
    assert forall d, id: nat :: PausedAs(t, d, id) <==> PausedAs(s, d, id);
  }

  /** One department's thread was replaced by a thread that, if it is paused, has the next id. */
  ghost predicate OneThreadMoves(s: State, t: State, d: Dept, thread: Thread) {
    && t.threads == s.threads[d := thread] && t.ceoThread == s.ceoThread && t.nextId == s.nextId + 1
    && (thread.Paused? ==> thread.interruptId == s.nextId)
  }

  lemma MovedThreadIsApart(s: State, t: State, d: Dept, thread: Thread)
    requires OneThreadMoves(s, t, d, thread) && IdsApart(s)
    ensures IdsApart(t) && Renews(s, t)
  {
    assert forall e, id: nat :: PausedAs(t, e, id) ==> PausedAs(s, e, id) || (e == d && id == s.nextId);
  }

  lemma CommitKeepsApart(s: State, c: Commit)
    requires IdsApart(s) && ApplyCommit(s, c).Some?
    ensures IdsApart(ApplyCommit(s, c).value) && Renews(s, ApplyCommit(s, c).value)
  {
    var t := ApplyCommit(s, c).value;
    if c.StartThread? {
      MovedThreadIsApart(s, t, c.dept, Paused(c.section, 0, s.nextId));
    } else {
      assert SamePauses(s, t);
      SamePausesStay(s, t);
    }
  }

  lemma CommitsKeepApart(s: State, commits: seq<Commit>, outage: nat)
    requires IdsApart(s)
    ensures IdsApart(Execute(s, commits, outage).state) && Renews(s, Execute(s, commits, outage).state)
  {
    var P := (i: int, t: State) => IdsApart(t) && Renews(s, t);
    SamePausesStay(s, s);
    forall i: nat, t: State | i < |commits| && P(i, t) && ApplyCommit(t, commits[i]).Some?
      ensures P(i + 1, ApplyCommit(t, commits[i]).value)
    {
      CommitKeepsApart(t, commits[i]);
      RenewsTwice(s, t, ApplyCommit(t, commits[i]).value);
    }
    assert commits[0..] == commits;
    ExecuteInduction(P, s, commits, 0, outage);
  }

  lemma ApprovalKeepsApart(s: State, run: StartRun)
    requires IdsApart(s)
    ensures IdsApart(ProcessApproval(s, run)) && Renews(s, ProcessApproval(s, run))
  {
    if s.status != UnderEvaluation || s.metadata.None? {
      SamePausesStay(s, s);
    } else {
      var m := s.metadata.value;
      var p := WholeStart(s, m, run);
      CommitsKeepApart(s, StartCommits(s, m, run), run.outage);
      ProcessIsWhole(s, m, run);
      var t := ProcessApproval(s, run);
      SamePausesStay(p.state, t);
      RenewsTwice(s, p.state, t);
    }
  }

  /** Only the gate of the CEO was opened, under the next id. */
  predicate GateOpens(s: State, t: State) {
    t.threads == s.threads && t.nextId == s.nextId + 1 && t.ceoThread == CeoPaused(s.nextId)
  }

  lemma OpenedGateIsApart(s: State, t: State)
    requires GateOpens(s, t) && IdsApart(s)
    ensures IdsApart(t) && Renews(s, t)
  {
    assert forall d, id: nat :: PausedAs(t, d, id) <==> PausedAs(s, d, id);
  }

  lemma SynthesisKeepsPauses(s: State, order: RowOrder, now: Time)
    ensures SamePauses(s, SynthesizeAndComplete(s, order, now).0)
  {
  }

  lemma PatchKeepsPauses(s: State, needed: seq<Dept>, p: CeoPatch)
    ensures SamePauses(s, PatchArbitration(s, needed, p))
  {
  }

  lemma FinalizationKeepsApart(s: State, order: RowOrder, reread: RowOrder, now: Time, t: State)
    requires IdsApart(s) && t == MaybeFinalize(s, order, reread, now).0
    ensures IdsApart(t) && Renews(s, t)
  {
    if OpensGate(s, order) {
      FinalizationOpensGate(s, order, reread, now);
      GateMoves(s);
      OpenedGateIsApart(s, t);
    } else if Finalizes(s) && !AsksCeo(s, order) {
      FinalizationSynthesizes(s, order, reread, now);
      SynthesisKeepsPauses(s, reread, now);
      SamePausesStay(s, t);
    } else {
      FinalizationWaits(s, order, reread, now);
      SamePausesStay(s, t);
    }
  }

  lemma GateMoves(s: State)
    requires s.metadata.Some?
    ensures GateOpens(s, GateOpened(s))
  {
    PatchKeepsPauses(s.(ceoThread := CeoPaused(s.nextId), nextId := s.nextId + 1), s.metadata.value.needed,
                     OpenGate(s.nextId));
  }

  /** The call got past the guards: a thread is resumed and its row written. */
  predicate Resumes(s: State, call: SectionCall) {
    && s.status == WaitingForApproval && s.metadata.Some? && call.dept in s.metadata.value.needed
    && call.dept in s.rows && s.rows[call.dept].eval.interruptId.Some? && call.action.Known? && call.dept in s.threads
  }

  lemma GuardsHold(s: State, call: SectionCall)
    requires !Resumes(s, call)
    ensures DecideSection(s, call).0 == s
  {
  }

  /** `resumed` is the ticket with the thread of the call resumed to `thread`. */
  predicate ResumedTo(s: State, call: SectionCall, thread: Thread, resumed: State)
    requires Resumes(s, call)
  {
    && thread == Resume(s.threads[call.dept], s.rows[call.dept].eval.interruptId.value, call.action.action,
                        call.feedback, call.reply, s.nextId)
    && resumed == s.(threads := s.threads[call.dept := thread], nextId := s.nextId + 1)
  }

  lemma PauseIsWritten(s: State, call: SectionCall, thread: Thread, resumed: State)
    requires Resumes(s, call) && ResumedTo(s, call, thread, resumed) && thread.Paused?
    ensures SamePauses(resumed, DecideSection(s, call).0)
  {
  }

  lemma EndIsFinalized(s: State, call: SectionCall, thread: Thread, resumed: State)
    requires Resumes(s, call) && ResumedTo(s, call, thread, resumed) && thread.Ended?
    ensures DecideSection(s, call).0
         == MaybeFinalize(CloseRow(resumed, call.dept, thread.outcome, call.now), call.order, call.reread, call.now).0
  {
    assert DecideSection(s, call) == CloseSection(resumed, call, thread.outcome);
  }

  lemma ClosingKeepsPauses(s: State, d: Dept, outcome: Outcome, now: Time)
    requires d in s.rows
    ensures SamePauses(s, CloseRow(s, d, outcome, now))
  {
  }

  lemma ResumedToIsApart(s: State, call: SectionCall, thread: Thread, resumed: State)
    requires IdsApart(s) && Resumes(s, call) && ResumedTo(s, call, thread, resumed)
    ensures IdsApart(resumed) && Renews(s, resumed)
  {
    if thread == s.threads[call.dept] {
      assert forall d, id: nat :: PausedAs(resumed, d, id) <==> PausedAs(s, d, id);
    } else {
      MovedThreadIsApart(s, resumed, call.dept, thread);
    }
  }

  lemma SectionKeepsApart(s: State, call: SectionCall)
    requires IdsApart(s)
    ensures IdsApart(DecideSection(s, call).0) && Renews(s, DecideSection(s, call).0)
  {
    var t := DecideSection(s, call).0;
    if !Resumes(s, call) {
      GuardsHold(s, call);
      SamePausesStay(s, t);
    } else {
      var d := call.dept;
      var thread := Resume(s.threads[d], s.rows[d].eval.interruptId.value, call.action.action, call.feedback,
                           call.reply, s.nextId);
      var resumed := s.(threads := s.threads[d := thread], nextId := s.nextId + 1);
      ResumedToIsApart(s, call, thread, resumed);
      if thread.Paused? {
        PauseIsWritten(s, call, thread, resumed);
        SamePausesStay(resumed, t);
      } else {
        var closed := CloseRow(resumed, d, thread.outcome, call.now);
        EndIsFinalized(s, call, thread, resumed);
        ClosingKeepsPauses(resumed, d, thread.outcome, call.now);
        SamePausesStay(resumed, closed);
        FinalizationKeepsApart(closed, call.order, call.reread, call.now, t);
        RenewsTwice(resumed, closed, t);
      }
      RenewsTwice(s, resumed, t);
    }
  }

  /** The gate was closed, or nothing was. */
  predicate GateCloses(s: State, t: State) {
    t.threads == s.threads && t.nextId == s.nextId && t.ceoThread.CeoEnded?
  }

  lemma RecordingCloses(s: State, decision: CeoDecision, now: Time)
    requires s.metadata.Some?
    ensures GateCloses(s, CeoRecorded(s, decision, now))
  {
    PatchKeepsPauses(s.(ceoThread := CeoEnded(decision)), s.metadata.value.needed,
                     if decision == CeoApproved then RecordApproval(now) else RecordRejection);
  }

  lemma CeoMoves(s: State, call: CeoCall)
    ensures SamePauses(s, DecideCeo(s, call).0) || GateCloses(s, DecideCeo(s, call).0)
  {
    if s.metadata.Some? && call.action.Known? {
      if call.action.action == Approve {
        RecordingCloses(s, CeoApproved, call.now);
        SynthesisKeepsPauses(CeoRecorded(s, CeoApproved, call.now), call.reread, call.now);
        assert DecideCeo(s, call).0 == s
               || DecideCeo(s, call).0
                  == SynthesizeAndComplete(CeoRecorded(s, CeoApproved, call.now), call.reread, call.now).0;
      } else {
        RecordingCloses(s, CeoRejected, call.now);
        assert DecideCeo(s, call).0 == s || DecideCeo(s, call).0 == CeoRecorded(s, CeoRejected, call.now);
      }
    } else {
      assert DecideCeo(s, call).0 == s;
    }
  }

  lemma CeoKeepsApart(s: State, call: CeoCall)
    requires IdsApart(s)
    ensures IdsApart(DecideCeo(s, call).0) && Renews(s, DecideCeo(s, call).0)
  {
    var t := DecideCeo(s, call).0;
    CeoMoves(s, call);
    if SamePauses(s, t) {
      SamePausesStay(s, t);
    } else {
      assert forall d, id: nat :: PausedAs(t, d, id) <==> PausedAs(s, d, id);
    }
  }

  lemma StepKeepsApart(s: State, step: Step)
    requires IdsApart(s)
    ensures IdsApart(Take(s, step)) && Renews(s, Take(s, step))
  {
    match step
    case DeliverIntake(i, outage) => CommitsKeepApart(s, IntakeCommits(i), outage);
    case DeliverResponse(run) =>
      ResponseFrame(s, run);
      SamePausesStay(s, Take(s, step));
    case DeliverApproval(run) => ApprovalKeepsApart(s, run);
    case CallSection(call) => SectionKeepsApart(s, call);
    case CallCeo(call) => CeoKeepsApart(s, call);
  }

  lemma {:induction false} RunKeepsApart(s: State, steps: seq<Step>)
    requires IdsApart(s)
    ensures IdsApart(Run(s, steps)) && Renews(s, Run(s, steps))
    decreases |steps|
  {
    if steps == [] {
      SamePausesStay(s, s);
    } else {
      var t := Take(s, steps[0]);
      StepKeepsApart(s, steps[0]);
      RunKeepsApart(t, steps[1..]);
      RenewsTwice(s, t, Run(t, steps[1..]));
    }
  }

  /**
   After any deliveries and decisions, and whatever follows: if a department is paused under an id that was
   a department's before, it is that department, and its thread has not moved since.
   */
  lemma PauseIdsAreNeverReused(before: seq<Step>, after: seq<Step>, d: Dept, e: Dept, id: nat)
    requires PausedAs(Run(NEW_TICKET, before), d, id) && PausedAs(Run(Run(NEW_TICKET, before), after), e, id)
    ensures e == d && Run(Run(NEW_TICKET, before), after).threads[d] == Run(NEW_TICKET, before).threads[d]
  {
    var s := Run(NEW_TICKET, before);
    assert IdsApart(NEW_TICKET);
    RunKeepsApart(NEW_TICKET, before);
    RunKeepsApart(s, after);
    assert e in s.threads && PausedAs(s, e, id);
  }
}
