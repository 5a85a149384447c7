/** What every run of the approval protocol guarantees. */
module RfpTheorems {
  import opened Options
  import opened RfpLifecycle
  import opened RfpArbitration
  import opened RfpThread
  import opened RfpProtocol
  import opened RfpInvariant
  import opened RfpTaskProofs
  import opened RfpDecisionProofs

  // ---------- every status only moves forward ----------

  ghost predicate Forward(a: Status, b: Status) {
    a == b || (Rank(a) < Rank(b) && !Absorbing(a))
  }

  lemma StatusWriteIsForward(s: State, target: Status)
    ensures UpdateStatus(s, target).Some? ==> Forward(s.status, UpdateStatus(s, target).value.status)
  {
    AllowedIsNextStatus(s.status, target);
  }

  lemma ExecuteIsForward(s: State, commits: seq<Commit>, outage: nat)
    ensures Forward(s.status, Execute(s, commits, outage).state.status)
  {
    var P := (i: int, t: State) => Forward(s.status, t.status);
    forall i: nat, t: State | i < |commits| && P(i, t) && ApplyCommit(t, commits[i]).Some?
      ensures P(i + 1, ApplyCommit(t, commits[i]).value)
    {
      if commits[i].SetStatus? {
        StatusWriteIsForward(t, commits[i].target);
      }
    }
    assert commits[0..] == commits;
    ExecuteInduction(P, s, commits, 0, outage);
  }

  lemma SynthesisIsForward(s: State, order: RowOrder, now: Time)
    ensures Forward(s.status, SynthesizeAndComplete(s, order, now).0.status)
  {
    AllowedIsNextStatus(s.status, Done);
  }

  lemma PatchKeepsStatus(s: State, needed: seq<Dept>, p: CeoPatch)
    ensures PatchArbitration(s, needed, p).status == s.status
  {
  }

  /** Finalizing writes no status unless it goes on to the synthesis. */
  lemma FinalizeWaitsOrSynthesizes(s: State, order: RowOrder, reread: RowOrder, now: Time)
    ensures
      || MaybeFinalize(s, order, reread, now).0.status == s.status
      || MaybeFinalize(s, order, reread, now) == SynthesizeAndComplete(s, reread, now)
  {
    if s.metadata.Some? {
      PatchKeepsStatus(s.(ceoThread := CeoPaused(s.nextId), nextId := s.nextId + 1), s.metadata.value.needed,
                       OpenGate(s.nextId));
    }
  }

  lemma FinalizeIsForward(s: State, order: RowOrder, reread: RowOrder, now: Time)
    ensures Forward(s.status, MaybeFinalize(s, order, reread, now).0.status)
  {
    SynthesisIsForward(s, reread, now);
    FinalizeWaitsOrSynthesizes(s, order, reread, now);
  }

  lemma SectionIsForward(s: State, call: SectionCall)
    ensures Forward(s.status, DecideSection(s, call).0.status)
  {
    var d := call.dept;
    if d in s.rows && d in s.threads && s.rows[d].eval.interruptId.Some? && call.action.Known? {
      var t := Resume(s.threads[d], s.rows[d].eval.interruptId.value, call.action.action,
                      call.feedback, call.reply, s.nextId);
      var resumed := s.(threads := s.threads[d := t], nextId := s.nextId + 1);
      if t.Ended? {
        FinalizeIsForward(CloseRow(resumed, d, t.outcome, call.now), call.order, call.reread, call.now);
      }
    }
  }

  /** A CEO call writes no status but that of the synthesis it may go on to. */
  lemma CeoWaitsOrSynthesizes(s: State, call: CeoCall)
    ensures
      || DecideCeo(s, call).0.status == s.status
      || (s.metadata.Some? && DecideCeo(s, call).0.status
                == SynthesizeAndComplete(CeoRecorded(s, CeoApproved, call.now), call.reread, call.now).0.status)
  {
    if s.metadata.Some? && call.action.Known? {
      if call.action.action == Approve {
        assert DecideCeo(s, call).0 == s
               || DecideCeo(s, call).0
                  == SynthesizeAndComplete(CeoRecorded(s, CeoApproved, call.now), call.reread, call.now).0;
      } else {
        PatchKeepsStatus(s.(ceoThread := CeoEnded(CeoRejected)), s.metadata.value.needed, RecordRejection);
        assert DecideCeo(s, call).0 == s || DecideCeo(s, call).0 == CeoRecorded(s, CeoRejected, call.now);
      }
    } else {
      assert DecideCeo(s, call).0 == s;
    }
  }

  lemma CeoIsForward(s: State, call: CeoCall)
    ensures Forward(s.status, DecideCeo(s, call).0.status)
  {
    CeoWaitsOrSynthesizes(s, call);
    if s.metadata.Some? {
      PatchKeepsStatus(s.(ceoThread := CeoEnded(CeoApproved)), s.metadata.value.needed, RecordApproval(call.now));
      SynthesisIsForward(CeoRecorded(s, CeoApproved, call.now), call.reread, call.now);
    }
  }

  lemma ApprovalIsForward(s: State, run: StartRun)
    ensures Forward(s.status, ProcessApproval(s, run).status)
  {
    if s.status == UnderEvaluation && s.metadata.Some? {
      ExecuteIsForward(s, StartCommits(s, s.metadata.value, run), run.outage);
    }
  }

  /** Any step from any state, consistent or not, moves the status forward or leaves it. */
  lemma StepIsForward(s: State, step: Step)
    ensures Forward(s.status, Take(s, step).status)
  {
    match step
    case DeliverIntake(i, outage) => ExecuteIsForward(s, IntakeCommits(i), outage);
    case DeliverResponse(run) => ResponseFrame(s, run);
    case DeliverApproval(run) => ApprovalIsForward(s, run);
    case CallSection(call) => SectionIsForward(s, call);
    case CallCeo(call) => CeoIsForward(s, call);
  }

  /** Over any run of deliveries, redeliveries, outages and decisions, from any stored data. */
  lemma {:induction false} StatusOnlyRises(s: State, steps: seq<Step>)
    ensures Rank(s.status) <= Rank(Run(s, steps).status)
    ensures Absorbing(s.status) ==> Run(s, steps).status == s.status
    decreases |steps|
  {
    if steps != [] {
      StepIsForward(s, steps[0]);
      StatusOnlyRises(Take(s, steps[0]), steps[1..]);
    }
  }

  // ---------- the invariant over runs ----------

  /** The one delivery the invariant does not survive is an intake that changes the needed departments. */
  ghost predicate Harmless(s: State, step: Step) {
    step.DeliverIntake? ==> IntakeResult(step.intake) && HarmlessIntake(s, step.intake, step.outage)
  }

  ghost predicate HarmlessRun(s: State, steps: seq<Step>)
    decreases |steps|
  {
    steps == [] || (Harmless(s, steps[0]) && HarmlessRun(Take(s, steps[0]), steps[1..]))
  }

  lemma StepKeepsInv(s: State, step: Step)
    requires Inv(s) && Harmless(s, step)
    ensures Inv(Take(s, step))
  {
    match step
    case DeliverIntake(i, outage) => IntakeKeepsInv(s, i, outage);
    case DeliverResponse(run) => ResponseKeepsInv(s, run);
    case DeliverApproval(run) => ApprovalKeepsInv(s, run);
    case CallSection(call) => if InApproval(s) { SectionKeepsInv(s, call); }
    case CallCeo(call) => if InApproval(s) { CeoKeepsInv(s, call); }
  }

  lemma {:induction false} RunKeepsInv(s: State, steps: seq<Step>)
    requires Inv(s) && HarmlessRun(s, steps)
    ensures Inv(Run(s, steps))
    decreases |steps|
  {
    if steps != [] {
      StepKeepsInv(s, steps[0]);
      RunKeepsInv(Take(s, steps[0]), steps[1..]);
    }
  }

  /** A finished ticket: every needed department closed, the document saved, and the CEO's approval where required. */
  ghost predicate SoundlyDone(s: State) {
    && s.metadata.Some? && s.document.Some?
    && AllTerminal(s.rows, s.metadata.value.needed)
    && forall d :: d in s.metadata.value.needed ==>
         && s.rows[d].eval.arbitration.Some?
         && (s.rows[d].eval.arbitration.value.ceoRequired ==>
               s.rows[d].eval.arbitration.value.ceoDecision == Some(CeoApproved))
  }

  // ---------- redelivered intake ----------

  /**
   The intake task has no status guard of its own: on a finished ticket a redelivered valid result
   still replaces the needed departments. The ticket then stays soundly done exactly when the new
   list adds no department.
   */
  lemma RedeliveredIntakeOnDone(s: State, m: Metadata, outage: nat)
    requires Inv(s) && s.status == Done && Marketing in m.needed && outage > 0
    ensures
      var t := ProcessIntake(s, IntakeValid(m), outage);
      && t.status == Done
      && (SoundlyDone(t) <==> NeededSet(m) <= NeededSet(s.metadata.value))
  {
    IntakeUnfolded(s, IntakeValid(m), outage);
    MarketingIsSelected(m);
    var t := ProcessIntake(s, IntakeValid(m), outage);
    assert t == s.(metadata := Some(m));
    assert forall d :: d in m.needed <==> d in NeededSet(m);
    if NeededSet(m) <= NeededSet(s.metadata.value) {
      assert forall d :: d in m.needed ==> d in s.rows;
      assert SoundlyDone(t);
    } else {
      var d :| d in NeededSet(m) && d !in NeededSet(s.metadata.value);
      assert d in m.needed && d !in t.rows;
    }
  }
}
