/**
 The stored ticket as the repository, the tasks and the approval driver update it, one write at a
 time. Every method is proved to do exactly what the function of `RfpProtocol` says.
 */
module RfpDatabase {
  import opened Options
  import opened RfpLifecycle
  import opened RfpArbitration
  import opened RfpThread
  import P = RfpProtocol
  import I = RfpInvariant

  class Database {
    var status: Status
    var metadata: Option<P.Metadata>
    var rows: map<Dept, P.Row>
    var document: Option<P.Document>
    var threads: map<Dept, Thread>
    var ceoThread: P.CeoThread
    var nextId: nat

    function Snapshot(): P.State
      reads this
    {
      P.State(status, metadata, rows, document, threads, ceoThread, nextId)
    }

    /** create_ticket: the only place where a status is written without a transition. */
    constructor ()
      ensures Snapshot() == P.NEW_TICKET
    {
      status, metadata, rows, document := Analyzing, None, map[], None;
      threads, ceoThread, nextId := map[], P.CeoAbsent, 0;
    }

    // ---------- repository ----------

    method UpdateTicketStatus(target: Status) returns (ok: bool)
      modifies this`status
      ensures ok <==> P.UpdateStatus(old(Snapshot()), target).Some?
      ensures Snapshot() == if ok then P.UpdateStatus(old(Snapshot()), target).value else old(Snapshot())
    {
      ok := ValidateTransition(status, target) == Allowed;
      if ok {
        status := target;
      }
    }

    method MergeEvaluationResults(d: Dept, patch: P.EvalPatch) returns (ok: bool)
      modifies this`rows
      ensures ok <==> P.MergeEvaluation(old(Snapshot()), d, patch).Some?
      ensures Snapshot() == if ok then P.MergeEvaluation(old(Snapshot()), d, patch).value else old(Snapshot())
    {
      ok := d in rows;
      if ok {
        var row := rows[d];
        rows := rows[d := row.(eval := P.Patched(row.eval, patch))];
      }
    }

    method UpdateDepartmentSection(d: Dept, draft: string, eval: P.Eval) returns (ok: bool)
      modifies this`rows
      ensures ok <==> P.UpdateSection(old(Snapshot()), d, draft, eval).Some?
      ensures Snapshot() == if ok then P.UpdateSection(old(Snapshot()), d, draft, eval).value else old(Snapshot())
    {
      ok := d in rows;
      if ok {
        rows := rows[d := rows[d].(draft := Some(draft), eval := eval)];
      }
    }

    method UpdateDepartmentSectionApproval(d: Dept, approval: P.ApprovalStatus, now: Time) returns (ok: bool)
      modifies this`rows
      ensures ok <==> P.UpdateApproval(old(Snapshot()), d, approval, now).Some?
      ensures Snapshot() == if ok then P.UpdateApproval(old(Snapshot()), d, approval, now).value else old(Snapshot())
    {
      ok := d in rows;
      if ok {
        rows := rows[d := rows[d].(status := approval, approver := Some(P.Owner(d)), approvedAt := Some(now))];
      }
    }

    /** One insert per section, all in one transaction: a row that exists makes the whole insert fail. */
    method SaveDepartmentSections(depts: seq<Dept>) returns (ok: bool)
      modifies this`rows
      ensures ok <==> P.ApplyCommit(old(Snapshot()), P.InsertRows(depts)).Some?
      ensures Snapshot() == if ok then P.ApplyCommit(old(Snapshot()), P.InsertRows(depts)).value else old(Snapshot())
    {
      var inserted: map<Dept, P.Row> := map[];
      for i := 0 to |depts|
        invariant inserted == map d | d in depts[..i] :: P.BLANK_ROW
        invariant forall d :: d in depts[..i] ==> d !in rows
      {
        if depts[i] in rows {
          return false;
        }
        inserted := inserted[depts[i] := P.BLANK_ROW];
      }
      assert depts[..|depts|] == depts;
      rows := rows + inserted;
      return true;
    }

    /** Invoking a thread with a fresh input pauses it at once; the new pause goes to the row. */
    method StartDepartmentThread(d: Dept, section: Section) returns (ok: bool)
      modifies this`rows, this`threads, this`nextId
      ensures ok <==> P.ApplyCommit(old(Snapshot()), P.StartThread(d, section)).Some?
      ensures ok ==> Snapshot() == P.ApplyCommit(old(Snapshot()), P.StartThread(d, section)).value
      ensures !ok ==> rows == old(rows)
    {
      var id := nextId;
      threads := threads[d := Paused(section, 0, id)];
      nextId := nextId + 1;
      ok := MergeEvaluationResults(d, P.NO_PATCH.(interruptId := Some(Some(id))));
    }

    // ---------- tasks ----------

    /** The writes for a valid intake, the metadata being the first; `outage` commits succeed in all. */
    method StoreIntake(m: P.Metadata, outage: nat)
      requires outage > 0
      modifies this
      ensures Snapshot() == P.ProcessIntake(old(Snapshot()), P.IntakeValid(m), outage)
    {
      I.IntakeUnfolded(Snapshot(), P.IntakeValid(m), outage);
      metadata := Some(m);
      if outage > 1 {
        var ok := SaveDepartmentSections(P.NeededInOrder(m));
        if ok && outage > 2 {
          var _ := UpdateTicketStatus(IntakeComplete);
        }
      }
    }

    /** process_rfp: `outage` commits succeed before the database fails. */
    method ProcessRfp(intake: P.Intake, outage: nat)
      modifies this
      ensures Snapshot() == P.ProcessIntake(old(Snapshot()), intake, outage)
    {
      if outage == 0 {
        I.IntakeUnfolded(Snapshot(), intake, outage);
        return;
      }
      match intake
      case IntakeValid(m) => StoreIntake(m, outage);
      case _ =>
        I.IntakeUnfolded(Snapshot(), intake, outage);
        var _ := UpdateTicketStatus(Discarded);
    }

    /**
     The loop over the response graph's sections. `left` commits remain before the outage; the
     status write after the loop is the last of them.
     */
    method SaveDrafts(drafts: map<Dept, P.Drafted>, depts: seq<Dept>, outage: nat) returns (finished: bool)
      modifies this`rows, this`status
      ensures P.Progress(Snapshot(), finished)
           == P.Execute(old(Snapshot()), P.DraftCommits(drafts, depts) + [P.SetStatus(UnderEvaluation)], outage)
    {
      ghost var commits := P.DraftCommits(drafts, depts) + [P.SetStatus(UnderEvaluation)];
      ghost var before := Snapshot();
      var left := outage;
      assert commits[0..] == commits;
      for i := 0 to |depts|
        invariant left == outage - i >= 0
        invariant P.Execute(before, commits, outage) == P.Execute(Snapshot(), commits[i..], left)
      {
        assert commits[i..] == [P.WriteDraft(drafts, depts[i])] + commits[i + 1..];
        I.ExecuteFirst(Snapshot(), P.WriteDraft(drafts, depts[i]), commits[i + 1..], left);
        if left == 0 {
          return false;
        }
        var r := P.DraftedBy(drafts, depts[i]);
        var ok := UpdateDepartmentSection(depts[i], r.draft,
                                          P.EMPTY_EVAL.(ceoFlag := r.ceoFlag, needsReview := r.needsReview));
        if !ok {
          return false;
        }
        left := left - 1;
      }
      assert commits[|depts|..] == [P.SetStatus(UnderEvaluation)] + [];
      I.ExecuteFirst(Snapshot(), P.SetStatus(UnderEvaluation), [], left);
      if left == 0 {
        return false;
      }
      finished := UpdateTicketStatus(UnderEvaluation);
    }

    /** The except block of the response task: best effort per row, then the status. */
    method RecoverResponse(depts: seq<Dept>, run: P.ResponseRun)
      modifies this`rows, this`status
      ensures Snapshot() == P.Recover(old(Snapshot()), depts, run)
    {
      ghost var before := rows;
      for i := 0 to |depts|
        invariant rows == map d | d in before ::
                    if d in depts[..i] && d in run.recoveredRows
                    then before[d].(draft := Some(""), eval := P.REVIEW_EVAL) else before[d]
        invariant status == old(status)
      {
        assert depts[..i + 1] == depts[..i] + [depts[i]];
        if depts[i] in run.recoveredRows {
          var _ := UpdateDepartmentSection(depts[i], "", P.REVIEW_EVAL);
        }
      }
      assert depts[..|depts|] == depts;
      if run.recoveryStatusCommits {
        var _ := UpdateTicketStatus(UnderEvaluation);
      }
    }

    /** process_rfp_response */
    method ProcessRfpResponse(run: P.ResponseRun)
      modifies this
      ensures Snapshot() == P.ProcessResponse(old(Snapshot()), run)
    {
      var drafting := false;
      if run.outage > 0 {
        drafting := UpdateTicketStatus(Drafting);
      }
      if !drafting || metadata.None? {
        RecoverResponse([], run);
        return;
      }
      var m := metadata.value;
      var finished := false;
      if run.drafts.Some? {
        finished := SaveDrafts(run.drafts.value, P.NeededInOrder(m), run.outage - 1);
      }
      if !finished {
        RecoverResponse(m.needed, run);
      }
    }

    // ---------- process_rfp_approval ----------

    /** One merge per patch, until a row is missing or the outage comes. */
    method MergeAll(depts: seq<Dept>, patches: seq<P.EvalPatch>, outage: nat) returns (finished: bool)
      requires |patches| == |depts|
      modifies this`rows
      ensures P.Progress(Snapshot(), finished) == P.Execute(old(Snapshot()), MergeCommits(depts, patches), outage)
      ensures finished ==> outage >= |depts| && forall d :: d in depts ==> d in rows
    {
      ghost var commits := MergeCommits(depts, patches);
      ghost var before := Snapshot();
      var left := outage;
      assert commits[0..] == commits;
      for i := 0 to |depts|
        invariant left == outage - i >= 0
        invariant forall d :: d in depts[..i] ==> d in rows
        invariant P.Execute(before, commits, outage) == P.Execute(Snapshot(), commits[i..], left)
      {
        assert depts[..i + 1] == depts[..i] + [depts[i]];
        assert commits[i..] == [P.Merge(depts[i], patches[i])] + commits[i + 1..];
        I.ExecuteFirst(Snapshot(), P.Merge(depts[i], patches[i]), commits[i + 1..], left);
        if left == 0 {
          return false;
        }
        var ok := MergeEvaluationResults(depts[i], patches[i]);
        if !ok {
          return false;
        }
        left := left - 1;
      }
      return true;
    }

    /** Start one thread per needed department; a repeated department restarts its thread. */
    method StartThreads(depts: seq<Dept>, sections: seq<Section>, outage: nat) returns (finished: bool)
      requires |sections| == |depts|
      requires forall d :: d in depts ==> d in rows
      modifies this`rows, this`threads, this`nextId
      ensures P.Progress(Snapshot(), finished) == P.Execute(old(Snapshot()), ThreadCommits(depts, sections), outage)
    {
      ghost var commits := ThreadCommits(depts, sections);
      ghost var before := Snapshot();
      var left := outage;
      assert commits[0..] == commits;
      for i := 0 to |depts|
        invariant left == outage - i >= 0
        invariant rows.Keys == before.rows.Keys
        invariant P.Execute(before, commits, outage) == P.Execute(Snapshot(), commits[i..], left)
      {
        assert commits[i..] == [P.StartThread(depts[i], sections[i])] + commits[i + 1..];
        I.ExecuteFirst(Snapshot(), P.StartThread(depts[i], sections[i]), commits[i + 1..], left);
        if left == 0 {
          return false;
        }
        var ok := StartDepartmentThread(depts[i], sections[i]);
        if !ok {
          return false;
        }
        left := left - 1;
      }
      return true;
    }

    /** The except block of the approval task: flag what can be flagged. */
    method FlagForReview(depts: seq<Dept>, flagged: set<Dept>)
      modifies this`rows
      ensures Snapshot() == P.FlagRows(old(Snapshot()), depts, flagged)
    {
      ghost var before := rows;
      for i := 0 to |depts|
        invariant rows == map d | d in before ::
                    if d in depts[..i] && d in flagged
                    then before[d].(eval := before[d].eval.(needsReview := true)) else before[d]
      {
        assert depts[..i + 1] == depts[..i] + [depts[i]];
        if depts[i] in flagged {
          var _ := MergeEvaluationResults(depts[i], P.NO_PATCH.(needsReview := Some(true)));
        }
      }
      assert depts[..|depts|] == depts;
    }

    /** process_rfp_approval */
    method ProcessRfpApproval(run: P.StartRun)
      modifies this
      ensures Snapshot() == P.ProcessApproval(old(Snapshot()), run)
    {
      if status != UnderEvaluation || metadata.None? {
        return;
      }
      var m := metadata.value;
      var finished := StartApproval(m, run);
      if !finished {
        FlagForReview(m.needed, run.flagged);
      }
    }

    /** The two loops before the status flip: the extracted numbers, then the arbitration stamps. */
    method MergeNumbersAndStamps(numbered: seq<Dept>, numbers: seq<P.EvalPatch>,
                                 stamped: seq<Dept>, stamps: seq<P.EvalPatch>, outage: nat)
      returns (finished: bool)
      requires |numbers| == |numbered| && |stamps| == |stamped|
      modifies this`rows
      ensures P.Progress(Snapshot(), finished)
           == P.Execute(old(Snapshot()), MergeCommits(numbered, numbers) + MergeCommits(stamped, stamps), outage)
      ensures finished ==> outage >= |numbered| + |stamped| && forall d :: d in stamped ==> d in rows
    {
      I.ExecuteConcat(Snapshot(), MergeCommits(numbered, numbers), MergeCommits(stamped, stamps), outage);
      finished := MergeAll(numbered, numbers, outage);
      if finished {
        finished := MergeAll(stamped, stamps, outage - |numbered|);
      }
    }

    /** The status flip and the loop that starts the threads, after `pre` commits were made. */
    method FlipAndStart(depts: seq<Dept>, sections: seq<Section>, left: nat) returns (finished: bool)
      requires |sections| == |depts|
      requires forall d :: d in depts ==> d in rows
      modifies this`status, this`rows, this`threads, this`nextId
      ensures P.Progress(Snapshot(), finished)
           == P.Execute(old(Snapshot()), [P.SetStatus(WaitingForApproval)] + ThreadCommits(depts, sections), left)
    {
      I.ExecuteFirst(Snapshot(), P.SetStatus(WaitingForApproval), ThreadCommits(depts, sections), left);
      finished := false;
      if left > 0 {
        finished := UpdateTicketStatus(WaitingForApproval);
        if finished {
          finished := StartThreads(depts, sections, left - 1);
        }
      }
    }

    /** The arbitration over this run's figures, and what it puts into rows and threads. */
    method PlanStart(m: P.Metadata, run: P.StartRun) returns (stamps: seq<P.EvalPatch>, sections: seq<Section>)
      ensures stamps == StampPatches(m, run, P.StartArbitration(Snapshot(), m, run))
      ensures sections == StartSections(Snapshot(), m, run, P.StartArbitration(Snapshot(), m, run))
    {
      P.EveryDeptListed(run.order);
      var figures := P.StartFigures(P.State(status, metadata, rows, document, threads, ceoThread, nextId), m, run);
      var arb := RunArbitration(P.Select(run.order, figures.Keys), figures, m.budgetCeiling);
      stamps := StampPatches(m, run, arb);
      sections := StartSections(P.State(status, metadata, rows, document, threads, ceoThread, nextId), m, run, arb);
    }

    /** Merges, then the flip and the threads: the flip is reached only when every merge was made. */
    method MergeThenFlip(numbered: seq<Dept>, numbers: seq<P.EvalPatch>, needed: seq<Dept>, stamps: seq<P.EvalPatch>,
                         sections: seq<Section>, outage: nat)
      returns (finished: bool)
      requires |numbers| == |numbered| && |stamps| == |needed| && |sections| == |needed|
      modifies this`status, this`rows, this`threads, this`nextId
      ensures P.Progress(Snapshot(), finished)
           == P.Execute(old(Snapshot()),
                        (MergeCommits(numbered, numbers) + MergeCommits(needed, stamps))
                        + ([P.SetStatus(WaitingForApproval)] + ThreadCommits(needed, sections)), outage)
    {
      I.ExecuteConcat(Snapshot(), MergeCommits(numbered, numbers) + MergeCommits(needed, stamps),
                      [P.SetStatus(WaitingForApproval)] + ThreadCommits(needed, sections), outage);
      finished := MergeNumbersAndStamps(numbered, numbers, needed, stamps, outage);
      if finished {
        finished := FlipAndStart(needed, sections, outage - |numbered| - |needed|);
      }
    }

    /** Extracts, stamps, the status flip, then the threads. */
    method StartApproval(m: P.Metadata, run: P.StartRun) returns (finished: bool)
      modifies this
      ensures P.Progress(Snapshot(), finished)
           == P.Execute(old(Snapshot()), P.StartCommits(old(Snapshot()), m, run), run.outage)
    {
      var depts := P.NeededInOrder(m);
      var stamps, sections := PlanStart(m, run);
      StartCommitsAgree(Snapshot(), m, run);
      finished := MergeThenFlip(depts, NumberPatches(depts, run), m.needed, stamps, sections, run.outage);
    }

    // ---------- approval driver ----------

    method AllActiveDeptsTerminal(needed: seq<Dept>) returns (all: bool)
      ensures all <==> P.AllTerminal(rows, needed)
    {
      for i := 0 to |needed|
        invariant forall d :: d in needed[..i] ==> d in rows && P.RowIsTerminal(rows[d])
      {
        var d := needed[i];
        if d !in rows || !P.RowIsTerminal(rows[d]) {
          return false;
        }
      }
      assert needed[..|needed|] == needed;
      return true;
    }

    /** Scan the rows in the order the database returned them, and stop at the first record. */
    method ArbitrationFromSections(order: seq<Dept>) returns (arb: Arbitration)
      ensures arb == P.FirstArbitration(order, rows)
    {
      assert order[0..] == order;
      for i := 0 to |order|
        invariant P.FirstArbitration(order, rows) == P.FirstArbitration(order[i..], rows)
      {
        assert order[i..][1..] == order[i + 1..];
        var d := order[i];
        if d in rows && rows[d].eval.arbitration.Some? {
          return rows[d].eval.arbitration.value;
        }
      }
      arb := EMPTY_ARBITRATION;
    }

    /** Patch the record of every needed department that has a row; a repeated department is patched again. */
    method PersistArbitrationPatch(needed: seq<Dept>, patch: P.CeoPatch)
      modifies this`rows
      ensures Snapshot() == P.PatchArbitration(old(Snapshot()), needed, patch)
    {
      ghost var before := rows;
      for i := 0 to |needed|
        invariant rows == map d | d in before ::
                    if d in needed[..i] then P.CeoPatchedRow(before[d], patch) else before[d]
      {
        var d := needed[i];
        assert needed[..i + 1] == needed[..i] + [d];
        if d in rows {
          var arb := if rows[d].eval.arbitration.Some? then rows[d].eval.arbitration.value else EMPTY_ARBITRATION;
          PatchTwice(arb, patch);
          var _ := MergeEvaluationResults(d, P.NO_PATCH.(arbitration := Some(P.WithCeoPatch(arb, patch))));
        }
      }
      assert needed[..|needed|] == needed;
    }

    /** The sections of the document, one per visited department. */
    method BuildSections(depts: seq<Dept>) returns (sections: seq<P.DocSection>)
      ensures sections == P.SectionsOf(rows, depts)
    {
      sections := [];
      for i := 0 to |depts|
        invariant sections == P.SectionsOf(rows, depts[..i])
      {
        var d := depts[i];
        var draft, at, approver := None, None, P.Owner(d);
        if d in rows {
          draft, at := rows[d].draft, rows[d].approvedAt;
          if rows[d].approver.Some? {
            approver := rows[d].approver.value;
          }
        }
        sections := sections + [P.DocSection(d, P.Owner(d), draft, at, approver)];
      }
      assert depts[..|depts|] == depts;
    }

    method SynthesizeAndComplete(order: P.RowOrder, now: Time) returns (how: P.Finalized)
      modifies this`document, this`status
      ensures (Snapshot(), how) == P.SynthesizeAndComplete(old(Snapshot()), order, now)
    {
      if metadata.None? {
        return P.Raised;
      }
      var arb := ArbitrationFromSections(order);
      if arb.ceoDecision == Some(CeoRejected) {
        return P.Raised;
      }
      var sections := BuildSections(P.DocumentDepts(Snapshot(), metadata.value));
      var line := None;
      if arb.ceoRequired && arb.ceoDecision == Some(CeoApproved) {
        line := Some(if arb.ceoApprovedAt.Some? then arb.ceoApprovedAt.value else now);
      }
      document := Some(P.Document(sections, arb.triggers, line));
      var ok := UpdateTicketStatus(Done);
      how := if ok then P.Completed else P.Raised;
    }

    method MaybeFinalizeTicket(order: P.RowOrder, reread: P.RowOrder, now: Time) returns (how: P.Finalized)
      modifies this
      ensures (Snapshot(), how) == P.MaybeFinalize(old(Snapshot()), order, reread, now)
    {
      if metadata.None? {
        return P.Raised;
      }
      var needed := metadata.value.needed;
      var all := AllActiveDeptsTerminal(needed);
      if !all {
        return P.NotAllTerminal;
      }
      var arb := ArbitrationFromSections(order);
      if arb.ceoRequired && arb.ceoDecision != Some(CeoApproved) {
        if arb.ceoDecision == Some(CeoRejected) {
          return P.AlreadyRejected;
        }
        if arb.ceoInterruptId.Some? {
          return P.CeoPending;
        }
        var id := nextId;
        ceoThread, nextId := P.CeoPaused(id), nextId + 1;
        PersistArbitrationPatch(needed, P.OpenGate(id));
        return P.CeoGateOpened;
      }
      how := SynthesizeAndComplete(reread, now);
    }

    /** Draft, re-evaluated flag, numbers and new pause in one update of the row. */
    method PersistRegenSection(d: Dept, section: Section, id: nat, ceoFlag: bool)
      requires d in rows
      modifies this`rows
      ensures Snapshot() == P.PersistRegen(old(Snapshot()), d, section, id, ceoFlag).value
    {
      var row := rows[d];
      var draft := if Text(section.draft) != "" then section.draft.value else Text(row.draft);
      var eval := row.eval.(ceoFlag := ceoFlag, needsReview := false, numbers := section.numbers);
      if section.humanFeedback.Some? {
        eval := eval.(humanFeedback := section.humanFeedback);
      }
      if section.arbiterFeedback.Some? {
        eval := eval.(arbiterFeedback := section.arbiterFeedback);
      }
      if section.forced.Some? {
        eval := eval.(forced := section.forced);
      }
      eval := eval.(interruptId := Some(id));
      var _ := UpdateDepartmentSection(d, draft, eval);
    }

    /** apply_section_decision */
    method ApplySectionDecision(call: P.SectionCall) returns (answer: P.Decision)
      modifies this
      ensures (Snapshot(), answer) == P.DecideSection(old(Snapshot()), call)
    {
      var d := call.dept;
      if status != WaitingForApproval {
        return P.Refused(P.WrongStatus);
      }
      if metadata.None? {
        return P.Refused(P.MissingMetadata);
      }
      if d !in metadata.value.needed {
        return P.Refused(P.NotNeeded);
      }
      if d !in rows {
        return P.Refused(P.MissingSection);
      }
      if rows[d].eval.interruptId.None? {
        return P.Refused(P.MissingInterrupt);
      }
      if call.action.Unknown? {
        return P.Refused(P.InvalidAction);
      }
      if d !in threads {
        return P.Refused(P.MissingThread);
      }
      var t := Resume(threads[d], rows[d].eval.interruptId.value, call.action.action, call.feedback, call.reply,
                      nextId);
      threads, nextId := threads[d := t], nextId + 1;
      match t
      case Paused(section, _, id) =>
        PersistRegenSection(d, section, id, OverThreshold(metadata.value.budgetCeiling));
        answer := P.PendingReapproval;
      case Ended(_, _, outcome) =>
        answer := CloseSection(call, outcome);
    }

    method CloseSection(call: P.SectionCall, outcome: Outcome) returns (answer: P.Decision)
      requires call.dept in rows
      modifies this
      ensures (Snapshot(), answer) == P.CloseSection(old(Snapshot()), call, outcome)
    {
      var _ := UpdateDepartmentSectionApproval(call.dept, P.StatusFor(outcome), call.now);
      var _ := MergeEvaluationResults(call.dept, P.NO_PATCH.(interruptId := Some(None), outcome := Some(outcome)));
      var how := MaybeFinalizeTicket(call.order, call.reread, call.now);
      answer := if how == P.Raised then P.Refused(P.FinalizationRaised) else P.Decided(outcome, how);
    }

    /** apply_ceo_decision */
    method ApplyCeoDecision(call: P.CeoCall) returns (answer: P.Decision)
      modifies this
      ensures (Snapshot(), answer) == P.DecideCeo(old(Snapshot()), call)
    {
      if status != WaitingForApproval {
        return P.Refused(P.WrongStatus);
      }
      if metadata.None? {
        return P.Refused(P.MissingMetadata);
      }
      var needed := metadata.value.needed;
      var arb := ArbitrationFromSections(call.order);
      if !arb.ceoRequired {
        return P.Refused(P.CeoNotRequired);
      }
      if arb.ceoInterruptId.None? {
        return P.Refused(P.MissingInterrupt);
      }
      if call.action.Unknown? || call.action.action == RequestChanges {
        return P.Refused(P.InvalidAction);
      }
      if ceoThread != P.CeoPaused(arb.ceoInterruptId.value) {
        return P.Refused(P.MissingThread);
      }
      if call.action.action == Approve {
        ceoThread := P.CeoEnded(CeoApproved);
        PersistArbitrationPatch(needed, P.RecordApproval(call.now));
        var how := SynthesizeAndComplete(call.reread, call.now);
        answer := if how == P.Raised then P.Refused(P.FinalizationRaised) else P.CeoDecided(CeoApproved);
      } else {
        ceoThread := P.CeoEnded(CeoRejected);
        PersistArbitrationPatch(needed, P.RecordRejection);
        answer := P.CeoDecided(CeoRejected);
      }
    }
  }

  /** Any delivery or call, so that whole runs of this class are the runs of `RfpProtocol`. */
  method Perform(db: Database, step: P.Step)
    modifies db
    ensures db.Snapshot() == P.Take(old(db.Snapshot()), step)
  {
    match step
    case DeliverIntake(i, outage) => db.ProcessRfp(i, outage);
    case DeliverResponse(run) => db.ProcessRfpResponse(run);
    case DeliverApproval(run) => db.ProcessRfpApproval(run);
    case CallSection(call) => var _ := db.ApplySectionDecision(call);
    case CallCeo(call) => var _ := db.ApplyCeoDecision(call);
  }

  /** A patch applied again changes nothing more. */
  lemma PatchTwice(arb: Arbitration, p: P.CeoPatch)
    ensures P.WithCeoPatch(P.WithCeoPatch(arb, p), p) == P.WithCeoPatch(arb, p)
  {
  }

  function NumberPatches(depts: seq<Dept>, run: P.StartRun): seq<P.EvalPatch> {
    seq(|depts|, i requires 0 <= i < |depts| => P.NO_PATCH.(numbers := Some(P.ExtractedFor(run, depts[i]))))
  }

  function StampPatches(m: P.Metadata, run: P.StartRun, arb: Arbitration): seq<P.EvalPatch> {
    seq(|m.needed|, i requires 0 <= i < |m.needed| =>
      P.StampPatch(arb, P.ExtractedFor(run, m.needed[i]), m.needed[i]))
  }

  function StartSections(s: P.State, m: P.Metadata, run: P.StartRun, arb: Arbitration): seq<Section> {
    seq(|m.needed|, i requires 0 <= i < |m.needed| =>
      P.StartSection(s, arb, P.ExtractedFor(run, m.needed[i]), m.needed[i]))
  }

  /** The commit list of the approval task: the merges, then the flip and the threads. */
  lemma StartCommitsAgree(s: P.State, m: P.Metadata, run: P.StartRun)
    ensures
      var arb := P.StartArbitration(s, m, run);
      var depts := P.NeededInOrder(m);
      P.StartCommits(s, m, run)
      == (MergeCommits(depts, NumberPatches(depts, run)) + MergeCommits(m.needed, StampPatches(m, run, arb)))
         + ([P.SetStatus(WaitingForApproval)] + ThreadCommits(m.needed, StartSections(s, m, run, arb)))
  {
    var arb := P.StartArbitration(s, m, run);
    assert P.NumberCommits(m, run) == MergeCommits(P.NeededInOrder(m), NumberPatches(P.NeededInOrder(m), run));
    assert P.StampCommits(m, run, arb) == MergeCommits(m.needed, StampPatches(m, run, arb));
    assert P.ThreadCommits(s, m, run, arb) == ThreadCommits(m.needed, StartSections(s, m, run, arb));
  }

  function MergeCommits(depts: seq<Dept>, patches: seq<P.EvalPatch>): seq<P.Commit>
    requires |patches| == |depts|
  {
    seq(|depts|, i requires 0 <= i < |depts| => P.Merge(depts[i], patches[i]))
  }

  function ThreadCommits(depts: seq<Dept>, sections: seq<Section>): seq<P.Commit>
    requires |sections| == |depts|
  {
    seq(|depts|, i requires 0 <= i < |depts| => P.StartThread(depts[i], sections[i]))
  }
}
