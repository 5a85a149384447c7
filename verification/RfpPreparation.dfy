/**
 From upload to the end of approval when redelivered intakes may change the needed departments at any time:
 which intakes and which starts keep finished tickets sound, exactly.
 */
module RfpPreparation {
  import opened Options
  import opened RfpLifecycle
  import opened RfpArbitration
  import opened RfpThread
  import opened RfpProtocol
  import opened RfpInvariant
  import opened RfpTaskProofs
  import opened RfpDecisionProofs
  import opened RfpTheorems
  import opened RfpProgress
  import opened RfpRedelivery
  import opened RfpOutcomes
  import opened RfpSoundness

  // ---------- before approval ----------

  /** No row is decided, paused or asked for; rows and metadata may name different departments. */
  ghost predicate Preparing(s: State) {
    && !InApproval(s)
    && (forall d :: d in s.rows ==> Undecided(s.rows[d])) && AllUntouched(s.rows)
    && (s.status == Analyzing ==> s.rows == map[] || Marketing in s.rows)
    && (s.status != Analyzing && s.status != Discarded ==>
          s.metadata.Some? && Marketing in s.metadata.value.needed && Marketing in s.rows)
  }

  lemma IntakeStatus(s: State, i: Intake, outage: nat, t: State)
    requires Preparing(s) && IntakeResult(i) && t == ProcessIntake(s, i, outage)
    ensures !InApproval(t) && (t.status == Analyzing ==> s.status == Analyzing)
    ensures t.status != Analyzing && t.status != Discarded ==>
              t.metadata.Some? && Marketing in t.metadata.value.needed && Marketing in t.rows
  {
    IntakeUnfolded(s, i, outage);
    if i.IntakeValid? { MarketingIsSelected(i.metadata); }
  }

  lemma IntakeKeepsPreparing(s: State, i: Intake, outage: nat, t: State)
    requires Preparing(s) && IntakeResult(i) && t == ProcessIntake(s, i, outage)
    ensures Preparing(t)
  {
    IntakeRows(s, i, outage, t);
    IntakeStatus(s, i, outage, t);
  }

  // ---------- writes that leave no trace of the CEO gate ----------

  predicate UntouchedEval(e: Eval) {
    e.arbitration.Some? ==> e.arbitration.value.ceoInterruptId == None && e.arbitration.value.ceoDecision == None
  }

  /** A commit whose record, if it writes one, has no CEO fields. */
  predicate Clean(c: Commit) {
    && (c.WriteSection? ==> UntouchedEval(c.eval))
    && (c.Merge? && c.patch.arbitration.Some? ==>
          c.patch.arbitration.value.ceoInterruptId == None && c.patch.arbitration.value.ceoDecision == None)
  }

  lemma CleanCommitStaysUntouched(s: State, c: Commit)
    requires AllUntouched(s.rows) && Clean(c)
    ensures ApplyCommit(s, c).Some? ==> AllUntouched(ApplyCommit(s, c).value.rows)
  {
  }

  lemma CleanCommits(s: State, commits: seq<Commit>, outage: nat)
    requires AllUntouched(s.rows) && forall c :: c in commits ==> Clean(c)
    ensures AllUntouched(Execute(s, commits, outage).state.rows)
  {
    var P := (i: int, t: State) => AllUntouched(t.rows);
    forall i: nat, t: State | i < |commits| && P(i, t)
      ensures ApplyCommit(t, commits[i]).Some? ==> P(i + 1, ApplyCommit(t, commits[i]).value)
    {
      assert commits[i] in commits;
      CleanCommitStaysUntouched(t, commits[i]);
    }
    assert commits[0..] == commits;
    ExecuteInduction(P, s, commits, 0, outage);
  }

  lemma RecoverStaysUntouched(s: State, depts: seq<Dept>, run: ResponseRun)
    requires AllUntouched(s.rows)
    ensures AllUntouched(Recover(s, depts, run).rows)
  {
  }

  lemma DraftsAreClean(drafts: map<Dept, Drafted>, depts: seq<Dept>)
    ensures forall c :: c in DraftCommits(drafts, depts) + [SetStatus(UnderEvaluation)] ==> Clean(c)
  {
  }

  lemma ResponseStaysUntouched(s: State, run: ResponseRun)
    requires AllUntouched(s.rows)
    ensures AllUntouched(ProcessResponse(s, run).rows)
  {
    if run.outage == 0 || UpdateStatus(s, Drafting).None? {
      RecoverStaysUntouched(s, [], run);
    } else {
      var s1 := UpdateStatus(s, Drafting).value;
      if s1.metadata.None? {
        RecoverStaysUntouched(s1, [], run);
      } else if run.drafts.None? {
        RecoverStaysUntouched(s1, s1.metadata.value.needed, run);
      } else {
        var m := s1.metadata.value;
        var commits := DraftCommits(run.drafts.value, NeededInOrder(m)) + [SetStatus(UnderEvaluation)];
        DraftsAreClean(run.drafts.value, NeededInOrder(m));
        CleanCommits(s1, commits, run.outage - 1);
        RecoverStaysUntouched(Execute(s1, commits, run.outage - 1).state, m.needed, run);
      }
    }
  }

  lemma ResponseKeepsPreparing(s: State, run: ResponseRun, t: State)
    requires Preparing(s) && t == ProcessResponse(s, run)
    ensures Preparing(t)
  {
    ResponseStaysUntouched(s, run);
    if s.status == IntakeComplete || s.status == Drafting {
      ResponseFrame(s, run);
      assert t.rows.Keys == s.rows.Keys && t.metadata == s.metadata;
    } else {
      ResponseLeavesOthersAlone(s, run);
    }
  }

  // ---------- up to the flip ----------

  lemma PreFlipIsClean(s: State, m: Metadata, run: StartRun, c: Commit)
    requires c in PreFlip(s, m, run)
    ensures Quiet(c) && c.Merge? && c.dept in m.needed && Clean(c)
  {
    var arb := StartArbitration(s, m, run);
    if c in NumberCommits(m, run) {
      NumbersAreQuiet(m, run, c);
      var depts := NeededInOrder(m);
      var i :| 0 <= i < |depts| && c == Merge(depts[i], NO_PATCH.(numbers := Some(ExtractedFor(run, depts[i]))));
    } else {
      StampsAreQuiet(m, run, arb, c);
      var i :| 0 <= i < |m.needed|
               && c == Merge(m.needed[i], StampPatch(arb, ExtractedFor(run, m.needed[i]), m.needed[i]));
    }
  }

  /** The rows of departments that are not needed are not written. */
  predicate OthersKept(rows: map<Dept, Row>, rows': map<Dept, Row>, needed: seq<Dept>) {
    rows'.Keys == rows.Keys && forall d :: d in rows && d !in needed ==> rows'[d] == rows[d]
  }

  lemma MergesKeepOthers(s: State, commits: seq<Commit>, needed: seq<Dept>, outage: nat)
    requires forall c :: c in commits ==> c.Merge? && c.dept in needed
    ensures OthersKept(s.rows, Execute(s, commits, outage).state.rows, needed)
  {
    var P := (i: int, t: State) => OthersKept(s.rows, t.rows, needed);
    forall i: nat, t: State | i < |commits| && P(i, t) && ApplyCommit(t, commits[i]).Some?
      ensures P(i + 1, ApplyCommit(t, commits[i]).value)
    {
      assert commits[i] in commits;
    }
    assert commits[0..] == commits;
    ExecuteInduction(P, s, commits, 0, outage);
  }

  /** What the extracts and stamps leave, wherever they stop. */
  ghost predicate PreFlipped(s: State, p: State, m: Metadata) {
    && SameExceptTexts(s, p) && SameDrafts(s, p) && AllUntouched(p.rows) && OthersKept(s.rows, p.rows, m.needed)
  }

  lemma PreFlipLeaves(s: State, m: Metadata, run: StartRun, p: Progress)
    requires AllUntouched(s.rows) && p == UpToFlip(s, m, run)
    ensures PreFlipped(s, p.state, m)
    ensures p.finished ==> forall d :: d in m.needed ==> Stamped(p.state, run, StartArbitration(s, m, run), d)
  {
    var commits := PreFlip(s, m, run);
    forall c | c in commits
      ensures Quiet(c) && c.Merge? && c.dept in m.needed && Clean(c)
    {
      PreFlipIsClean(s, m, run, c);
    }
    QuietCommits(s, commits, run.outage);
    CleanCommits(s, commits, run.outage);
    MergesKeepOthers(s, commits, m.needed, run.outage);
    PreFlipStamps(s, m, run);
  }

  // ---------- past the flip ----------

  /** A row of a ticket whose threads are being started. */
  ghost predicate Startable(before: State, s: State, run: StartRun, m: Metadata, arb: Arbitration, d: Dept) {
    && d in s.rows && d in before.rows
    && s.rows[d].status == StatusPending && s.rows[d].draft == before.rows[d].draft && Untouched(s.rows[d])
    && (if d in m.needed then Stamped(s, run, arb, d)
        else s.rows[d].eval.interruptId == None && s.rows[d].eval.arbitration == before.rows[d].eval.arbitration)
  }

  ghost predicate Starting(before: State, s: State, run: StartRun, m: Metadata, arb: Arbitration) {
    && s.status == WaitingForApproval && s.metadata == Some(m)
    && Marketing in m.needed && (forall d :: d in m.needed ==> d in s.rows)
    && RowsAgreeWithThreads(s)
    && forall d :: d in s.rows ==> Startable(before, s, run, m, arb, d)
  }

  lemma FlippedRow(before: State, s: State, t: State, m: Metadata, run: StartRun, arb: Arbitration, d: Dept)
    requires d in before.rows && Undecided(before.rows[d]) && PreFlipped(before, s, m) && t == Flipped(s)
    requires d in m.needed ==> Stamped(s, run, arb, d)
    ensures Startable(before, t, run, m, arb, d) && RowAgreesWithThread(t.rows[d], d, t.threads)
  {
    assert Undecided(s.rows[d]) && Untouched(s.rows[d]);
  }

  lemma FlipStarts(before: State, s: State, t: State, m: Metadata, run: StartRun, arb: Arbitration)
    requires Preparing(before) && before.status == UnderEvaluation && before.metadata == Some(m)
    requires PreFlipped(before, s, m) && t == Flipped(s)
    requires forall d :: d in m.needed ==> Stamped(s, run, arb, d)
    ensures Starting(before, t, run, m, arb)
  {
    forall d | d in t.rows
      ensures Startable(before, t, run, m, arb, d) && RowAgreesWithThread(t.rows[d], d, t.threads)
    {
      FlippedRow(before, s, t, m, run, arb, d);
    }
  }

  lemma OpenedKeepsStartable(before: State, s: State, run: StartRun, m: Metadata, arb: Arbitration, d: Dept, e: Dept)
    requires Startable(before, s, run, m, arb, e) && d in s.rows && d in m.needed
    ensures Startable(before, Opened(s, d, StartSection(before, arb, ExtractedFor(run, d), d)), run, m, arb, e)
  {
  }

  lemma OpenKeepsStarting(before: State, s: State, run: StartRun, m: Metadata, arb: Arbitration, d: Dept)
    requires Starting(before, s, run, m, arb) && d in m.needed
    ensures Starting(before, Opened(s, d, StartSection(before, arb, ExtractedFor(run, d), d)), run, m, arb)
  {
    var section := StartSection(before, arb, ExtractedFor(run, d), d);
    var t := Opened(s, d, section);
    assert Startable(before, s, run, m, arb, d);
    OpenedAgrees(s, d, section);
    assert t.rows.Keys == s.rows.Keys;
    forall e | e in t.rows
      ensures Startable(before, t, run, m, arb, e)
    {
      OpenedKeepsStartable(before, s, run, m, arb, d, e);
    }
  }

  lemma StartNext(before: State, s: State, run: StartRun, m: Metadata, arb: Arbitration, i: nat)
    requires Starting(before, s, run, m, arb) && i < |m.needed| && PausedRows(s, m.needed[..i])
    ensures
      var d := m.needed[i];
      && d in s.rows
      && var next := Opened(s, d, StartSection(before, arb, ExtractedFor(run, d), d));
      && ApplyCommit(s, ThreadCommits(before, m, run, arb)[i]) == Some(next)
      && Starting(before, next, run, m, arb) && PausedRows(next, m.needed[..i + 1])
  {
    var d := m.needed[i];
    ThreadCommitOpens(before, s, m, run, arb, i);
    OpenKeepsStarting(before, s, run, m, arb, d);
    OpenedIsPaused(s, m.needed, i, StartSection(before, arb, ExtractedFor(run, d), d));
  }

  lemma StartThreads(before: State, s: State, run: StartRun, m: Metadata, arb: Arbitration, outage: nat, p: Progress)
    requires Starting(before, s, run, m, arb) && p == Execute(s, ThreadCommits(before, m, run, arb), outage)
    ensures Starting(before, p.state, run, m, arb)
    ensures p.finished <==> outage >= |m.needed|
    ensures p.finished ==> PausedRows(p.state, m.needed)
  {
    var commits := ThreadCommits(before, m, run, arb);
    var P := (i: int, t: State) =>
      Starting(before, t, run, m, arb) && 0 <= i <= |m.needed| && PausedRows(t, m.needed[..i]);
    forall i: nat, t: State | i < |commits| && P(i, t)
      ensures ApplyCommit(t, commits[i]).Some? && P(i + 1, ApplyCommit(t, commits[i]).value)
    {
      StartNext(before, t, run, m, arb, i);
    }
    assert commits[0..] == commits && m.needed[..|m.needed|] == m.needed;
    ExecuteInduction(P, s, commits, 0, outage);
  }

  lemma FlagsKeepStarting(before: State, s: State, run: StartRun, m: Metadata, arb: Arbitration, depts: seq<Dept>,
                          flagged: set<Dept>)
    requires Starting(before, s, run, m, arb)
    ensures Starting(before, FlagRows(s, depts, flagged), run, m, arb)
  {
    var t := FlagRows(s, depts, flagged);
    forall d | d in t.rows
      ensures Startable(before, t, run, m, arb, d) && RowAgreesWithThread(t.rows[d], d, t.threads)
    {
      assert Startable(before, s, run, m, arb, d) && RowAgreesWithThread(s.rows[d], d, s.threads);
    }
  }

  /**
   A start is safe if no record that an earlier, crashed start left in a department no longer needed
   lacks the CEO requirement that this start computes.
   */
  ghost predicate SafeStart(s: State, run: StartRun) {
    s.status == UnderEvaluation && s.metadata.Some? ==>
      forall d :: d in s.rows && d !in s.metadata.value.needed && Recorded(s.rows[d]) ==>
        StartArbitration(s, s.metadata.value, run).ceoRequired ==> Requires(s.rows[d])
  }

  lemma StartableIsSound(before: State, s: State, run: StartRun, m: Metadata, arb: Arbitration, d: Dept)
    requires Startable(before, s, run, m, arb, d)
    requires d !in m.needed && Recorded(before.rows[d]) && arb.ceoRequired ==> Requires(before.rows[d])
    ensures RowSound(s.rows[d], arb.ceoRequired) && Untouched(s.rows[d])
    ensures d in m.needed ==> Recorded(s.rows[d]) && Requires(s.rows[d]) == arb.ceoRequired
  {
  }

  lemma StartingIsSound(before: State, s: State, run: StartRun, m: Metadata, arb: Arbitration)
    requires Starting(before, s, run, m, arb) && before.status == UnderEvaluation && before.metadata == Some(m)
    requires arb == StartArbitration(before, m, run) && SafeStart(before, run)
    ensures SoundApproval(s)
  {
    forall d | d in s.rows
      ensures RowSound(s.rows[d], arb.ceoRequired) && Untouched(s.rows[d])
      ensures d in m.needed ==> Recorded(s.rows[d]) && Requires(s.rows[d]) == arb.ceoRequired
    {
      assert Startable(before, s, run, m, arb, d);
      StartableIsSound(before, s, run, m, arb, d);
    }
    UntouchedIsGateSound(s);
  }

  /** The delivery stops before the flip and flags rows, or starts threads. */
  lemma StartLeads(s: State, run: StartRun, m: Metadata, t: State)
    requires Preparing(s) && s.status == UnderEvaluation && s.metadata == Some(m) && t == ProcessApproval(s, run)
    ensures Preparing(t) || Starting(s, t, run, m, StartArbitration(s, m, run))
  {
    var pre := UpToFlip(s, m, run);
    PreFlipLeaves(s, m, run, pre);
    StartSplits(s, m, run);
    if !pre.finished || run.outage <= |PreFlip(s, m, run)| {
      FlagsKeepPreparing(s, pre.state, m, run.flagged);
    } else {
      StartedLeads(s, run, m, pre, WholeStart(s, m, run), t);
    }
  }

  lemma FlagsKeepPreparing(s: State, p: State, m: Metadata, flagged: set<Dept>)
    requires Preparing(s) && PreFlipped(s, p, m)
    ensures Preparing(FlagRows(p, m.needed, flagged))
  {
    var t := FlagRows(p, m.needed, flagged);
    assert t.rows.Keys == s.rows.Keys;
    forall d | d in t.rows
      ensures Undecided(t.rows[d]) && Untouched(t.rows[d])
    {
      assert Undecided(s.rows[d]) && Undecided(p.rows[d]) && Untouched(p.rows[d]);
    }
  }

  lemma LoopLeads(before: State, at: State, m: Metadata, run: StartRun, arb: Arbitration, left: nat, p: Progress,
                  t: State)
    requires Starting(before, at, run, m, arb) && LoopEndsAs(p, before, at, m, run, arb, left) && EndsAs(t, p, m, run)
    ensures Starting(before, t, run, m, arb) && (left >= |m.needed| ==> PausedRows(t, m.needed))
  {
    StartThreads(before, at, run, m, arb, left, p);
    FlagsKeepStarting(before, p.state, run, m, arb, m.needed, run.flagged);
  }

  lemma StartedLeads(s: State, run: StartRun, m: Metadata, pre: Progress, whole: Progress, t: State)
    requires Preparing(s) && s.status == UnderEvaluation && s.metadata == Some(m)
    requires pre == UpToFlip(s, m, run) && pre.finished && run.outage > |PreFlip(s, m, run)|
    requires whole == WholeStart(s, m, run) && EndsAs(t, whole, m, run)
    ensures Starting(s, t, run, m, StartArbitration(s, m, run))
    ensures run.outage > |PreFlip(s, m, run)| + |m.needed| ==> PausedRows(t, m.needed)
  {
    var arb, left := StartArbitration(s, m, run), run.outage - |PreFlip(s, m, run)| - 1;
    PreFlipLeaves(s, m, run, pre);
    WholeIsThreads(s, m, run, pre, left);
    FlipStarts(s, pre.state, Flipped(pre.state), m, run, arb);
    LoopLeads(s, Flipped(pre.state), m, run, arb, left, whole, t);
  }

  lemma StartKeepsSound(s: State, run: StartRun, t: State)
    requires Preparing(s) && SafeStart(s, run) && t == ProcessApproval(s, run)
    ensures Preparing(t) || SoundApproval(t)
  {
    if s.status == UnderEvaluation {
      var m := s.metadata.value;
      StartLeads(s, run, m, t);
      if Starting(s, t, run, m, StartArbitration(s, m, run)) {
        StartingIsSound(s, t, run, m, StartArbitration(s, m, run));
      }
    }
  }

  // ---------- safe runs ----------

  /** Any intake before approval, safe ones during approval, safe starts; every other step is free. */
  ghost predicate Safe(s: State, step: Step) {
    && ValidStep(step)
    && (step.DeliverIntake? && step.intake.IntakeValid? && step.outage > 0 ==> SafeIntake(s, step.intake.metadata))
    && (step.DeliverApproval? ==> SafeStart(s, step.start))
  }

  ghost predicate SafeRun(s: State, steps: seq<Step>)
    decreases |steps|
  {
    steps == [] || (Safe(s, steps[0]) && SafeRun(Take(s, steps[0]), steps[1..]))
  }

  lemma TaskKeepsSound(s: State, step: Step, t: State)
    requires SoundApproval(s) && Safe(s, step) && !step.CallSection? && !step.CallCeo? && t == Take(s, step)
    ensures SoundApproval(t)
  {
    TasksOnlyWriteMetadata(s, step);
    if step.DeliverIntake? && t.metadata != s.metadata { MetadataKeepsSound(s, step.intake.metadata, t); }
  }

  lemma ApprovalStepKeepsSound(s: State, step: Step, t: State)
    requires SoundApproval(s) && Safe(s, step) && t == Take(s, step)
    ensures SoundApproval(t)
  {
    if step.CallSection? {
      SectionKeepsSound(s, step.section, t);
    } else if step.CallCeo? {
      CeoKeepsSound(s, step.ceo, t);
    } else {
      TaskKeepsSound(s, step, t);
    }
  }

  lemma SafeStepKeeps(s: State, step: Step, t: State)
    requires (Preparing(s) || SoundApproval(s)) && Safe(s, step) && t == Take(s, step)
    ensures Preparing(t) || SoundApproval(t)
  {
    if SoundApproval(s) {
      ApprovalStepKeepsSound(s, step, t);
    } else {
      match step
      case DeliverIntake(i, outage) => IntakeKeepsPreparing(s, i, outage, t);
      case DeliverResponse(run) => ResponseKeepsPreparing(s, run, t);
      case DeliverApproval(run) => StartKeepsSound(s, run, t);
      case CallSection(call) =>
      case CallCeo(call) =>
    }
  }

  lemma {:induction false} SafeRunKeeps(s: State, steps: seq<Step>)
    requires (Preparing(s) || SoundApproval(s)) && SafeRun(s, steps)
    ensures Preparing(Run(s, steps)) || SoundApproval(Run(s, steps))
    decreases |steps|
  {
    if steps != [] {
      SafeStepKeeps(s, steps[0], Take(s, steps[0]));
      SafeRunKeeps(Take(s, steps[0]), steps[1..]);
    }
  }

  /** A ticket that is done after a safe run is soundly done. */
  lemma DoneIsSound(steps: seq<Step>)
    requires SafeRun(NEW_TICKET, steps)
    ensures Run(NEW_TICKET, steps).status == Done ==> SoundlyDone(Run(NEW_TICKET, steps))
  {
    SafeRunKeeps(NEW_TICKET, steps);
  }
}
