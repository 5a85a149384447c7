/** The response and approval tasks: where every delivery lands, and that it keeps the invariant. */
module RfpTaskProofs {
  import opened Options
  import opened RfpLifecycle
  import opened RfpArbitration
  import opened RfpThread
  import opened RfpProtocol
  import opened RfpInvariant

  // ---------- process_rfp_response ----------

  lemma DraftsAreQuiet(drafts: map<Dept, Drafted>, depts: seq<Dept>, c: Commit)
    requires c in DraftCommits(drafts, depts)
    ensures Quiet(c)
  {
    var i :| 0 <= i < |depts| && c == WriteDraft(drafts, depts[i]);
  }

  /** Once drafting, the graph result is written and the status moves on, or it is still drafting. */
  lemma DraftingRun(s: State, drafts: map<Dept, Drafted>, depts: seq<Dept>, outage: nat)
    requires s.status == Drafting
    ensures
      var p := Execute(s, DraftCommits(drafts, depts) + [SetStatus(UnderEvaluation)], outage);
      && SameExceptTexts(s, p.state.(status := s.status))
      && p.state.status == if p.finished then UnderEvaluation else Drafting
  {
    var writes := DraftCommits(drafts, depts);
    forall c | c in writes ensures Quiet(c) { DraftsAreQuiet(drafts, depts, c); }
    QuietCommits(s, writes, outage);
    ExecuteConcat(s, writes, [SetStatus(UnderEvaluation)], outage);
    var p := Execute(s, writes, outage);
    if p.finished {
      assert [SetStatus(UnderEvaluation)] == [SetStatus(UnderEvaluation)] + [];
      ExecuteFirst(p.state, SetStatus(UnderEvaluation), [], outage - |writes|);
    }
  }

  lemma RecoverRow(s: State, depts: seq<Dept>, run: ResponseRun)
    ensures
      var t := Recover(s, depts, run);
      && SameExceptTexts(s, t.(status := s.status))
      && (depts == [] ==> t.rows == s.rows)
      && t.status == if run.recoveryStatusCommits && s.status == Drafting then UnderEvaluation else s.status
  {
    AllowedIsNextStatus(s.status, UnderEvaluation);
    if depts == [] {
      assert Recover(s, depts, run).rows == s.rows;
    }
  }

  /**
   A delivery of the response task only acts on a ticket that is ready for drafting or still
   drafting; every other status, and its sections, are left exactly as they were.
   */
  lemma ResponseLeavesOthersAlone(s: State, run: ResponseRun)
    requires s.status != IntakeComplete && s.status != Drafting
    ensures ProcessResponse(s, run) == s
  {
    AllowedIsNextStatus(s.status, Drafting);
    RecoverRow(s, [], run);
  }

  lemma ResponseFrame(s: State, run: ResponseRun)
    ensures
      var t := ProcessResponse(s, run);
      && SameExceptTexts(s, t.(status := s.status))
      && (t.status != s.status ==> s.status in {IntakeComplete, Drafting} && t.status in {Drafting, UnderEvaluation})
      && Rank(s.status) <= Rank(t.status)
      && (s.status == Drafting ==> t.rows == s.rows)
  {
    AllowedIsNextStatus(s.status, Drafting);
    if run.outage == 0 || UpdateStatus(s, Drafting).None? {
      RecoverRow(s, [], run);
    } else {
      var s1 := UpdateStatus(s, Drafting).value;
      if s1.metadata.None? {
        RecoverRow(s1, [], run);
      } else if run.drafts.None? {
        RecoverRow(s1, s1.metadata.value.needed, run);
      } else {
        var m := s1.metadata.value;
        DraftingRun(s1, run.drafts.value, NeededInOrder(m), run.outage - 1);
        var p := Execute(s1, DraftCommits(run.drafts.value, NeededInOrder(m)) + [SetStatus(UnderEvaluation)],
                         run.outage - 1);
        RecoverRow(p.state, m.needed, run);
      }
    }
  }

  /**
   When the recovery write can commit, the task lands at under_evaluation, with one exception: if
   the very first write (to drafting) fails, the recovery jumps over drafting, which the status
   machine refuses, so the ticket stays at intake_complete although the task reports otherwise.
   */
  lemma ResponseLandsAtEvaluation(s: State, run: ResponseRun)
    requires s.status == IntakeComplete || s.status == Drafting
    requires run.recoveryStatusCommits
    ensures ProcessResponse(s, run).status == UnderEvaluation <==> s.status == Drafting || run.outage > 0
    ensures s.status == IntakeComplete && run.outage == 0 ==> ProcessResponse(s, run) == s
  {
    AllowedIsNextStatus(s.status, Drafting);
    if run.outage == 0 || UpdateStatus(s, Drafting).None? {
      RecoverRow(s, [], run);
    } else {
      var s1 := UpdateStatus(s, Drafting).value;
      if s1.metadata.None? {
        RecoverRow(s1, [], run);
      } else if run.drafts.None? {
        RecoverRow(s1, s1.metadata.value.needed, run);
      } else {
        var m := s1.metadata.value;
        DraftingRun(s1, run.drafts.value, NeededInOrder(m), run.outage - 1);
        var p := Execute(s1, DraftCommits(run.drafts.value, NeededInOrder(m)) + [SetStatus(UnderEvaluation)],
                         run.outage - 1);
        RecoverRow(p.state, m.needed, run);
      }
    }
  }

  lemma ResponseKeepsInv(s: State, run: ResponseRun)
    requires Inv(s)
    ensures Inv(ProcessResponse(s, run))
  {
    if s.status == IntakeComplete || s.status == Drafting {
      ResponseFrame(s, run);
      var t := ProcessResponse(s, run);
      assert t.rows.Keys == s.rows.Keys;
    } else {
      ResponseLeavesOthersAlone(s, run);
    }
  }

  // ---------- process_rfp_approval ----------

  lemma NumbersAreQuiet(m: Metadata, run: StartRun, c: Commit)
    requires c in NumberCommits(m, run)
    ensures Quiet(c) && c.Merge? && c.dept in m.needed
  {
    var depts := NeededInOrder(m);
    var i :| 0 <= i < |depts| && c == Merge(depts[i], NO_PATCH.(numbers := Some(ExtractedFor(run, depts[i]))));
    MarketingIsSelected(m);
    assert depts[i] in depts;
  }

  lemma StampsAreQuiet(m: Metadata, run: StartRun, arb: Arbitration, c: Commit)
    requires c in StampCommits(m, run, arb)
    ensures Quiet(c) && c.Merge? && c.dept in m.needed
  {
    var i :| 0 <= i < |m.needed|
             && c == Merge(m.needed[i], StampPatch(arb, ExtractedFor(run, m.needed[i]), m.needed[i]));
  }

  ghost predicate Stamped(s: State, run: StartRun, arb: Arbitration, d: Dept) {
    d in s.rows && s.rows[d].eval.arbitration == Some(arb) && s.rows[d].eval.numbers == ExtractedFor(run, d)
  }

  lemma StampsApplied(s: State, m: Metadata, run: StartRun, arb: Arbitration, outage: nat)
    ensures
      var p := Execute(s, StampCommits(m, run, arb), outage);
      p.finished ==> forall d :: d in m.needed ==> Stamped(p.state, run, arb, d)
  {
    var commits := StampCommits(m, run, arb);
    var P := (i: int, t: State) => forall j :: 0 <= j < i && j < |m.needed| ==> Stamped(t, run, arb, m.needed[j]);
    forall i: nat, t: State | i < |commits| && P(i, t) && ApplyCommit(t, commits[i]).Some?
      ensures P(i + 1, ApplyCommit(t, commits[i]).value)
    {
      forall j | 0 <= j < i + 1
        ensures Stamped(ApplyCommit(t, commits[i]).value, run, arb, m.needed[j])
      {
        assert j < i ==> Stamped(t, run, arb, m.needed[j]);
      }
    }
    assert commits[0..] == commits;
    ExecuteInduction(P, s, commits, 0, outage);
  }

  /** Approval has been entered, no decision was taken, and the rows still hold what was stamped. */
  ghost predicate Opening(before: State, s: State, m: Metadata, run: StartRun, arb: Arbitration) {
    && s.status == WaitingForApproval && s.metadata == Some(m)
    && DuringApproval(s)
    && (forall d :: d in s.rows ==>
          && s.rows[d].status == StatusPending
          && d in before.rows && s.rows[d].draft == before.rows[d].draft
          && Stamped(s, run, arb, d))
  }

  /** What starting the thread of one department writes. */
  function Opened(s: State, d: Dept, section: Section): State
    requires d in s.rows
  {
    s.(threads := s.threads[d := Paused(section, 0, s.nextId)],
       nextId := s.nextId + 1,
       rows := s.rows[d := s.rows[d].(eval := s.rows[d].eval.(interruptId := Some(s.nextId)))])
  }

  lemma StartThreadOpens(s: State, d: Dept, section: Section)
    requires d in s.rows
    ensures ApplyCommit(s, StartThread(d, section)) == Some(Opened(s, d, section))
  {
  }

  lemma OpenedAgrees(s: State, d: Dept, section: Section)
    requires d in s.rows && s.rows[d].status == StatusPending && RowsAgreeWithThreads(s)
    requires section.numbers == s.rows[d].eval.numbers && Text(section.draft) == Text(s.rows[d].draft)
    ensures RowsAgreeWithThreads(Opened(s, d, section))
  {
    var t := Opened(s, d, section);
    forall e | e in t.rows
      ensures RowAgreesWithThread(t.rows[e], e, t.threads)
    {
      assert RowAgreesWithThread(s.rows[e], e, s.threads);
    }
  }

  /** While some row is open, the CEO gate is closed, and any such state passes the gate's conditions. */
  lemma GateClosedWhileOpen(s: State, d: Dept)
    requires s.metadata.Some? && s.status == WaitingForApproval && s.document == None
    requires d in s.rows && !RowIsTerminal(s.rows[d])
    ensures CeoGateSound(s) <==> SharedArbitration(s).ceoInterruptId == None && SharedArbitration(s).ceoDecision == None
  {
    assert !EveryRowTerminal(s);
  }

  lemma OpenOneThread(before: State, s: State, m: Metadata, run: StartRun, arb: Arbitration, d: Dept)
    requires Opening(before, s, m, run, arb) && d in s.rows
    ensures Opening(before, Opened(s, d, StartSection(before, arb, ExtractedFor(run, d), d)), m, run, arb)
  {
    var section := StartSection(before, arb, ExtractedFor(run, d), d);
    var t := Opened(s, d, section);
    assert Stamped(s, run, arb, d);
    OpenedAgrees(s, d, section);
    OpenedRows(s, d, section);
    GateClosedWhileOpen(s, d);
    GateClosedWhileOpen(t, d);
  }

  /** Opening a thread touches nothing of the rows but one pause id. */
  lemma OpenedRows(s: State, d: Dept, section: Section)
    requires d in s.rows && s.rows[d].status == StatusPending && RowsMatchMetadata(s) && SameRecordEverywhere(s)
    ensures
      var t := Opened(s, d, section);
      && RowsMatchMetadata(t) && SameRecordEverywhere(t) && SharedArbitration(t) == SharedArbitration(s)
      && forall e :: e in s.rows ==> t.rows[e].(eval := t.rows[e].eval.(interruptId := None))
                                     == s.rows[e].(eval := s.rows[e].eval.(interruptId := None))
  {
    assert Opened(s, d, section).rows.Keys == s.rows.Keys;
  }

  predicate PausedRows(s: State, depts: seq<Dept>) {
    forall d :: d in depts ==> d in s.rows && s.rows[d].eval.interruptId.Some?
  }

  lemma ThreadCommitOpens(before: State, s: State, m: Metadata, run: StartRun, arb: Arbitration, i: nat)
    requires i < |m.needed| && m.needed[i] in s.rows
    ensures
      var d := m.needed[i];
      ApplyCommit(s, ThreadCommits(before, m, run, arb)[i])
      == Some(Opened(s, d, StartSection(before, arb, ExtractedFor(run, d), d)))
  {
    StartThreadOpens(s, m.needed[i], StartSection(before, arb, ExtractedFor(run, m.needed[i]), m.needed[i]));
  }

  lemma OpenedIsPaused(s: State, needed: seq<Dept>, i: nat, section: Section)
    requires i < |needed| && needed[i] in s.rows && PausedRows(s, needed[..i])
    ensures PausedRows(Opened(s, needed[i], section), needed[..i + 1])
  {
    assert needed[..i + 1] == needed[..i] + [needed[i]];
  }

  lemma OpenNext(before: State, s: State, m: Metadata, run: StartRun, arb: Arbitration, i: nat)
    requires Opening(before, s, m, run, arb) && i < |m.needed| && PausedRows(s, m.needed[..i])
    ensures
      var d := m.needed[i];
      && d in s.rows
      && var next := Opened(s, d, StartSection(before, arb, ExtractedFor(run, d), d));
      && ApplyCommit(s, ThreadCommits(before, m, run, arb)[i]) == Some(next)
      && Opening(before, next, m, run, arb) && PausedRows(next, m.needed[..i + 1])
  {
    var d := m.needed[i];
    assert d in NeededSet(m);
    ThreadCommitOpens(before, s, m, run, arb, i);
    OpenOneThread(before, s, m, run, arb, d);
    OpenedIsPaused(s, m.needed, i, StartSection(before, arb, ExtractedFor(run, d), d));
  }

  lemma OpenThreads(before: State, s: State, m: Metadata, run: StartRun, arb: Arbitration, outage: nat)
    requires Opening(before, s, m, run, arb)
    ensures
      var p := Execute(s, ThreadCommits(before, m, run, arb), outage);
      && Opening(before, p.state, m, run, arb)
      && (p.finished ==> PausedRows(p.state, m.needed))
      && (p.finished <==> outage >= |m.needed|)
  {
    var commits := ThreadCommits(before, m, run, arb);
    var P := (i: int, t: State) =>
      Opening(before, t, m, run, arb) && 0 <= i <= |m.needed| && PausedRows(t, m.needed[..i]);
    forall i: nat, t: State | i < |commits| && P(i, t)
      ensures ApplyCommit(t, commits[i]).Some? && P(i + 1, ApplyCommit(t, commits[i]).value)
    {
      OpenNext(before, t, m, run, arb, i);
    }
    assert commits[0..] == commits && m.needed[..|m.needed|] == m.needed;
    ExecuteInduction(P, s, commits, 0, outage);
  }

  ghost predicate CompleteStart(s: State) {
    forall d :: d in s.rows ==> s.rows[d].status != StatusPending || s.rows[d].eval.interruptId.Some?
  }

  /** States that differ in review flags only. */
  ghost predicate SameExceptFlags(s: State, t: State) {
    && t == s.(rows := t.rows) && t.rows.Keys == s.rows.Keys
    && forall d :: d in s.rows ==>
         t.rows[d] == s.rows[d].(eval := s.rows[d].eval.(needsReview := t.rows[d].eval.needsReview))
  }

  lemma FlagsKeepGate(s: State, t: State)
    requires SameExceptFlags(s, t) && s.metadata.Some? && CeoGateSound(s)
    ensures SharedArbitration(t) == SharedArbitration(s) && CeoGateSound(t)
  {
    assert forall d :: d in s.rows ==> RowIsTerminal(t.rows[d]) == RowIsTerminal(s.rows[d]);
    assert EveryRowTerminal(t) <==> EveryRowTerminal(s);
    if s.status == Done {
      assert SectionsOf(t.rows, NeededInOrder(t.metadata.value)) == SectionsOf(s.rows, NeededInOrder(s.metadata.value));
    }
  }

  lemma FlaggingFlags(s: State, depts: seq<Dept>, flagged: set<Dept>)
    ensures SameExceptFlags(s, FlagRows(s, depts, flagged))
  {
    assert FlagRows(s, depts, flagged).rows.Keys == s.rows.Keys;
  }

  lemma FlagsKeepApproval(s: State, t: State)
    requires SameExceptFlags(s, t) && DuringApproval(s)
    ensures DuringApproval(t)
  {
    FlagsKeepGate(s, t);
    forall d | d in t.rows
      ensures RowAgreesWithThread(t.rows[d], d, t.threads)
    {
      assert RowAgreesWithThread(s.rows[d], d, s.threads);
    }
  }

  lemma FlaggingKeepsInv(s: State, depts: seq<Dept>, flagged: set<Dept>)
    requires Inv(s)
    ensures Inv(FlagRows(s, depts, flagged)) && SameExceptFlags(s, FlagRows(s, depts, flagged))
  {
    FlaggingFlags(s, depts, flagged);
    if InApproval(s) {
      FlagsKeepApproval(s, FlagRows(s, depts, flagged));
    }
  }

  lemma PreFlipIsQuiet(s: State, m: Metadata, run: StartRun)
    requires RowsMatchMetadata(s) && s.metadata == Some(m)
    ensures forall c :: c in PreFlip(s, m, run) ==> Quiet(c) && c.Merge? && c.dept in s.rows
  {
    var arb := StartArbitration(s, m, run);
    forall c | c in PreFlip(s, m, run)
      ensures Quiet(c) && c.Merge? && c.dept in s.rows
    {
      if c in NumberCommits(m, run) { NumbersAreQuiet(m, run, c); } else { StampsAreQuiet(m, run, arb, c); }
      assert c.dept in NeededSet(m);
    }
  }

  lemma PreFlipStamps(s: State, m: Metadata, run: StartRun)
    ensures
      var p := Execute(s, PreFlip(s, m, run), run.outage);
      p.finished ==> forall d :: d in m.needed ==> Stamped(p.state, run, StartArbitration(s, m, run), d)
  {
    var arb := StartArbitration(s, m, run);
    var numbers, stamps := NumberCommits(m, run), StampCommits(m, run, arb);
    ExecuteConcat(s, numbers, stamps, run.outage);
    var p := Execute(s, numbers, run.outage);
    if p.finished {
      StampsApplied(p.state, m, run, arb, run.outage - |numbers|);
    }
  }

  lemma PreFlipEffect(s: State, m: Metadata, run: StartRun)
    requires RowsMatchMetadata(s) && s.metadata == Some(m)
    ensures
      var p := Execute(s, PreFlip(s, m, run), run.outage);
      && SameExceptTexts(s, p.state) && SameDrafts(s, p.state)
      && (p.finished <==> run.outage >= |PreFlip(s, m, run)|)
  {
    var commits := PreFlip(s, m, run);
    PreFlipIsQuiet(s, m, run);
    QuietCommits(s, commits, run.outage);
  }

  lemma FlipOpens(before: State, s: State, m: Metadata, run: StartRun)
    requires BeforeApproval(before) && before.status == UnderEvaluation && before.metadata == Some(m)
    requires SameExceptTexts(before, s) && SameDrafts(before, s)
    requires forall d :: d in m.needed ==> Stamped(s, run, StartArbitration(before, m, run), d)
    ensures Opening(before, s.(status := WaitingForApproval), m, run, StartArbitration(before, m, run))
  {
    var arb := StartArbitration(before, m, run);
    var t := s.(status := WaitingForApproval);
    assert forall d :: d in t.rows ==> d in NeededSet(m) && d in m.needed && Undecided(t.rows[d]);
    assert Marketing in t.rows && Stamped(t, run, arb, Marketing);
    assert SharedArbitration(t) == arb;
    GateClosedWhileOpen(t, Marketing);
  }

  /** Stopped before the flip, a delivery leaves the ticket under evaluation. */
  lemma ApprovalNotStarted(s: State, run: StartRun)
    requires Inv(s) && s.status == UnderEvaluation
    requires run.outage <= |PreFlip(s, s.metadata.value, run)|
    ensures
      var t := ProcessApproval(s, run);
      Inv(t) && t.metadata == s.metadata && t.status == UnderEvaluation
  {
    var m := s.metadata.value;
    PreFlipEffect(s, m, run);
    StartSplits(s, m, run);
    UnstartedEnds(s, Execute(s, PreFlip(s, m, run), run.outage).state, m, run);
  }

  /**
   What a start past the flip leaves: the ticket waits for approval, no department is decided, and all
   rows carry the arbitration computed from this run's extracts.
   */
  ghost predicate Started(t: State, m: Metadata, arb: Arbitration) {
    && Inv(t) && t.metadata == Some(m) && t.status == WaitingForApproval
    && SharedArbitration(t) == arb
    && forall d :: d in t.rows ==> t.rows[d].status == StatusPending
  }

  /** With no outage every needed department is also paused under the id in its row. */
  lemma ApprovalStarted(s: State, run: StartRun)
    requires Inv(s) && s.status == UnderEvaluation
    requires run.outage > |PreFlip(s, s.metadata.value, run)|
    ensures
      var m := s.metadata.value;
      && Started(ProcessApproval(s, run), m, StartArbitration(s, m, run))
      && (run.outage > |PreFlip(s, m, run)| + |m.needed| ==> CompleteStart(ProcessApproval(s, run)))
  {
    var m := s.metadata.value;
    var arb := StartArbitration(s, m, run);
    var left := run.outage - |PreFlip(s, m, run)| - 1;
    var pre := UpToFlip(s, m, run);
    PreFlipFinishes(s, m, run, pre);
    WholeIsThreads(s, m, run, pre, left);
    ProcessIsWhole(s, m, run);
    AfterFlip(s, m, run, arb, pre, left, WholeStart(s, m, run), ProcessApproval(s, run));
  }

  /** The status write between the stamps and the threads. */
  function Flipped(s: State): State {
    s.(status := WaitingForApproval)
  }

  /** How far the delivery comes up to the status flip, and as a whole. */
  function UpToFlip(s: State, m: Metadata, run: StartRun): Progress {
    Execute(s, PreFlip(s, m, run), run.outage)
  }

  function WholeStart(s: State, m: Metadata, run: StartRun): Progress {
    Execute(s, StartCommits(s, m, run), run.outage)
  }

  /** A start that ends with an outage flags rows for review. */
  function EndOf(p: Progress, m: Metadata, run: StartRun): State {
    if p.finished then p.state else FlagRows(p.state, m.needed, run.flagged)
  }

  /** `t` is how the delivery leaves the ticket after `p`. */
  predicate EndsAs(t: State, p: Progress, m: Metadata, run: StartRun) {
    t == EndOf(p, m, run)
  }

  /** `p` is how far the thread loop comes, from the state at the flip. */
  predicate LoopEndsAs(p: Progress, before: State, at: State, m: Metadata, run: StartRun, arb: Arbitration, left: nat) {
    p == Execute(at, ThreadCommits(before, m, run, arb), left)
  }

  lemma ProcessIsWhole(s: State, m: Metadata, run: StartRun)
    requires s.status == UnderEvaluation && s.metadata == Some(m)
    ensures EndsAs(ProcessApproval(s, run), WholeStart(s, m, run), m, run)
  {
  }

  lemma WholeIsThreads(s: State, m: Metadata, run: StartRun, p: Progress, left: nat)
    requires s.status == UnderEvaluation && p == UpToFlip(s, m, run)
    requires run.outage == |PreFlip(s, m, run)| + 1 + left && p.finished && p.state.status == UnderEvaluation
    ensures LoopEndsAs(WholeStart(s, m, run), s, Flipped(p.state), m, run, StartArbitration(s, m, run), left)
  {
    StartSplits(s, m, run);
  }

  lemma PreFlipFinishes(s: State, m: Metadata, run: StartRun, pre: Progress)
    requires BeforeApproval(s) && s.status == UnderEvaluation && s.metadata == Some(m)
    requires run.outage > |PreFlip(s, m, run)| && pre == UpToFlip(s, m, run)
    ensures pre.finished && pre.state.status == UnderEvaluation
  {
    PreFlipEffect(s, m, run);
  }

  lemma FlipHappens(s: State, m: Metadata, run: StartRun, arb: Arbitration, pre: Progress)
    requires BeforeApproval(s) && s.status == UnderEvaluation && s.metadata == Some(m)
    requires run.outage > |PreFlip(s, m, run)| && pre == UpToFlip(s, m, run)
    requires arb == StartArbitration(s, m, run)
    ensures Opening(s, Flipped(pre.state), m, run, arb)
  {
    PreFlipEffect(s, m, run);
    PreFlipStamps(s, m, run);
    FlipOpens(s, pre.state, m, run);
  }

  lemma LoopStarts(before: State, s: State, m: Metadata, run: StartRun, arb: Arbitration, left: nat, p: Progress,
                   t: State)
    requires Opening(before, s, m, run, arb) && LoopEndsAs(p, before, s, m, run, arb, left) && EndsAs(t, p, m, run)
    ensures Started(t, m, arb) && (left >= |m.needed| ==> CompleteStart(t))
  {
    OpenThreads(before, s, m, run, arb, left);
    StartedEnds(before, p, m, run, arb);
  }

  lemma AfterFlip(s: State, m: Metadata, run: StartRun, arb: Arbitration, pre: Progress, left: nat, p: Progress,
                  t: State)
    requires BeforeApproval(s) && s.status == UnderEvaluation && s.metadata == Some(m)
    requires run.outage > |PreFlip(s, m, run)| && pre == UpToFlip(s, m, run)
    requires arb == StartArbitration(s, m, run)
    requires LoopEndsAs(p, s, Flipped(pre.state), m, run, arb, left) && EndsAs(t, p, m, run)
    ensures Started(t, m, arb) && (left >= |m.needed| ==> CompleteStart(t))
  {
    FlipHappens(s, m, run, arb, pre);
    LoopStarts(s, Flipped(pre.state), m, run, arb, left, p, t);
  }

  lemma FlipSplits(s: State, pre: seq<Commit>, post: seq<Commit>, outage: nat, p: Progress)
    requires p == Execute(s, pre, outage)
    ensures Execute(s, pre + [SetStatus(WaitingForApproval)] + post, outage) ==
      if !p.finished || outage <= |pre| || p.state.status != UnderEvaluation then Progress(p.state, false)
      else Execute(Flipped(p.state), post, outage - |pre| - 1)
  {
    ExecuteMiddle(s, pre, SetStatus(WaitingForApproval), post, outage);
  }

  lemma StartSplits(s: State, m: Metadata, run: StartRun)
    requires s.status == UnderEvaluation
    ensures
      var pre := PreFlip(s, m, run);
      var p := UpToFlip(s, m, run);
      WholeStart(s, m, run) ==
        if !p.finished || run.outage <= |pre| || p.state.status != UnderEvaluation then Progress(p.state, false)
        else Execute(Flipped(p.state), ThreadCommits(s, m, run, StartArbitration(s, m, run)), run.outage - |pre| - 1)
  {
    FlipSplits(s, PreFlip(s, m, run), ThreadCommits(s, m, run, StartArbitration(s, m, run)), run.outage,
               UpToFlip(s, m, run));
  }

  lemma ExecuteMiddle(s: State, pre: seq<Commit>, c: Commit, post: seq<Commit>, outage: nat)
    ensures
      var p := Execute(s, pre, outage);
      Execute(s, pre + [c] + post, outage) ==
        if !p.finished || outage <= |pre| || ApplyCommit(p.state, c).None? then Progress(p.state, false)
        else Execute(ApplyCommit(p.state, c).value, post, outage - |pre| - 1)
  {
    assert pre + [c] + post == pre + ([c] + post);
    ExecuteConcat(s, pre, [c] + post, outage);
    var p := Execute(s, pre, outage);
    if p.finished {
      ExecuteFirst(p.state, c, post, outage - |pre|);
    }
  }

  lemma UnstartedEnds(s: State, t: State, m: Metadata, run: StartRun)
    requires Inv(s) && s.status == UnderEvaluation && SameExceptTexts(s, t)
    ensures Inv(FlagRows(t, m.needed, run.flagged))
  {
    assert Inv(t);
    FlaggingKeepsInv(t, m.needed, run.flagged);
  }

  lemma StartedEnds(before: State, p: Progress, m: Metadata, run: StartRun, arb: Arbitration)
    requires Opening(before, p.state, m, run, arb)
    requires p.finished ==> PausedRows(p.state, m.needed)
    ensures
      var t := if p.finished then p.state else FlagRows(p.state, m.needed, run.flagged);
      && Inv(t) && t.metadata == Some(m) && t.status == WaitingForApproval
      && SharedArbitration(t) == arb
      && (forall d :: d in t.rows ==> t.rows[d].status == StatusPending)
      && (p.finished ==> CompleteStart(t))
  {
    assert Inv(p.state);
    FlaggingKeepsInv(p.state, m.needed, run.flagged);
    assert Stamped(p.state, run, arb, Marketing);
    assert forall d :: d in p.state.rows ==> d in NeededSet(m);
  }

  lemma StartedMovesUp(s: State, t: State, m: Metadata, arb: Arbitration)
    requires s.status == UnderEvaluation && Started(t, m, arb)
    ensures Inv(t) && Rank(s.status) <= Rank(t.status)
  {
  }

  lemma ApprovalKeepsInv(s: State, run: StartRun)
    requires Inv(s)
    ensures Inv(ProcessApproval(s, run))
    ensures Rank(s.status) <= Rank(ProcessApproval(s, run).status)
  {
    if s.status == UnderEvaluation {
      var m := s.metadata.value;
      if run.outage <= |PreFlip(s, m, run)| {
        ApprovalNotStarted(s, run);
      } else {
        ApprovalStarted(s, run);
        StartedMovesUp(s, ProcessApproval(s, run), m, StartArbitration(s, m, run));
      }
    }
  }
}
