/** What the response task stores and what the approval task stamps and shows, field by field. */
module RfpTaskEffects {
  import opened Options
  import opened RfpLifecycle
  import opened RfpArbitration
  import opened RfpThread
  import opened RfpProtocol
  import opened RfpInvariant
  import opened RfpTaskProofs
  import opened RfpDecisionProofs
  import opened RfpTheorems
  import opened RfpProgress
  import opened RfpRedelivery
  import opened RfpOutcomes
  import opened RfpSoundness
  import opened RfpPreparation
  import opened RfpExactSafety

  // ---------- the response task ----------

  /** Apart from the two flags nothing is evaluated in the row. */
  predicate OnlyFlags(e: Eval, ceoFlag: bool, needsReview: bool) {
    && e.ceoFlag == ceoFlag && e.needsReview == needsReview
    && e.numbers == Numbers(None, None, None) && e.forced == None && e.arbiterFeedback == None
    && e.humanFeedback == None && e.arbitration == None && e.interruptId == None && e.outcome == None
  }

  /** The row has the draft and the flags, and the decision fields it had before. */
  predicate HoldsText(before: Row, r: Row, draft: string, ceoFlag: bool, needsReview: bool) {
    && r.draft == Some(draft) && OnlyFlags(r.eval, ceoFlag, needsReview)
    && r.status == before.status && r.approver == before.approver && r.approvedAt == before.approvedAt
  }

  /** The row has what the graph returned for `d`; a department without a draft goes to review. */
  predicate HoldsDraft(before: Row, r: Row, drafts: map<Dept, Drafted>, d: Dept) {
    if d in drafts then HoldsText(before, r, drafts[d].draft, drafts[d].ceoFlag, drafts[d].needsReview)
    else HoldsText(before, r, "", false, true)
  }

  /** After the first `n` writes: their departments hold the drafts, every other row is as before. */
  ghost predicate AfterDrafts(s: State, t: State, drafts: map<Dept, Drafted>, depts: seq<Dept>, n: int) {
    && 0 <= n <= |depts| && t == s.(rows := t.rows) && t.rows.Keys == s.rows.Keys
    && forall d :: d in s.rows ==>
         if d in depts[..n] then HoldsDraft(s.rows[d], t.rows[d], drafts, d) else t.rows[d] == s.rows[d]
  }

  lemma NextDraft(s: State, t: State, drafts: map<Dept, Drafted>, depts: seq<Dept>, i: nat)
    requires AfterDrafts(s, t, drafts, depts, i) && i < |depts| && depts[i] in s.rows
    ensures ApplyCommit(t, DraftCommits(drafts, depts)[i]).Some?
    ensures AfterDrafts(s, ApplyCommit(t, DraftCommits(drafts, depts)[i]).value, drafts, depts, i + 1)
  {
    assert depts[..i + 1] == depts[..i] + [depts[i]];
    assert DraftCommits(drafts, depts)[i] == WriteDraft(drafts, depts[i]);
    var d := depts[i];
    assert HoldsDraft(s.rows[d], t.rows[d], drafts, d) || t.rows[d] == s.rows[d];
  }

  function AtMost(n: nat, limit: nat): nat {
    if n < limit then n else limit
  }

  lemma DraftsStored(s: State, drafts: map<Dept, Drafted>, depts: seq<Dept>, outage: nat)
    requires forall d :: d in depts ==> d in s.rows
    ensures
      var p := Execute(s, DraftCommits(drafts, depts), outage);
      AfterDrafts(s, p.state, drafts, depts, AtMost(outage, |depts|)) && (p.finished <==> outage >= |depts|)
  {
    var commits := DraftCommits(drafts, depts);
    var P := (i: int, t: State) => AfterDrafts(s, t, drafts, depts, i);
    forall i: nat, t: State | i < |commits| && P(i, t)
      ensures ApplyCommit(t, commits[i]).Some? && P(i + 1, ApplyCommit(t, commits[i]).value)
    {
      NextDraft(s, t, drafts, depts, i);
    }
    assert commits[0..] == commits && depts[..0] == [];
    ExecuteReaches(P, s, commits, 0, outage);
  }

  /** What the recovery writes: an empty draft for review, in the rows it reaches. */
  ghost predicate Recovered(s: State, t: State, depts: seq<Dept>, run: ResponseRun) {
    && t.rows.Keys == s.rows.Keys
    && forall d :: d in s.rows ==>
         if d in depts && d in run.recoveredRows then HoldsText(s.rows[d], t.rows[d], "", false, true)
         else t.rows[d] == s.rows[d]
  }

  lemma RecoveryRecovers(s: State, depts: seq<Dept>, run: ResponseRun)
    ensures Recovered(s, Recover(s, depts, run), depts, run)
    ensures Recover(s, depts, run).metadata == s.metadata
    ensures Recover(s, depts, run).status == UnderEvaluation <==>
              s.status == UnderEvaluation || (s.status == Drafting && run.recoveryStatusCommits)
  {
    RecoverRow(s, depts, run);
    assert Recover(s, depts, run).rows.Keys == s.rows.Keys;
  }

  function Chosen(order: seq<Dept>, keys: set<Dept>): set<Dept> {
    set d | d in order && d in keys
  }

  lemma ChosenCons(d: Dept, rest: seq<Dept>, keys: set<Dept>)
    requires d !in rest
    ensures |Chosen([d] + rest, keys)| == |Chosen(rest, keys)| + (if d in keys then 1 else 0)
  {
    assert Chosen([d] + rest, keys) == Chosen(rest, keys) + (if d in keys then {d} else {});
  }

  lemma {:induction false} SelectCounts(order: seq<Dept>, keys: set<Dept>)
    requires forall i, j :: 0 <= i < j < |order| ==> order[i] != order[j]
    ensures |Select(order, keys)| == |Chosen(order, keys)|
  {
    if order == [] {
      assert Chosen(order, keys) == {};
    } else {
      assert order == [order[0]] + order[1..];
      SelectCounts(order[1..], keys);
      ChosenCons(order[0], order[1..], keys);
    }
  }

  lemma NeededCount(m: Metadata)
    ensures |NeededInOrder(m)| == |NeededSet(m)|
  {
    SelectCounts(ALL_DEPARTMENTS, NeededSet(m));
    AllAreChosen(NeededSet(m));
  }

  lemma AllAreChosen(keys: set<Dept>)
    ensures Chosen(ALL_DEPARTMENTS, keys) == keys
  {
    EveryDeptListed(ALL_DEPARTMENTS);
  }

  /** A delivery that commits everything: each needed row holds the draft and the flags that were returned. */
  ghost predicate AllStored(s: State, t: State, run: ResponseRun)
    requires s.metadata.Some? && run.drafts.Some?
  {
    && t.status == UnderEvaluation && t.rows.Keys == s.rows.Keys
    && forall d :: d in s.rows ==>
         if d in s.metadata.value.needed then HoldsDraft(s.rows[d], t.rows[d], run.drafts.value, d)
         else t.rows[d] == s.rows[d]
  }

  /** A delivery that fails on the way: rows of the recovery, rows already drafted, and rows not reached. */
  ghost predicate PartlyStored(s: State, t: State, run: ResponseRun)
    requires s.metadata.Some? && run.outage > 0
  {
    var m := s.metadata.value;
    var written := NeededInOrder(m)[..AtMost(run.outage - 1, |NeededInOrder(m)|)];
    && (t.status == UnderEvaluation <==> run.recoveryStatusCommits) && t.rows.Keys == s.rows.Keys
    && forall d :: d in s.rows ==>
         if d in m.needed && d in run.recoveredRows then HoldsText(s.rows[d], t.rows[d], "", false, true)
         else if run.drafts.Some? && d in written then HoldsDraft(s.rows[d], t.rows[d], run.drafts.value, d)
         else t.rows[d] == s.rows[d]
  }

  lemma StoredThenMoved(s: State, s1: State, m: Metadata, drafts: map<Dept, Drafted>, outage: nat, p: Progress)
    requires s1 == s.(status := Drafting) && forall d :: d in m.needed ==> d in s.rows
    requires p == Execute(s1, DraftCommits(drafts, NeededInOrder(m)) + [SetStatus(UnderEvaluation)], outage)
    ensures AfterDrafts(s, p.state.(status := s.status), drafts, NeededInOrder(m), AtMost(outage, |NeededInOrder(m)|))
    ensures p.finished <==> outage > |NeededInOrder(m)|
    ensures p.state.status == if p.finished then UnderEvaluation else Drafting
  {
    var depts := NeededInOrder(m);
    var commits := DraftCommits(drafts, depts);
    MarketingIsSelected(m);
    DraftsStored(s1, drafts, depts, outage);
    ExecuteConcat(s1, commits, [SetStatus(UnderEvaluation)], outage);
    var q := Execute(s1, commits, outage);
    if q.finished {
      assert [SetStatus(UnderEvaluation)] == [SetStatus(UnderEvaluation)] + [];
      AllowedIsNextStatus(Drafting, UnderEvaluation);
      ExecuteFirst(q.state, SetStatus(UnderEvaluation), [], outage - |depts|);
    }
  }

  lemma CompleteIsStored(s: State, p: State, m: Metadata, run: ResponseRun)
    requires s.metadata == Some(m) && run.drafts.Some? && p.status == UnderEvaluation
    requires AfterDrafts(s, p.(status := s.status), run.drafts.value, NeededInOrder(m), |NeededInOrder(m)|)
    ensures AllStored(s, p, run)
  {
    var depts := NeededInOrder(m);
    MarketingIsSelected(m);
    assert depts[..|depts|] == depts;
  }

  lemma FailureIsPartlyStored(s: State, p: State, m: Metadata, run: ResponseRun, t: State)
    requires s.metadata == Some(m) && run.outage > 0 && p.status == Drafting && t == Recover(p, m.needed, run)
    requires p.rows.Keys == s.rows.Keys
    requires
      var depts := NeededInOrder(m);
      if run.drafts.Some?
      then AfterDrafts(s, p.(status := s.status), run.drafts.value, depts, AtMost(run.outage - 1, |depts|))
      else p.rows == s.rows
    ensures PartlyStored(s, t, run)
  {
    RecoveryRecovers(p, m.needed, run);
  }

  lemma ResponseUnfolds(s: State, run: ResponseRun, s1: State)
    requires s.status == IntakeComplete && s.metadata.Some? && run.outage > 0 && s1 == s.(status := Drafting)
    ensures
      var m := s.metadata.value;
      if run.drafts.None? then ProcessResponse(s, run) == Recover(s1, m.needed, run)
      else
        var p := Execute(s1, DraftCommits(run.drafts.value, NeededInOrder(m)) + [SetStatus(UnderEvaluation)],
                         run.outage - 1);
        ProcessResponse(s, run) == if p.finished then p.state else Recover(p.state, m.needed, run)
  {
    AllowedIsNextStatus(IntakeComplete, Drafting);
  }

  /**
   The response task on a ticket ready for drafting. If every commit is made, each needed row holds what the
   graph returned for it; if the first is not, no row changes; otherwise the recovery takes over.
   */
  lemma ResponseStores(s: State, run: ResponseRun)
    requires s.status == IntakeComplete && s.metadata.Some?
    requires forall d :: d in s.metadata.value.needed ==> d in s.rows
    ensures
      var t := ProcessResponse(s, run);
      && t.metadata == s.metadata
      && (if run.outage == 0 then t.rows == s.rows
          else if run.drafts.Some? && run.outage >= |NeededSet(s.metadata.value)| + 2 then AllStored(s, t, run)
          else PartlyStored(s, t, run))
  {
    var m := s.metadata.value;
    NeededCount(m);
    ResponseFrame(s, run);
    if run.outage == 0 {
      RecoverRow(s, [], run);
    } else {
      var s1 := s.(status := Drafting);
      var t := ProcessResponse(s, run);
      ResponseUnfolds(s, run, s1);
      if run.drafts.None? {
        FailureIsPartlyStored(s, s1, m, run, t);
      } else {
        var p := Execute(s1, DraftCommits(run.drafts.value, NeededInOrder(m)) + [SetStatus(UnderEvaluation)],
                         run.outage - 1);
        StoredThenMoved(s, s1, m, run.drafts.value, run.outage - 1, p);
        if p.finished {
          CompleteIsStored(s, p.state, m, run);
        } else {
          FailureIsPartlyStored(s, p.state, m, run, t);
        }
      }
    }
  }

  // ---------- the start of an approval ----------

  /** What was extracted for a department, or nothing. */
  predicate Extracted(run: StartRun, d: Dept, numbers: Numbers) {
    numbers == if d in run.extracted then run.extracted[d] else Numbers(None, None, None)
  }

  /** The figures that arbitration reads: the extracted numbers and the stored flag of each needed row. */
  ghost predicate FiguresOf(figures: map<Dept, Figures>, rows: map<Dept, Row>, needed: seq<Dept>, run: StartRun) {
    && (forall d :: d in figures <==> d in needed && d in rows)
    && (forall d :: d in figures ==>
          Extracted(run, d, figures[d].numbers) && figures[d].ceoFlag == rows[d].eval.ceoFlag)
  }

  /** The record follows from the rows, the extracted numbers and the budget. */
  ghost predicate RecordFollows(arb: Arbitration, s: State, m: Metadata, run: StartRun) {
    exists figures :: FiguresOf(figures, s.rows, m.needed, run) && Follows(arb, figures, m.budgetCeiling)
  }

  lemma OrderLists(order: RowOrder, figures: map<Dept, Figures>)
    ensures Lists(Select(order, figures.Keys), figures)
  {
    EveryDeptListed(order);
  }

  lemma FiguresAreRead(s: State, m: Metadata, run: StartRun, figures: map<Dept, Figures>)
    requires figures == StartFigures(s, m, run)
    ensures FiguresOf(figures, s.rows, m.needed, run)
  {
  }

  lemma StartArbitrates(s: State, m: Metadata, run: StartRun, figures: map<Dept, Figures>)
    requires figures == StartFigures(s, m, run)
    ensures Lists(Select(run.order, figures.Keys), figures)
    ensures StartArbitration(s, m, run) == Arbitrate(Select(run.order, figures.Keys), figures, m.budgetCeiling)
  {
    OrderLists(run.order, figures);
  }

  lemma StartFollows(s: State, m: Metadata, run: StartRun, arb: Arbitration)
    requires arb == StartArbitration(s, m, run)
    ensures RecordFollows(arb, s, m, run)
  {
    var figures := StartFigures(s, m, run);
    StartArbitrates(s, m, run, figures);
    FiguresAreRead(s, m, run, figures);
    ArbitrationFollows(Select(run.order, figures.Keys), figures, m.budgetCeiling);
    assert FiguresOf(figures, s.rows, m.needed, run) && Follows(arb, figures, m.budgetCeiling);
  }

  /** The stamps of a forced department; an unforced one keeps what it had. */
  ghost predicate Marked(before: Row, r: Row, arb: Arbitration, d: Dept) {
    if d in arb.forced then
      && r.eval.forced == Some(true) && r.eval.arbiterFeedback.Some?
      && forall t :: t in r.eval.arbiterFeedback.value <==> t in arb.triggers && Concerns(t, d)
    else r.eval.forced == before.eval.forced && r.eval.arbiterFeedback == before.eval.arbiterFeedback
  }

  /** The stamps of a row, exactly. */
  predicate StampedAs(before: Row, r: Row, arb: Arbitration, d: Dept) {
    && r.eval.forced == (if d in arb.forced then Some(true) else before.eval.forced)
    && r.eval.arbiterFeedback == (if d in arb.forced then Some(FeedbackFor(arb, d)) else before.eval.arbiterFeedback)
  }

  predicate SameStamps(before: Row, r: Row) {
    r.eval.forced == before.eval.forced && r.eval.arbiterFeedback == before.eval.arbiterFeedback
  }

  predicate AllSameStamps(rows: map<Dept, Row>, rows': map<Dept, Row>) {
    rows'.Keys == rows.Keys && forall d :: d in rows ==> SameStamps(rows[d], rows'[d])
  }

  lemma NumbersKeepStamps(s: State, m: Metadata, run: StartRun, outage: nat)
    ensures AllSameStamps(s.rows, Execute(s, NumberCommits(m, run), outage).state.rows)
  {
    var commits := NumberCommits(m, run);
    var P := (i: int, t: State) => AllSameStamps(s.rows, t.rows);
    forall i: nat, t: State | i < |commits| && P(i, t) && ApplyCommit(t, commits[i]).Some?
      ensures P(i + 1, ApplyCommit(t, commits[i]).value)
    {
      var d := NeededInOrder(m)[i];
      assert commits[i] == Merge(d, NO_PATCH.(numbers := Some(ExtractedFor(run, d))));
    }
    assert commits[0..] == commits;
    ExecuteInduction(P, s, commits, 0, outage);
  }

  /** After the first `n` stamps of `s`: their rows are stamped, the others as before. */
  ghost predicate AfterStamps(s: State, t: State, arb: Arbitration, needed: seq<Dept>, n: int) {
    && 0 <= n <= |needed| && t.rows.Keys == s.rows.Keys
    && forall d :: d in s.rows ==>
         if d in needed[..n] then StampedAs(s.rows[d], t.rows[d], arb, d) else SameStamps(s.rows[d], t.rows[d])
  }

  lemma NextStamp(s: State, t: State, m: Metadata, run: StartRun, arb: Arbitration, i: nat)
    requires AfterStamps(s, t, arb, m.needed, i) && i < |m.needed|
    ensures
      var next := ApplyCommit(t, StampCommits(m, run, arb)[i]);
      next.Some? ==> AfterStamps(s, next.value, arb, m.needed, i + 1)
  {
    var d := m.needed[i];
    assert m.needed[..i + 1] == m.needed[..i] + [d];
    assert StampCommits(m, run, arb)[i] == Merge(d, StampPatch(arb, ExtractedFor(run, d), d));
  }

  lemma StampsStamp(s: State, m: Metadata, run: StartRun, arb: Arbitration, outage: nat)
    ensures
      var p := Execute(s, StampCommits(m, run, arb), outage);
      p.finished ==> AfterStamps(s, p.state, arb, m.needed, |m.needed|)
  {
    var commits := StampCommits(m, run, arb);
    var P := (i: int, t: State) => AfterStamps(s, t, arb, m.needed, i);
    forall i: nat, t: State | i < |commits| && P(i, t) && ApplyCommit(t, commits[i]).Some?
      ensures P(i + 1, ApplyCommit(t, commits[i]).value)
    {
      NextStamp(s, t, m, run, arb, i);
    }
    assert commits[0..] == commits && m.needed[..0] == [];
    ExecuteInduction(P, s, commits, 0, outage);
  }

  /** Every needed row is stamped once the extracts and the stamps are all committed. */
  ghost predicate AllStamped(s: State, t: State, arb: Arbitration, needed: seq<Dept>) {
    t.rows.Keys == s.rows.Keys && forall d :: d in needed && d in s.rows ==> StampedAs(s.rows[d], t.rows[d], arb, d)
  }

  lemma SameThenStamped(s: State, q: State, p: State, arb: Arbitration, needed: seq<Dept>)
    requires AllSameStamps(s.rows, q.rows) && AfterStamps(q, p, arb, needed, |needed|)
    ensures AllStamped(s, p, arb, needed)
  {
    assert needed[..|needed|] == needed;
  }

  lemma PartsMark(s: State, m: Metadata, run: StartRun, arb: Arbitration, q: Progress, p: Progress)
    requires q == Execute(s, NumberCommits(m, run), run.outage)
    requires p == Execute(s, NumberCommits(m, run) + StampCommits(m, run, arb), run.outage)
    ensures p.finished ==> AllStamped(s, p.state, arb, m.needed)
  {
    ExecuteConcat(s, NumberCommits(m, run), StampCommits(m, run, arb), run.outage);
    NumbersKeepStamps(s, m, run, run.outage);
    if q.finished {
      StampsStamp(q.state, m, run, arb, run.outage - |NumberCommits(m, run)|);
      if p.finished { SameThenStamped(s, q.state, p.state, arb, m.needed); }
    }
  }

  lemma PreFlipMarks(s: State, m: Metadata, run: StartRun, arb: Arbitration, p: Progress)
    requires arb == StartArbitration(s, m, run) && p == UpToFlip(s, m, run)
    ensures p.finished ==> AllStamped(s, p.state, arb, m.needed)
  {
    PartsMark(s, m, run, arb, Execute(s, NumberCommits(m, run), run.outage), p);
  }

  // ---------- what the pauses show ----------

  /** The thread of `d` is paused for the first time on the stamped draft, under the id in its row. */
  predicate ShowsStart(before: State, t: State, run: StartRun, arb: Arbitration, d: Dept) {
    && d in t.rows && d in t.threads && t.threads[d].Paused? && t.threads[d].rework == 0
    && t.threads[d].section == StartSection(before, arb, ExtractedFor(run, d), d)
    && t.rows[d].eval.interruptId == Some(t.threads[d].interruptId)
  }

  /** After the first `n` threads of the loop, whose rows are those of `at` but for the pauses. */
  ghost predicate AfterThreads(before: State, at: State, t: State, m: Metadata, run: StartRun, arb: Arbitration, n: int)
  {
    && 0 <= n <= |m.needed| && AllSameStamps(at.rows, t.rows)
    && forall d :: d in m.needed[..n] ==> ShowsStart(before, t, run, arb, d)
  }

  lemma NextThread(before: State, at: State, t: State, m: Metadata, run: StartRun, arb: Arbitration, i: nat)
    requires AfterThreads(before, at, t, m, run, arb, i) && i < |m.needed| && m.needed[i] in at.rows
    ensures
      var next := ApplyCommit(t, ThreadCommits(before, m, run, arb)[i]);
      next.Some? && AfterThreads(before, at, next.value, m, run, arb, i + 1)
  {
    var d := m.needed[i];
    assert m.needed[..i + 1] == m.needed[..i] + [d];
    ThreadCommitOpens(before, t, m, run, arb, i);
  }

  lemma ThreadsShow(before: State, at: State, m: Metadata, run: StartRun, arb: Arbitration, outage: nat)
    requires forall d :: d in m.needed ==> d in at.rows
    ensures
      var p := Execute(at, ThreadCommits(before, m, run, arb), outage);
      p.finished ==> AfterThreads(before, at, p.state, m, run, arb, |m.needed|)
  {
    var commits := ThreadCommits(before, m, run, arb);
    var P := (i: int, t: State) => AfterThreads(before, at, t, m, run, arb, i);
    forall i: nat, t: State | i < |commits| && P(i, t)
      ensures ApplyCommit(t, commits[i]).Some? && P(i + 1, ApplyCommit(t, commits[i]).value)
    {
      NextThread(before, at, t, m, run, arb, i);
    }
    assert commits[0..] == commits && m.needed[..0] == [];
    ExecuteInduction(P, at, commits, 0, outage);
  }

  /** A complete start leaves the stamps and the pauses of every needed department. */
  lemma StartLeaves(s: State, m: Metadata, run: StartRun, arb: Arbitration, t: State)
    requires Preparing(s) && s.status == UnderEvaluation && s.metadata == Some(m) && t == ProcessApproval(s, run)
    requires (forall d :: d in m.needed ==> d in s.rows) && arb == StartArbitration(s, m, run)
    requires run.outage > |PreFlip(s, m, run)| + |m.needed|
    ensures Starting(s, t, run, m, arb)
    ensures forall d :: d in m.needed ==> ShowsStart(s, t, run, arb, d) && StampedAs(s.rows[d], t.rows[d], arb, d)
  {
    var pre, whole := UpToFlip(s, m, run), WholeStart(s, m, run);
    var left := run.outage - |PreFlip(s, m, run)| - 1;
    CompleteStartStarts(s, run, m, t);
    forall c | c in PreFlip(s, m, run)
      ensures Quiet(c) && c.dept in s.rows
    {
      PreFlipIsClean(s, m, run, c);
    }
    QuietCommits(s, PreFlip(s, m, run), run.outage);
    PreFlipMarks(s, m, run, arb, pre);
    WholeIsThreads(s, m, run, pre, left);
    LoopShows(s, Flipped(pre.state), m, run, arb, left, whole);
    ProcessIsWhole(s, m, run);
  }

  lemma LoopShows(before: State, at: State, m: Metadata, run: StartRun, arb: Arbitration, left: nat, p: Progress)
    requires LoopEndsAs(p, before, at, m, run, arb, left) && left >= |m.needed|
    requires (forall d :: d in m.needed ==> d in before.rows) && AllStamped(before, at, arb, m.needed)
    ensures p.finished
    ensures forall d :: d in m.needed ==> d in p.state.rows
    ensures forall d :: d in m.needed ==>
              ShowsStart(before, p.state, run, arb, d) && StampedAs(before.rows[d], p.state.rows[d], arb, d)
  {
    ThreadsShow(before, at, m, run, arb, left);
    ThreadsFinish(before, at, m, run, arb, left);
    assert m.needed[..|m.needed|] == m.needed;
  }

  lemma ThreadsFinish(before: State, at: State, m: Metadata, run: StartRun, arb: Arbitration, outage: nat)
    requires (forall d :: d in m.needed ==> d in at.rows) && outage >= |m.needed|
    ensures Execute(at, ThreadCommits(before, m, run, arb), outage).finished
  {
    var commits := ThreadCommits(before, m, run, arb);
    var P := (i: int, t: State) => t.rows.Keys == at.rows.Keys;
    forall i: nat, t: State | i < |commits| && P(i, t)
      ensures ApplyCommit(t, commits[i]).Some? && P(i + 1, ApplyCommit(t, commits[i]).value)
    {
      ThreadCommitOpens(before, t, m, run, arb, i);
    }
    assert commits[0..] == commits;
    ExecuteInduction(P, at, commits, 0, outage);
  }

  // ---------- the start, in the terms of the ticket ----------

  /** `d` promises fewer than ten days of setup. */
  predicate PromisesTooSoon(s: State, m: Metadata, run: StartRun, d: Dept, days: real) {
    && d in m.needed && d in s.rows && d in run.extracted
    && run.extracted[d].setupDays == Some(days) && days < 10.0
  }

  /** Procurement costs more than operaciones asks per cover. */
  predicate CostsMore(s: State, m: Metadata, run: StartRun, price: real, cost: real) {
    && Operaciones in m.needed && Operaciones in s.rows && Operaciones in run.extracted
    && Procurement in m.needed && Procurement in s.rows && Procurement in run.extracted
    && run.extracted[Operaciones].pricePerCover == Some(price)
    && run.extracted[Procurement].cost == Some(cost) && cost > price
  }

  /** The rules that ask `d` for changes. */
  ghost predicate Forced(s: State, m: Metadata, run: StartRun, d: Dept) {
    || (exists days :: PromisesTooSoon(s, m, run, d, days))
    || (d in {Operaciones, Procurement} && exists price, cost :: CostsMore(s, m, run, price, cost))
  }

  /** Each trigger of the record states a fact of the ticket, and each fact has its trigger. */
  ghost predicate TriggersState(arb: Arbitration, s: State, m: Metadata, run: StartRun) {
    && (forall d, days :: SetupSlaBreach(d, days) in arb.triggers <==> PromisesTooSoon(s, m, run, d, days))
    && (forall price, cost :: CostVsFeasibility(price, cost) in arb.triggers <==> CostsMore(s, m, run, price, cost))
    && (forall t: Trigger :: t.CeoThreshold? ==>
          (t in arb.triggers <==>
             && arb.ceoRequired && t.ceiling == m.budgetCeiling
             && t.fromBudget == BudgetAsks(m) && t.fromSections == SectionAsks(s, m)))
    && (arb.ceoRequired <==> BudgetAsks(m) || SectionAsks(s, m))
  }

  /** A stamped row: the record, the extracted numbers and what is asked of the department; the draft is kept. */
  ghost predicate Stamps(before: Row, r: Row, arb: Arbitration, run: StartRun, d: Dept) {
    && r.eval.arbitration == Some(arb) && Extracted(run, d, r.eval.numbers) && Marked(before, r, arb, d)
    && r.draft == before.draft && r.status == StatusPending
  }

  /** The first pause of a department shows what its row holds, under the id in the row. */
  ghost predicate PausedOn(r: Row, thread: Thread, arb: Arbitration, d: Dept) {
    && thread.Paused? && r.eval.interruptId == Some(thread.interruptId)
    && OnPause(thread).draft == r.draft && OnPause(thread).numbers == r.eval.numbers
    && OnPause(thread).reworkCount == 0 && (OnPause(thread).forced <==> d in arb.forced)
    && (if d in arb.forced then OnPause(thread).arbiterFeedback == r.eval.arbiterFeedback
        else OnPause(thread).arbiterFeedback == None)
  }

  /** The ticket waits for approval with every needed row stamped and every needed department paused. */
  ghost predicate StartsWith(s: State, t: State, m: Metadata, run: StartRun, arb: Arbitration) {
    && t.status == WaitingForApproval && t.metadata == Some(m)
    && (forall d :: d in m.needed ==> d in s.rows && d in t.rows && Stamps(s.rows[d], t.rows[d], arb, run, d))
    && (forall d :: d in m.needed ==> d in t.rows && d in t.threads && PausedOn(t.rows[d], t.threads[d], arb, d))
  }

  /** The budget ceiling is over 50000. */
  predicate BudgetAsks(m: Metadata) {
    m.budgetCeiling.Some? && m.budgetCeiling.value > 50000.0
  }

  /** Some needed row was drafted with a flag for the CEO. */
  predicate SectionAsks(s: State, m: Metadata) {
    exists d :: d in m.needed && d in s.rows && s.rows[d].eval.ceoFlag
  }

  lemma SetupIsStated(arb: Arbitration, s: State, m: Metadata, run: StartRun, figures: map<Dept, Figures>, d: Dept,
                      days: real)
    requires FiguresOf(figures, s.rows, m.needed, run) && Follows(arb, figures, m.budgetCeiling)
    ensures SetupSlaBreach(d, days) in arb.triggers <==> PromisesTooSoon(s, m, run, d, days)
  {
    assert SetupSlaBreach(d, days) in arb.triggers <==> Breaches(figures, d, days);
  }

  lemma ClashIsStated(arb: Arbitration, s: State, m: Metadata, run: StartRun, figures: map<Dept, Figures>,
                      price: real, cost: real)
    requires FiguresOf(figures, s.rows, m.needed, run) && Follows(arb, figures, m.budgetCeiling)
    ensures CostVsFeasibility(price, cost) in arb.triggers <==> CostsMore(s, m, run, price, cost)
  {
    assert CostVsFeasibility(price, cost) in arb.triggers <==> Clashes(figures, price, cost);
  }

  lemma FlagIsStated(s: State, m: Metadata, run: StartRun, figures: map<Dept, Figures>)
    requires FiguresOf(figures, s.rows, m.needed, run)
    ensures Flagged(figures) <==> SectionAsks(s, m)
  {
  }

  lemma CeoIsStated(arb: Arbitration, s: State, m: Metadata, run: StartRun, figures: map<Dept, Figures>, t: Trigger)
    requires FiguresOf(figures, s.rows, m.needed, run) && Follows(arb, figures, m.budgetCeiling) && t.CeoThreshold?
    ensures t in arb.triggers <==>
              && arb.ceoRequired && t.ceiling == m.budgetCeiling
              && t.fromBudget == BudgetAsks(m) && t.fromSections == SectionAsks(s, m)
    ensures arb.ceoRequired <==> BudgetAsks(m) || SectionAsks(s, m)
  {
    FlagIsStated(s, m, run, figures);
    assert t in arb.triggers <==> Founded(t, figures, m.budgetCeiling);
  }

  lemma RecordStates(arb: Arbitration, s: State, m: Metadata, run: StartRun, figures: map<Dept, Figures>)
    requires FiguresOf(figures, s.rows, m.needed, run) && Follows(arb, figures, m.budgetCeiling)
    ensures TriggersState(arb, s, m, run)
  {
    forall d, days
      ensures SetupSlaBreach(d, days) in arb.triggers <==> PromisesTooSoon(s, m, run, d, days)
    {
      SetupIsStated(arb, s, m, run, figures, d, days);
    }
    forall price, cost
      ensures CostVsFeasibility(price, cost) in arb.triggers <==> CostsMore(s, m, run, price, cost)
    {
      ClashIsStated(arb, s, m, run, figures, price, cost);
    }
    forall t: Trigger | t.CeoThreshold?
      ensures t in arb.triggers <==>
              && arb.ceoRequired && t.ceiling == m.budgetCeiling
              && t.fromBudget == BudgetAsks(m) && t.fromSections == SectionAsks(s, m)
    {
      CeoIsStated(arb, s, m, run, figures, t);
    }
    CeoIsStated(arb, s, m, run, figures, CeoThreshold(None, false, false));
  }

  /** A department is forced when it promises too few setup days, or when the two sections clash. */
  lemma ForcedIsStated(arb: Arbitration, s: State, m: Metadata, run: StartRun, figures: map<Dept, Figures>, d: Dept)
    requires FiguresOf(figures, s.rows, m.needed, run) && Follows(arb, figures, m.budgetCeiling)
    ensures d in arb.forced <==> Forced(s, m, run, d)
  {
    assert forall days :: Breaches(figures, d, days) <==> PromisesTooSoon(s, m, run, d, days);
    assert forall price, cost :: Clashes(figures, price, cost) <==> CostsMore(s, m, run, price, cost);
  }

  lemma FeedbackIs(arb: Arbitration, s: State, m: Metadata, run: StartRun, d: Dept)
    requires arb == StartArbitration(s, m, run) && d in arb.forced
    ensures forall t :: t in FeedbackFor(arb, d) <==> t in arb.triggers && Concerns(t, d)
  {
    var figures := StartFigures(s, m, run);
    StartArbitrates(s, m, run, figures);
    ForcedIffNamed(Select(run.order, figures.Keys), figures, m.budgetCeiling, d);
    forall t
      ensures t in Concerning(arb.triggers, d) <==> t in arb.triggers && Concerns(t, d)
    {
      ConcerningFindsAll(arb.triggers, d, t);
    }
    var t :| t in arb.triggers && Concerns(t, d);
    assert t in Concerning(arb.triggers, d);
  }

  lemma StampIs(s: State, t: State, m: Metadata, run: StartRun, arb: Arbitration, d: Dept)
    requires Starting(s, t, run, m, arb) && arb == StartArbitration(s, m, run) && d in m.needed
    requires d in s.rows && ShowsStart(s, t, run, arb, d) && StampedAs(s.rows[d], t.rows[d], arb, d)
    ensures Stamps(s.rows[d], t.rows[d], arb, run, d) && PausedOn(t.rows[d], t.threads[d], arb, d)
  {
    assert Startable(s, t, run, m, arb, d) && Stamped(t, run, arb, d);
    if d in arb.forced { FeedbackIs(arb, s, m, run, d); }
  }

  lemma NoCeoFields(arb: Arbitration, s: State, m: Metadata, run: StartRun)
    requires RecordFollows(arb, s, m, run)
    ensures arb.ceoDecision == None && arb.ceoApprovedAt == None && arb.ceoInterruptId == None
  {
  }

  lemma PreFlipLength(s: State, m: Metadata, run: StartRun)
    ensures |PreFlip(s, m, run)| == |NeededSet(m)| + |m.needed|
  {
    NeededCount(m);
  }

  /**
   A complete start of a prepared ticket: it waits for approval, and one record, which follows from the
   budget, the flags in the rows and the extracted numbers, is stamped on each needed row; each needed
   department is paused on its draft with the extracted numbers and what the record asks of it.
   */
  lemma StartStampsAndShows(s: State, run: StartRun) returns (arb: Arbitration)
    requires Preparing(s) && s.status == UnderEvaluation && s.metadata.Some?
    requires forall d :: d in s.metadata.value.needed ==> d in s.rows
    requires run.outage > |NeededSet(s.metadata.value)| + 2 * |s.metadata.value.needed|
    ensures
      var m := s.metadata.value;
      && arb.ceoDecision == None && arb.ceoApprovedAt == None && arb.ceoInterruptId == None
      && TriggersState(arb, s, m, run)
      && (forall d :: d in arb.forced <==> Forced(s, m, run, d))
      && StartsWith(s, ProcessApproval(s, run), m, run, arb)
  {
    var m := s.metadata.value;
    arb := StartArbitration(s, m, run);
    var t := ProcessApproval(s, run);
    StartFollows(s, m, run, arb);
    NoCeoFields(arb, s, m, run);
    var figures :| FiguresOf(figures, s.rows, m.needed, run) && Follows(arb, figures, m.budgetCeiling);
    RecordStates(arb, s, m, run, figures);
    forall d
      ensures d in arb.forced <==> Forced(s, m, run, d)
    {
      ForcedIsStated(arb, s, m, run, figures, d);
    }
    PreFlipLength(s, m, run);
    StartLeaves(s, m, run, arb, t);
    LeavesStarted(s, t, m, run, arb);
  }

  lemma LeavesStarted(s: State, t: State, m: Metadata, run: StartRun, arb: Arbitration)
    requires Starting(s, t, run, m, arb) && arb == StartArbitration(s, m, run)
    requires forall d :: d in m.needed ==> d in s.rows && ShowsStart(s, t, run, arb, d)
    requires forall d :: d in m.needed ==> StampedAs(s.rows[d], t.rows[d], arb, d)
    ensures StartsWith(s, t, m, run, arb)
  {
    forall d | d in m.needed
      ensures d in s.rows && d in t.rows && Stamps(s.rows[d], t.rows[d], arb, run, d)
      ensures d in t.threads && PausedOn(t.rows[d], t.threads[d], arb, d)
    {
      StampIs(s, t, m, run, arb, d);
    }
  }

  // ---------- the intake task ----------

  /** A row as it is inserted: nothing drafted, evaluated or decided. */
  predicate IsNew(r: Row) {
    && r.draft == None && OnlyFlags(r.eval, false, false)
    && r.status == StatusPending && r.approver == None && r.approvedAt == None
  }

  /** The rows of the needed departments are new; every other row is as before. */
  ghost predicate RowsAdded(rows: map<Dept, Row>, rows': map<Dept, Row>, needed: seq<Dept>) {
    && (forall d :: d in rows' <==> d in rows || d in needed)
    && (forall d :: d in rows' ==> if d in needed then IsNew(rows'[d]) else rows'[d] == rows[d])
  }

  /** None of the departments has a row yet. */
  ghost predicate NoneStored(s: State, needed: seq<Dept>) {
    forall d :: d in needed ==> d !in s.rows
  }

  lemma InsertAdds(rows: map<Dept, Row>, m: Metadata, rows': map<Dept, Row>)
    requires rows' == rows + map d | d in NeededInOrder(m) :: BLANK_ROW
    ensures RowsAdded(rows, rows', m.needed)
  {
    SelectsNeeded(m);
  }

  lemma ClashIsNeeded(s: State, m: Metadata)
    ensures NoneStored(s, m.needed) <==> !exists d :: d in NeededInOrder(m) && d in s.rows
  {
    SelectsNeeded(m);
  }

  /** What differs between the tickets is in the metadata, the rows or the status. */
  predicate SameBesidesIntake(s: State, t: State) {
    t.threads == s.threads && t.document == s.document && t.ceoThread == s.ceoThread && t.nextId == s.nextId
  }

  /** A failed validation discards a ticket in analysis and writes nothing else. */
  lemma InvalidIntakeDiscards(s: State, i: Intake, outage: nat, t: State)
    requires t == ProcessIntake(s, i, outage) && !i.IntakeValid?
    ensures SameBesidesIntake(s, t) && t.metadata == s.metadata && t.rows == s.rows
    ensures t.status == if outage > 0 && s.status == Analyzing then Discarded else s.status
  {
    IntakeUnfolded(s, i, outage);
  }

  /**
   A valid result: the metadata, the rows and the status are three writes in this order, the rows are
   added together or not at all, and the status moves from analysis only.
   */
  lemma IntakeStores(s: State, m: Metadata, outage: nat, t: State)
    requires t == ProcessIntake(s, IntakeValid(m), outage)
    ensures SameBesidesIntake(s, t) && t.metadata == if outage == 0 then s.metadata else Some(m)
    ensures outage <= 1 || !NoneStored(s, m.needed) ==> t.rows == s.rows && t.status == s.status
    ensures outage > 1 && NoneStored(s, m.needed) ==>
              && RowsAdded(s.rows, t.rows, m.needed)
              && t.status == if outage > 2 && s.status == Analyzing then IntakeComplete else s.status
  {
    IntakeUnfolded(s, IntakeValid(m), outage);
    ClashIsNeeded(s, m);
    if outage > 1 && NoneStored(s, m.needed) { InsertAdds(s.rows, m, t.rows); }
  }

  lemma SelectsNeeded(m: Metadata)
    ensures forall d :: d in NeededInOrder(m) <==> d in m.needed
  {
    EveryDeptListed(ALL_DEPARTMENTS);
  }

  // ---------- a start that is cut short ----------

  /** Drafts, review flags and CEO flags are as before. */
  predicate SameText(r: Row, r': Row) {
    r'.draft == r.draft && r'.eval.needsReview == r.eval.needsReview && r'.eval.ceoFlag == r.eval.ceoFlag
  }

  ghost predicate AllSameText(rows: map<Dept, Row>, rows': map<Dept, Row>) {
    rows'.Keys == rows.Keys && forall d :: d in rows ==> SameText(rows[d], rows'[d])
  }

  /** A commit that writes no text and no flag for people. */
  predicate Silent(c: Commit) {
    c.SetStatus? || c.StartThread? || (c.Merge? && c.patch.needsReview == None)
  }

  lemma SilentCommit(s: State, c: Commit)
    requires Silent(c) && ApplyCommit(s, c).Some?
    ensures AllSameText(s.rows, ApplyCommit(s, c).value.rows)
  {
  }

  lemma SilentCommits(s: State, commits: seq<Commit>, outage: nat)
    requires forall c :: c in commits ==> Silent(c)
    ensures AllSameText(s.rows, Execute(s, commits, outage).state.rows)
  {
    var P := (i: int, t: State) => AllSameText(s.rows, t.rows);
    forall i: nat, t: State | i < |commits| && P(i, t) && ApplyCommit(t, commits[i]).Some?
      ensures P(i + 1, ApplyCommit(t, commits[i]).value)
    {
      SilentCommit(t, commits[i]);
    }
    assert commits[0..] == commits;
    ExecuteInduction(P, s, commits, 0, outage);
  }

  lemma StartIsSilent(s: State, m: Metadata, run: StartRun, c: Commit)
    requires c in StartCommits(s, m, run)
    ensures Silent(c)
  {
    var arb := StartArbitration(s, m, run);
    if c in StampCommits(m, run, arb) {
      var i :| 0 <= i < |m.needed| && c == StampCommits(m, run, arb)[i];
      assert c == Merge(m.needed[i], StampPatch(arb, ExtractedFor(run, m.needed[i]), m.needed[i]));
    }
  }

  lemma {:induction false} TooShort(s: State, commits: seq<Commit>, outage: nat)
    requires outage < |commits|
    ensures !Execute(s, commits, outage).finished
    decreases |commits|
  {
    if outage > 0 && ApplyCommit(s, commits[0]).Some? {
      TooShort(ApplyCommit(s, commits[0]).value, commits[1..], outage - 1);
    }
  }

  lemma FlagsFlag(s: State, depts: seq<Dept>, flagged: set<Dept>, t: State)
    requires t == FlagRows(s, depts, flagged)
    ensures t.rows.Keys == s.rows.Keys && t.status == s.status
    ensures forall d :: d in s.rows ==>
              && t.rows[d].draft == s.rows[d].draft && t.rows[d].eval.ceoFlag == s.rows[d].eval.ceoFlag
              && t.rows[d].eval.needsReview == ((d in depts && d in flagged) || s.rows[d].eval.needsReview)
  {
  }

  /**
   A start that does not make all its writes keeps every draft and every CEO flag, and asks for a review
   of exactly the needed rows that its recovery reaches.
   */
  lemma CutStartFlags(s: State, run: StartRun)
    requires s.status == UnderEvaluation && s.metadata.Some?
    requires run.outage <= |NeededSet(s.metadata.value)| + 2 * |s.metadata.value.needed|
    ensures
      var t := ProcessApproval(s, run);
      && t.rows.Keys == s.rows.Keys
      && forall d :: d in s.rows ==>
           && t.rows[d].draft == s.rows[d].draft && t.rows[d].eval.ceoFlag == s.rows[d].eval.ceoFlag
           && (t.rows[d].eval.needsReview <==>
                 (d in s.metadata.value.needed && d in run.flagged) || s.rows[d].eval.needsReview)
  {
    var m := s.metadata.value;
    var p := WholeStart(s, m, run);
    PreFlipLength(s, m, run);
    TooShort(s, StartCommits(s, m, run), run.outage);
    forall c | c in StartCommits(s, m, run)
      ensures Silent(c)
    {
      StartIsSilent(s, m, run, c);
    }
    SilentCommits(s, StartCommits(s, m, run), run.outage);
    ProcessIsWhole(s, m, run);
    FlagsFlag(p.state, m.needed, run.flagged, ProcessApproval(s, run));
  }
}
