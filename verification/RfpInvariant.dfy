/**
 The inductive invariant of the approval protocol, kept by every task delivery and every decision.
 */
module RfpInvariant {
  import opened Options
  import opened RfpLifecycle
  import opened RfpArbitration
  import opened RfpThread
  import opened RfpProtocol

  // ---------- the invariant ----------

  function NeededSet(m: Metadata): set<Dept> {
    set d | d in m.needed
  }

  /** Every needed department, and no other, has a row; marketing is always needed. */
  ghost predicate RowsMatchMetadata(s: State) {
    && s.metadata.Some?
    && Marketing in s.metadata.value.needed
    && s.rows.Keys == NeededSet(s.metadata.value)
  }

  /** No decision was taken on the row and no thread was recorded in it. */
  ghost predicate Undecided(r: Row) {
    r.status == StatusPending && r.eval.interruptId == None && r.eval.outcome == None && r.approvedAt == None
  }

  ghost predicate BeforeApproval(s: State) {
    && s.document == None && s.ceoThread == CeoAbsent && s.threads == map[]
    && (forall d :: d in s.rows ==> Undecided(s.rows[d]))
    && (s.status == Analyzing ==> s.rows == map[] || Marketing in s.rows)
    && (s.status != Analyzing && s.status != Discarded ==> RowsMatchMetadata(s))
  }

  /** The record all rows share once approval has started. */
  function SharedArbitration(s: State): Arbitration {
    if Marketing in s.rows && s.rows[Marketing].eval.arbitration.Some?
    then s.rows[Marketing].eval.arbitration.value
    else EMPTY_ARBITRATION
  }

  ghost predicate SameRecordEverywhere(s: State) {
    forall d :: d in s.rows ==> s.rows[d].eval.arbitration == Some(SharedArbitration(s))
  }

  /** The row and the thread of a department tell the same story. */
  ghost predicate RowAgreesWithThread(r: Row, d: Dept, threads: map<Dept, Thread>) {
    match r.status
    case StatusPending =>
      && r.eval.outcome == None && r.approvedAt == None
      && (r.eval.interruptId.Some? ==>
            && d in threads && threads[d].Paused?
            && threads[d].interruptId == r.eval.interruptId.value
            && threads[d].rework <= ITERATION_LIMIT
            && Text(threads[d].section.draft) == Text(r.draft)
            && threads[d].section.numbers == r.eval.numbers)
    case _ =>
      && r.eval.interruptId == None && r.approvedAt.Some?
      && d in threads && threads[d].Ended?
      && r.eval.outcome == Some(threads[d].outcome)
      && r.status == StatusFor(threads[d].outcome)
      && Text(threads[d].section.draft) == Text(r.draft)
  }

  ghost predicate RowsAgreeWithThreads(s: State) {
    forall d :: d in s.rows ==> RowAgreesWithThread(s.rows[d], d, s.threads)
  }

  ghost predicate EveryRowTerminal(s: State) {
    forall d :: d in s.rows ==> RowIsTerminal(s.rows[d])
  }

  /** The document has one section per needed department, with that row's text and stamps. */
  ghost predicate DocumentMatchesRows(s: State)
    requires s.metadata.Some?
  {
    && s.document.Some?
    && s.document.value.sections == SectionsOf(s.rows, NeededInOrder(s.metadata.value))
    && s.document.value.triggers == SharedArbitration(s).triggers
    && s.document.value.ceoLine
       == (if SharedArbitration(s).ceoRequired then SharedArbitration(s).ceoApprovedAt else None)
  }

  ghost predicate CeoGateSound(s: State)
    requires s.metadata.Some?
  {
    var arb := SharedArbitration(s);
    && (arb.ceoInterruptId.Some? ==>
          && arb.ceoRequired && arb.ceoDecision == None && EveryRowTerminal(s)
          && s.ceoThread == CeoPaused(arb.ceoInterruptId.value) && s.status == WaitingForApproval)
    && (arb.ceoDecision.Some? ==>
          && arb.ceoRequired && arb.ceoInterruptId == None && EveryRowTerminal(s)
          && s.ceoThread == CeoEnded(arb.ceoDecision.value))
    && (arb.ceoDecision == Some(CeoApproved) ==> s.status == Done && arb.ceoApprovedAt.Some?)
    && (s.status == Done ==>
          && EveryRowTerminal(s) && DocumentMatchesRows(s)
          && (arb.ceoRequired ==> arb.ceoDecision == Some(CeoApproved)))
    && (s.status == WaitingForApproval ==>
          && s.document == None
          && (EveryRowTerminal(s) ==>
                arb.ceoRequired && (arb.ceoInterruptId.Some? || arb.ceoDecision == Some(CeoRejected))))
  }

  ghost predicate DuringApproval(s: State) {
    && RowsMatchMetadata(s)
    && SameRecordEverywhere(s)
    && RowsAgreeWithThreads(s)
    && CeoGateSound(s)
  }

  ghost predicate InApproval(s: State) {
    s.status == WaitingForApproval || s.status == Done
  }

  ghost predicate Inv(s: State) {
    if InApproval(s) then DuringApproval(s) else BeforeApproval(s)
  }

  // ---------- executing commits ----------

  lemma ExecuteFirst(s: State, c: Commit, rest: seq<Commit>, outage: nat)
    ensures Execute(s, [c] + rest, outage) ==
      if outage == 0 then Progress(s, false)
      else match ApplyCommit(s, c)
           case None => Progress(s, false)
           case Some(next) => Execute(next, rest, outage - 1)
  {
    assert ([c] + rest)[1..] == rest;
  }

  lemma {:induction false} ExecuteConcat(s: State, a: seq<Commit>, b: seq<Commit>, outage: nat)
    ensures
      var p := Execute(s, a, outage);
      && (p.finished ==> |a| <= outage && Execute(s, a + b, outage) == Execute(p.state, b, outage - |a|))
      && (!p.finished ==> Execute(s, a + b, outage) == p)
    decreases |a|
  {
    if a == [] {
      assert a + b == b;
    } else {
      assert (a + b)[0] == a[0] && (a + b)[1..] == a[1..] + b;
      if outage > 0 && ApplyCommit(s, a[0]).Some? {
        ExecuteConcat(ApplyCommit(s, a[0]).value, a[1..], b, outage - 1);
      }
    }
  }

  /** Induction over a commit list: `P(i, t)` holds of the state `t` reached after `i` commits. */
  lemma {:induction false} ExecuteInduction(P: (int, State) -> bool, s: State, commits: seq<Commit>, k: nat,
                                            outage: nat)
    requires k <= |commits| && P(k, s)
    requires forall i: nat, t: State :: k <= i < |commits| && P(i, t) && ApplyCommit(t, commits[i]).Some? ==>
               P(i + 1, ApplyCommit(t, commits[i]).value)
    ensures
      var p := Execute(s, commits[k..], outage);
      && (p.finished ==> P(|commits|, p.state))
      && exists j: nat :: k <= j <= |commits| && P(j, p.state)
    ensures (forall i: nat, t: State :: k <= i < |commits| && P(i, t) ==> ApplyCommit(t, commits[i]).Some?) ==>
              (Execute(s, commits[k..], outage).finished <==> outage >= |commits| - k)
    decreases |commits| - k
  {
    if k < |commits| {
      assert commits[k..] == [commits[k]] + commits[k + 1..];
      ExecuteFirst(s, commits[k], commits[k + 1..], outage);
      if outage > 0 && ApplyCommit(s, commits[k]).Some? {
        ExecuteInduction(P, ApplyCommit(s, commits[k]).value, commits, k + 1, outage - 1);
      }
    } else {
      assert commits[k..] == [];
    }
  }

  /** When every commit goes through, an outage stops the list exactly where it says. */
  lemma {:induction false} ExecuteReaches(P: (int, State) -> bool, s: State, commits: seq<Commit>, k: nat, outage: nat)
    requires k <= |commits| && P(k, s)
    requires forall i: nat, t: State :: k <= i < |commits| && P(i, t) ==>
               ApplyCommit(t, commits[i]).Some? && P(i + 1, ApplyCommit(t, commits[i]).value)
    ensures
      var p := Execute(s, commits[k..], outage);
      && P(if k + outage < |commits| then k + outage else |commits|, p.state)
      && (p.finished <==> outage >= |commits| - k)
    decreases |commits| - k
  {
    if k < |commits| {
      assert commits[k..] == [commits[k]] + commits[k + 1..];
      ExecuteFirst(s, commits[k], commits[k + 1..], outage);
      if outage > 0 {
        ExecuteReaches(P, ApplyCommit(s, commits[k]).value, commits, k + 1, outage - 1);
      }
    } else {
      assert commits[k..] == [];
    }
  }

  /** A commit that writes texts, numbers, stamps or flags, but no decision and no pause. */
  predicate Quiet(c: Commit) {
    || (c.WriteSection? && c.eval.interruptId == None && c.eval.outcome == None)
    || (c.Merge? && c.patch.interruptId == None && c.patch.outcome == None)
  }

  ghost predicate SameExceptTexts(s: State, t: State) {
    && t == s.(rows := t.rows)
    && t.rows.Keys == s.rows.Keys
    && forall d :: d in s.rows ==> Undecided(s.rows[d]) ==> Undecided(t.rows[d])
  }

  ghost predicate SameDrafts(s: State, t: State) {
    forall d :: d in s.rows && d in t.rows ==> t.rows[d].draft == s.rows[d].draft
  }

  lemma QuietCommits(s: State, commits: seq<Commit>, outage: nat)
    requires forall c :: c in commits ==> Quiet(c)
    ensures SameExceptTexts(s, Execute(s, commits, outage).state)
    ensures (forall c :: c in commits ==> c.Merge?) ==> SameDrafts(s, Execute(s, commits, outage).state)
    ensures (forall c :: c in commits ==> Quiet(c) && c.dept in s.rows) ==>
              (Execute(s, commits, outage).finished <==> outage >= |commits|)
  {
    var merges := forall c :: c in commits ==> c.Merge?;
    var P := (i: int, t: State) => SameExceptTexts(s, t) && (merges ==> SameDrafts(s, t));
    forall i: nat, t: State | i < |commits| && P(i, t)
      ensures ApplyCommit(t, commits[i]).Some? ==> P(i + 1, ApplyCommit(t, commits[i]).value)
      ensures Quiet(commits[i]) && (commits[i].dept in s.rows ==> ApplyCommit(t, commits[i]).Some?)
    {
      assert commits[i] in commits;
    }
    assert commits[0..] == commits;
    ExecuteInduction(P, s, commits, 0, outage);
  }

  // ---------- process_rfp ----------

  /**
   A valid intake result replaces the metadata before anything else is checked. It is harmless
   while the ticket is analyzing or discarded, or when it needs the same departments as before.
   */
  ghost predicate HarmlessIntake(s: State, i: Intake, outage: nat) {
    i.IntakeValid? && outage > 0 && s.status != Analyzing && s.status != Discarded ==>
      s.metadata.Some? && NeededSet(i.metadata) == NeededSet(s.metadata.value)
  }

  /** The insert of the rows and the status write after it. */
  lemma InsertUnfolded(s: State, depts: seq<Dept>, outage: nat)
    ensures Execute(s, [InsertRows(depts), SetStatus(IntakeComplete)], outage).state ==
      var t := s.(rows := s.rows + map d | d in depts :: BLANK_ROW);
      if outage == 0 || (exists d :: d in depts && d in s.rows) then s
      else if outage == 1 || s.status != Analyzing then t
      else t.(status := IntakeComplete)
  {
    var insert, finish := InsertRows(depts), SetStatus(IntakeComplete);
    assert [insert, finish] == [insert] + [finish] && [finish] == [finish] + [];
    ExecuteFirst(s, insert, [finish], outage);
    if outage > 0 && ApplyCommit(s, insert).Some? {
      AllowedIsNextStatus(s.status, IntakeComplete);
      ExecuteFirst(ApplyCommit(s, insert).value, finish, [], outage - 1);
    }
  }

  /** The intake delivery, unfolded: metadata, rows, status, and where it stops. */
  lemma IntakeUnfolded(s: State, i: Intake, outage: nat)
    ensures ProcessIntake(s, i, outage) ==
      if !i.IntakeValid? then
        (if outage > 0 && s.status == Analyzing then s.(status := Discarded) else s)
      else
        var s1 := s.(metadata := Some(i.metadata));
        var s2 := s1.(rows := s.rows + map d | d in NeededInOrder(i.metadata) :: BLANK_ROW);
        if outage == 0 then s
        else if outage == 1 || (exists d :: d in NeededInOrder(i.metadata) && d in s.rows) then s1
        else if outage == 2 || s.status != Analyzing then s2
        else s2.(status := IntakeComplete)
  {
    if !i.IntakeValid? {
      ExecuteFirst(s, SetStatus(Discarded), [], outage);
      assert IntakeCommits(i) == [SetStatus(Discarded)] + [];
    } else {
      var depts := NeededInOrder(i.metadata);
      var rest := [InsertRows(depts), SetStatus(IntakeComplete)];
      assert IntakeCommits(i) == [SaveMetadata(i.metadata)] + rest;
      ExecuteFirst(s, SaveMetadata(i.metadata), rest, outage);
      if outage > 0 {
        InsertUnfolded(s.(metadata := Some(i.metadata)), depts, outage - 1);
      }
    }
  }

  lemma MarketingIsSelected(m: Metadata)
    ensures Marketing in m.needed <==> Marketing in NeededInOrder(m)
    ensures forall d :: d in NeededInOrder(m) <==> d in m.needed
  {
    EveryDeptListed(ALL_DEPARTMENTS);
  }

  lemma IntakeKeepsInv(s: State, i: Intake, outage: nat)
    requires Inv(s) && IntakeResult(i) && HarmlessIntake(s, i, outage)
    ensures Inv(ProcessIntake(s, i, outage))
  {
    IntakeUnfolded(s, i, outage);
    if i.IntakeValid? && outage > 0 {
      MarketingIsSelected(i.metadata);
      if s.status == Analyzing || s.status == Discarded {
        IntakeBeforeApproval(s, i, outage, ProcessIntake(s, i, outage));
      } else {
        assert Marketing in s.rows;
        SameNeededKeepsInv(s, i.metadata);
      }
    }
  }

  lemma IntakeRows(s: State, i: Intake, outage: nat, t: State)
    requires t == ProcessIntake(s, i, outage)
    ensures s.rows.Keys <= t.rows.Keys
    ensures forall d :: d in t.rows ==> t.rows[d] == BLANK_ROW || (d in s.rows && t.rows[d] == s.rows[d])
    ensures IntakeResult(i) && t.rows != s.rows ==> Marketing in t.rows
  {
    IntakeUnfolded(s, i, outage);
    if i.IntakeValid? { MarketingIsSelected(i.metadata); }
  }

  lemma IntakeEnds(s: State, i: Intake, outage: nat, t: State)
    requires s.status == Analyzing || s.status == Discarded
    requires i.IntakeValid? && outage > 0 && t == ProcessIntake(s, i, outage)
    ensures t.document == s.document && t.ceoThread == s.ceoThread && t.threads == s.threads
    ensures t.metadata == Some(i.metadata) && (t.status == s.status || t.status == IntakeComplete)
    ensures t.status == IntakeComplete ==> s.status == Analyzing
    ensures t.status == IntakeComplete ==> (forall d :: d in i.metadata.needed ==> d in t.rows && d !in s.rows)
    ensures forall d :: d in t.rows ==> d in s.rows || d in i.metadata.needed
  {
    IntakeUnfolded(s, i, outage);
    MarketingIsSelected(i.metadata);
  }

  lemma IntakeBeforeApproval(s: State, i: Intake, outage: nat, t: State)
    requires BeforeApproval(s) && (s.status == Analyzing || s.status == Discarded)
    requires IntakeResult(i) && i.IntakeValid? && outage > 0 && t == ProcessIntake(s, i, outage)
    ensures BeforeApproval(t) && !InApproval(t)
  {
    IntakeRows(s, i, outage, t);
    IntakeEnds(s, i, outage, t);
    if t.status == IntakeComplete {
      assert s.rows == map[];
      assert t.rows.Keys == NeededSet(i.metadata);
    }
  }

  /** The invariant reads only the set of the needed departments. */
  lemma SameNeededKeepsInv(s: State, m: Metadata)
    requires Inv(s) && s.metadata.Some? && NeededSet(m) == NeededSet(s.metadata.value)
    ensures Inv(s.(metadata := Some(m)))
  {
    var t := s.(metadata := Some(m));
    assert SharedArbitration(t) == SharedArbitration(s);
    assert NeededInOrder(m) == NeededInOrder(s.metadata.value);
    assert Marketing in NeededSet(m) <==> Marketing in m.needed;
  }
}
