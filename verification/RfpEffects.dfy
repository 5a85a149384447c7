/** What the tasks and the decisions leave in a ticket, field by field. */
module RfpEffects {
  import opened Options
  import opened RfpLifecycle
  import opened RfpArbitration
  import opened RfpThread
  import opened RfpProtocol
  import opened RfpInvariant
  import opened RfpTaskProofs
  import opened RfpDecisionProofs
  import opened RfpTheorems
  import opened RfpProgress
  import opened RfpRedelivery
  import opened RfpOutcomes
  import opened RfpSoundness
  import opened RfpPreparation
  import opened RfpExactSafety

  // ---------- a section decision ----------

  /** Nothing of the ticket but the row and the thread of `d` differs. */
  ghost predicate OnlyDepartment(s: State, t: State, d: Dept) {
    && t.status == s.status && t.metadata == s.metadata && t.document == s.document && t.ceoThread == s.ceoThread
    && t.rows.Keys == s.rows.Keys && t.threads.Keys == s.threads.Keys + {d}
    && (forall e :: e in s.rows && e != d ==> t.rows[e] == s.rows[e])
    && (forall e :: e in s.threads && e != d ==> t.threads[e] == s.threads[e])
  }

  /** The department waits again, under a new pause that its row names, one rework further. */
  ghost predicate WaitsAgain(s: State, t: State, d: Dept)
    requires AwaitsAnswer(s, d)
  {
    && d in t.rows && d in t.threads && t.threads[d].Paused? && t.threads[d].interruptId == s.nextId < t.nextId
    && t.rows[d].eval.interruptId == Some(s.nextId)
    && OnPause(t.threads[d]).reworkCount == OnPause(s.threads[d]).reworkCount + 1
    && !OnPause(t.threads[d]).forced
    && OnPause(t.threads[d]).arbiterFeedback == OnPause(s.threads[d]).arbiterFeedback
  }

  /** What the arbiter asked for, as the next prompt reads it from the row. */
  function AskedFor(row: Row, thread: Thread): Option<seq<Trigger>> {
    if thread.section.arbiterFeedback.Some? then thread.section.arbiterFeedback else row.eval.arbiterFeedback
  }

  /** The text and the numbers that the row holds and the new pause shows. */
  ghost predicate HoldsAndShows(t: State, d: Dept, text: string, numbers: Numbers) {
    && d in t.rows && t.rows[d].draft == Some(text) && t.rows[d].eval.numbers == numbers
    && d in t.threads && t.threads[d].Paused?
    && OnPause(t.threads[d]).draft == Some(text) && OnPause(t.threads[d]).numbers == numbers
  }

  /** The feedback that the row keeps for the next prompt. */
  function FeedbackAfter(row: Row, thread: Thread, feedback: Option<string>): Option<string> {
    if feedback.Some? && feedback.value != "" then feedback
    else if thread.section.humanFeedback.Some? then thread.section.humanFeedback
    else row.eval.humanFeedback
  }

  /** Of the row, the decision, the record and the forced stamp are as before; the flags are set anew. */
  ghost predicate RestOfRowKept(s: State, t: State, d: Dept, ceiling: Option<real>)
    requires d in s.rows && d in t.rows
  {
    var r, r' := s.rows[d], t.rows[d];
    && r'.status == r.status && r'.approver == r.approver && r'.approvedAt == r.approvedAt
    && r'.eval.outcome == r.eval.outcome && r'.eval.arbitration == r.eval.arbitration && r'.eval.forced == r.eval.forced
    && !r'.eval.needsReview && (r'.eval.ceoFlag <==> ceiling.Some? && ceiling.value > 50000.0)
  }

  /** The text and numbers of the reply, or the old text; without a reply there are no numbers. */
  ghost predicate TakesReply(t: State, d: Dept, before: string, reply: Reply) {
    match reply
    case Failed => HoldsAndShows(t, d, before, Numbers(None, None, None))
    case Replied(text, numbers) => HoldsAndShows(t, d, if text != "" then text else before, numbers)
  }

  lemma ReworkMoves(s: State, call: SectionCall, t: State)
    requires AwaitsAnswer(s, call.dept) && (call.action == Known(Reject) || call.action == Known(RequestChanges))
    requires s.threads[call.dept].rework < 3 && t == Reworked(s, call)
    ensures Resumed(s, call).threads[call.dept].Paused?
    ensures OnlyDepartment(s, t, call.dept) && WaitsAgain(s, t, call.dept)
  {
  }

  lemma ReworkTakesReply(s: State, call: SectionCall, t: State)
    requires AwaitsAnswer(s, call.dept) && (call.action == Known(Reject) || call.action == Known(RequestChanges))
    requires s.threads[call.dept].rework < 3 && t == Reworked(s, call)
    ensures TakesReply(t, call.dept, Text(s.rows[call.dept].draft), call.reply)
  {
  }

  /** What the row and the thread keep for the next prompt, and what else the row keeps. */
  ghost predicate KeepsRequests(s: State, t: State, d: Dept, feedback: Option<string>)
    requires d in s.rows && d in s.threads && d in t.rows && d in t.threads
  {
    && t.rows[d].eval.humanFeedback == FeedbackAfter(s.rows[d], s.threads[d], feedback)
    && t.rows[d].eval.arbiterFeedback == AskedFor(s.rows[d], s.threads[d])
    && t.threads[d].section.humanFeedback
       == (if Text(feedback) != "" then feedback else s.threads[d].section.humanFeedback)
  }

  lemma ReworkKeepsRequests(s: State, call: SectionCall, t: State)
    requires AwaitsAnswer(s, call.dept) && call.dept in s.metadata.value.needed
    requires call.action == Known(Reject) || call.action == Known(RequestChanges)
    requires s.threads[call.dept].rework < 3 && t == Reworked(s, call)
    ensures call.dept in t.rows && call.dept in t.threads
    ensures KeepsRequests(s, t, call.dept, call.feedback)
    ensures RestOfRowKept(s, t, call.dept, s.metadata.value.budgetCeiling)
  {
  }

  /**
   An answer other than an approval, below the limit of three reworks: the new text and numbers are in the
   row and are what the next pause shows; an empty or failed reply keeps the old text; feedback is kept.
   */
  lemma ReworkWrites(s: State, call: SectionCall)
    requires AwaitsAnswer(s, call.dept) && call.dept in s.metadata.value.needed
    requires call.action == Known(Reject) || call.action == Known(RequestChanges)
    requires s.threads[call.dept].rework < 3
    ensures
      var (t, answer) := DecideSection(s, call);
      var d := call.dept;
      && answer == PendingReapproval && OnlyDepartment(s, t, d) && WaitsAgain(s, t, d)
      && TakesReply(t, d, Text(s.rows[d].draft), call.reply) && KeepsRequests(s, t, d, call.feedback)
      && RestOfRowKept(s, t, d, s.metadata.value.budgetCeiling)
  {
    DecideUnfolds(s, call);
    var t := Reworked(s, call);
    ReworkMoves(s, call, t);
    ReworkTakesReply(s, call, t);
    ReworkKeepsRequests(s, call, t);
  }

  /** The person who signs for a department. */
  predicate SignedBy(d: Dept, approver: Option<string>) {
    match d
    case Marketing => approver == Some("Camila Ospina")
    case Operaciones => approver == Some("Felipe Guerrero")
    case Procurement => approver == Some("Lucía Fernández")
    case Training => approver == Some("Jake Morrison")
  }

  /** What closes a row: the decision with its stamps, no pause, and the text and numbers as they were. */
  ghost predicate ClosedAs(s: State, t: State, d: Dept, approved: bool, now: Time) {
    && d in s.rows && d in t.rows
    && t.rows[d].status == (if approved then StatusApproved else StatusRejected)
    && t.rows[d].eval.outcome == Some(if approved then OutcomeApproved else OutcomeExhausted)
    && SignedBy(d, t.rows[d].approver) && t.rows[d].approvedAt == Some(now)
    && t.rows[d].eval.interruptId == None
    && t.rows[d].draft == s.rows[d].draft && t.rows[d].eval.numbers == s.rows[d].eval.numbers
    && t.rows[d].eval.ceoFlag == s.rows[d].eval.ceoFlag && t.rows[d].eval.needsReview == s.rows[d].eval.needsReview
    && t.rows[d].eval.humanFeedback == s.rows[d].eval.humanFeedback
    && d in s.threads && d in t.threads && t.threads[d].Ended? && t.threads[d].section == s.threads[d].section
  }

  /** An approval, or any other answer after three reworks, closes the row of its department and no other. */
  lemma AnswerCloses(s: State, call: SectionCall)
    requires AwaitsAnswer(s, call.dept) && call.action.Known? && call.dept in s.metadata.value.needed
    requires call.action.action == Approve || s.threads[call.dept].rework >= 3
    ensures
      var (t, answer) := DecideSection(s, call);
      var approved := call.action.action == Approve;
      && ClosedAs(s, t, call.dept, approved, call.now)
      && (answer == Refused(FinalizationRaised)
          || (answer.Decided? && (answer.outcome == OutcomeApproved <==> approved)))
      && (forall e :: e in s.rows && e != call.dept ==> RowKept(s, t, e))
  {
    var base := AdmittedCall(s, call);
    var t, d := DecideSection(s, call).0, call.dept;
    assert d in base.rows;
    assert OnlyRecord(base.rows[d], t.rows[d]);
    forall e | e in s.rows && e != d
      ensures RowKept(s, t, e)
    {
      AnsweredKeepsOthers(s, base, t, call, e);
    }
  }

  /** Every refusal of the section endpoint, in the order of its guards. */
  lemma SectionRefusals(s: State, call: SectionCall)
    ensures
      var why := DecideSection(s, call).1;
      var d := call.dept;
      var waits := s.status == WaitingForApproval;
      var needed := s.metadata.Some? && d in s.metadata.value.needed;
      var paused := d in s.rows && s.rows[d].eval.interruptId.Some?;
      && (why == Refused(WrongStatus) <==> !waits)
      && (why == Refused(MissingMetadata) <==> waits && s.metadata.None?)
      && (why == Refused(NotNeeded) <==> waits && s.metadata.Some? && !needed)
      && (why == Refused(MissingSection) <==> waits && needed && d !in s.rows)
      && (why == Refused(MissingInterrupt) <==> waits && needed && d in s.rows && !paused)
      && (why == Refused(InvalidAction) <==> waits && needed && paused && call.action.Unknown?)
      && (why == Refused(MissingThread) <==> waits && needed && paused && call.action.Known? && d !in s.threads)
      && why != Refused(CeoNotRequired)
  {
  }

  // ---------- the document ----------

  function Position(d: Dept): nat {
    match d
    case Marketing => 0
    case Operaciones => 1
    case Procurement => 2
    case Training => 3
  }

  /** A section repeats the row of its department, under the department's own name. */
  ghost predicate SectionPresents(c: DocSection, rows: map<Dept, Row>) {
    && c.dept in rows && SignedBy(c.dept, Some(c.owner))
    && c.draft == rows[c.dept].draft && c.approvedAt == rows[c.dept].approvedAt
    && (rows[c.dept].approver.Some? ==> rows[c.dept].approver == Some(c.approver))
  }

  predicate InOrder(depts: seq<Dept>) {
    forall i, j :: 0 <= i < j < |depts| ==> Position(depts[i]) < Position(depts[j])
  }

  predicate SectionsInOrder(sections: seq<DocSection>) {
    forall i, j :: 0 <= i < j < |sections| ==> Position(sections[i].dept) < Position(sections[j].dept)
  }

  /** One section for each needed department and no other, in the fixed order, each repeating its row. */
  ghost predicate Presents(doc: Document, rows: map<Dept, Row>, needed: seq<Dept>) {
    && (forall c :: c in doc.sections ==> c.dept in needed && SectionPresents(c, rows))
    && (forall d :: d in needed ==> exists c :: c in doc.sections && c.dept == d)
    && SectionsInOrder(doc.sections)
  }

  lemma InOrderCons(d: Dept, rest: seq<Dept>)
    requires InOrder(rest) && forall e :: e in rest ==> Position(d) < Position(e)
    ensures InOrder([d] + rest)
  {
    var all := [d] + rest;
    forall i, j | 0 <= i < j < |all|
      ensures Position(all[i]) < Position(all[j])
    {
      assert all[j] == rest[j - 1] && all[j] in rest;
    }
  }

  lemma {:induction false} SelectKeepsOrder(order: seq<Dept>, keys: set<Dept>)
    requires (forall i, j :: 0 <= i < j < |order| ==> order[i] != order[j]) && InOrder(order)
    ensures InOrder(Select(order, keys))
  {
    if order != [] {
      assert order == [order[0]] + order[1..];
      SelectKeepsOrder(order[1..], keys);
      var rest := Select(order[1..], keys);
      if order[0] in keys {
        InOrderCons(order[0], rest);
      } else {
        assert [] + rest == rest;
      }
    }
  }

  lemma SectionRepeatsRow(rows: map<Dept, Row>, d: Dept)
    requires d in rows
    ensures SectionOf(rows, d).dept == d && SectionPresents(SectionOf(rows, d), rows)
  {
  }

  lemma SectionsInOrderOf(rows: map<Dept, Row>, depts: seq<Dept>)
    requires InOrder(depts)
    ensures SectionsInOrder(SectionsOf(rows, depts))
  {
    var sections := SectionsOf(rows, depts);
    forall i | 0 <= i < |sections|
      ensures sections[i].dept == depts[i]
    {
      assert sections[i] == SectionOf(rows, depts[i]);
    }
  }

  lemma SectionsRepeatRows(rows: map<Dept, Row>, depts: seq<Dept>, c: DocSection)
    requires (forall d :: d in depts ==> d in rows) && c in SectionsOf(rows, depts)
    ensures c.dept in depts && SectionPresents(c, rows)
  {
    SectionsHave(rows, depts, c.dept);
    SectionRepeatsRow(rows, c.dept);
  }

  lemma SectionsCover(rows: map<Dept, Row>, depts: seq<Dept>, d: Dept)
    requires d in depts
    ensures exists c :: c in SectionsOf(rows, depts) && c.dept == d
  {
    SectionsHave(rows, depts, d);
    assert SectionOf(rows, d).dept == d;
  }

  lemma SectionsPresent(rows: map<Dept, Row>, m: Metadata, depts: seq<Dept>, doc: Document)
    requires forall d :: d in m.needed ==> d in rows
    requires depts == NeededInOrder(m) && doc.sections == SectionsOf(rows, depts)
    ensures Presents(doc, rows, m.needed)
  {
    MarketingIsSelected(m);
    SelectKeepsOrder(ALL_DEPARTMENTS, set d | d in m.needed);
    SectionsInOrderOf(rows, depts);
    forall c | c in doc.sections
      ensures c.dept in m.needed && SectionPresents(c, rows)
    {
      SectionsRepeatRows(rows, depts, c);
    }
    forall d | d in m.needed
      ensures exists c :: c in doc.sections && c.dept == d
    {
      SectionsCover(rows, depts, d);
    }
  }

  /** A finished ticket's document presents its rows, the triggers of the record, and when the CEO approved. */
  lemma DoneDocument(s: State, d: Dept)
    requires Approving(s) && s.status == Done && d in s.metadata.value.needed
    ensures
      && s.document.Some? && Presents(s.document.value, s.rows, s.metadata.value.needed)
      && d in s.rows && Recorded(s.rows[d])
      && s.document.value.triggers == s.rows[d].eval.arbitration.value.triggers
      && s.document.value.ceoLine
         == (if s.rows[d].eval.arbitration.value.ceoRequired then s.rows[d].eval.arbitration.value.ceoApprovedAt
             else None)
  {
    assert forall e :: e in s.metadata.value.needed ==> e in NeededSet(s.metadata.value);
    SectionsPresent(s.rows, s.metadata.value, NeededInOrder(s.metadata.value), s.document.value);
  }

  // ---------- the CEO's decision ----------

  /** Every needed row has the old record with other CEO fields, and is otherwise as before. */
  ghost predicate RecordsBecome(s: State, t: State, decision: Option<CeoDecision>, at: Option<Time>, pause: Option<nat>)
    requires s.metadata.Some?
  {
    && t.rows.Keys == s.rows.Keys
    && forall d :: d in s.metadata.value.needed ==>
         && d in s.rows && Recorded(s.rows[d]) && SameExceptArbitration(s.rows[d], t.rows[d])
         && t.rows[d].eval.arbitration
            == Some(s.rows[d].eval.arbitration.value.(ceoDecision := decision, ceoApprovedAt := at,
                                                      ceoInterruptId := pause))
  }

  lemma PatchBecomes(s: State, t: State, p: CeoPatch, decision: Option<CeoDecision>, at: Option<Time>,
                     pause: Option<nat>)
    requires RowsMatchMetadata(s) && SameRecordEverywhere(s)
    requires t.rows == PatchArbitration(s, s.metadata.value.needed, p).rows
    requires WithCeoPatch(SharedArbitration(s), p)
          == SharedArbitration(s).(ceoDecision := decision, ceoApprovedAt := at, ceoInterruptId := pause)
    ensures RecordsBecome(s, t, decision, at, pause)
  {
    PatchIsUniform(s, p);
    forall d | d in s.metadata.value.needed
      ensures d in s.rows && s.rows[d].eval.arbitration == Some(SharedArbitration(s))
      ensures t.rows[d].eval.arbitration == Some(WithCeoPatch(SharedArbitration(s), p))
    {
      assert d in NeededSet(s.metadata.value);
    }
  }

  lemma RecordingBecomes(s: State, t: State, call: CeoCall, decision: CeoDecision)
    requires Approving(s) && GateOpen(s) && t.rows == CeoRecorded(s, decision, call.now).rows
    ensures RecordsBecome(s, t, Some(decision),
                          if decision == CeoApproved then Some(call.now) else SharedArbitration(s).ceoApprovedAt, None)
  {
    var p := RecordingPatch(decision, call.now);
    PatchBecomes(s, t, p, Some(decision),
                 if decision == CeoApproved then Some(call.now) else SharedArbitration(s).ceoApprovedAt, None);
  }

  /** The approval is recorded with its time in every needed row, and the published document carries it. */
  lemma CeoApprovalPublishes(s: State, call: CeoCall)
    requires Approving(s) && GateOpen(s) && call.action == Known(Approve)
    ensures
      var (t, answer) := DecideCeo(s, call);
      && answer == CeoDecided(CeoApproved) && t.status == Done && t.ceoThread == CeoEnded(CeoApproved)
      && t.metadata == s.metadata && t.threads == s.threads
      && RecordsBecome(s, t, Some(CeoApproved), Some(call.now), None)
      && t.document.Some? && t.document.value.ceoLine == Some(call.now)
      && Presents(t.document.value, t.rows, s.metadata.value.needed)
      && (forall d :: d in s.rows ==> t.document.value.triggers == CoreAt(s.rows[d]).triggers)
  {
    var t := DecideCeo(s, call).0;
    CeoUnfolds(s, call);
    CeoKeepsInv(s, call);
    RecordingBecomes(s, t, call, CeoApproved);
    RecordingIsUniform(s, CeoApproved, call.now);
    assert Marketing in NeededSet(s.metadata.value) && Marketing in s.metadata.value.needed;
    DoneDocument(t, Marketing);
    assert forall e :: e in s.rows ==> s.rows[e].eval.arbitration == Some(SharedArbitration(s));
  }

  /** A rejection is recorded without a time, and nothing is published. */
  lemma CeoRejectionRecords(s: State, call: CeoCall)
    requires Approving(s) && GateOpen(s) && call.action == Known(Reject)
    ensures
      var (t, answer) := DecideCeo(s, call);
      && answer == CeoDecided(CeoRejected) && t.status == WaitingForApproval && t.ceoThread == CeoEnded(CeoRejected)
      && t.metadata == s.metadata && t.threads == s.threads && t.document == None
      && RecordsBecome(s, t, Some(CeoRejected), SharedArbitration(s).ceoApprovedAt, None)
  {
    CeoUnfolds(s, call);
    RecordingBecomes(s, DecideCeo(s, call).0, call, CeoRejected);
  }

  /** Every refusal of the CEO endpoint, by the record that all rows share. */
  lemma CeoRefusals(s: State, call: CeoCall)
    requires Approving(s)
    ensures
      var why := DecideCeo(s, call).1;
      var waits := s.status == WaitingForApproval;
      var arb := SharedArbitration(s);
      && (why == Refused(WrongStatus) <==> !waits)
      && (why == Refused(CeoNotRequired) <==> waits && !arb.ceoRequired)
      && (why == Refused(MissingInterrupt) <==> waits && arb.ceoRequired && arb.ceoInterruptId.None?)
      && (why == Refused(InvalidAction) <==>
            waits && arb.ceoInterruptId.Some? && call.action != Known(Approve) && call.action != Known(Reject))
  {
    ReadsAgree(s, call.order, call.order);
    if GateOpen(s) && CeoAnswer(call.action) { CeoKeepsInv(s, call); }
  }

  // ---------- the last section decision ----------

  /** All departments but `d` are closed. */
  ghost predicate OthersClosed(s: State, d: Dept) {
    forall e :: e in s.rows && e != d ==> s.rows[e].status != StatusPending
  }

  /** The records of the needed rows are as before. */
  ghost predicate RecordsKept(s: State, t: State) {
    t.rows.Keys == s.rows.Keys && forall e :: e in s.rows ==> t.rows[e].eval.arbitration == s.rows[e].eval.arbitration
  }

  lemma ClosedIsLast(s: State, call: SectionCall, closed: State)
    requires Approving(s) && AwaitsAnswer(s, call.dept) && call.action.Known?
    requires Resumed(s, call).threads[call.dept].Ended? && closed == Closed(s, call)
    ensures EveryRowTerminal(closed) <==> OthersClosed(s, call.dept)
    ensures RecordsKept(s, closed) && closed.ceoThread == s.ceoThread && closed.document == None
    ensures closed.metadata == s.metadata
  {
    StillOpen(s, call.dept);
    assert closed.rows.Keys == s.rows.Keys;
    assert RowIsTerminal(closed.rows[call.dept]);
    forall e | e in s.rows && e != call.dept
      ensures closed.rows[e] == s.rows[e] && (RowIsTerminal(s.rows[e]) <==> s.rows[e].status != StatusPending)
    {
      assert RowAgreesWithThread(s.rows[e], e, s.threads);
    }
  }

  /** The three ends of an answer that closes its row. */
  ghost predicate Finalization(s: State, t: State, d: Dept, how: Finalized) {
    && s.metadata.Some? && t.metadata == s.metadata
    && match how
       case NotAllTerminal =>
         !OthersClosed(s, d) && RecordsKept(s, t) && t.status == WaitingForApproval && t.ceoThread == s.ceoThread
         && t.document == None
       case CeoGateOpened =>
         OthersClosed(s, d) && t.status == WaitingForApproval && t.document == None && t.ceoThread.CeoPaused?
         && forall e :: e in s.rows ==>
              Recorded(s.rows[e]) && Requires(s.rows[e]) && e in t.rows
              && t.rows[e].eval.arbitration
                 == Some(s.rows[e].eval.arbitration.value.(ceoInterruptId := Some(t.ceoThread.interruptId)))
       case Completed =>
         OthersClosed(s, d) && RecordsKept(s, t) && t.status == Done && t.document.Some?
         && t.document.value.ceoLine == None && Presents(t.document.value, t.rows, s.metadata.value.needed)
         && forall e :: e in s.rows ==> Recorded(s.rows[e]) && !Requires(s.rows[e])
       case _ => false
  }

  lemma LastClosedRow(s: State, call: SectionCall, closed: State, t: State, how: Finalized)
    requires Approving(s) && AwaitsAnswer(s, call.dept) && call.action.Known?
    requires Resumed(s, call).threads[call.dept].Ended? && closed == Closed(s, call)
    requires (t, how) == MaybeFinalize(closed, call.order, call.reread, call.now)
    ensures Finalization(s, t, call.dept, how)
  {
    CloseKeepsGateUntouched(s, call);
    ClosedIsLast(s, call, closed);
    FinalizeCases(closed, call.order, call.reread, call.now);
    RecordsAgree(s);
    RecordsAgree(closed);
    if how == CeoGateOpened {
      OpenedGateRecords(closed, call, t);
    } else if how == Completed {
      CompletedKeepsRecords(closed, call, t);
    }
  }

  lemma RecordsAgree(s: State)
    requires RowsMatchMetadata(s) && SameRecordEverywhere(s)
    ensures forall e :: e in s.rows ==> Recorded(s.rows[e]) && s.rows[e].eval.arbitration == Some(SharedArbitration(s))
  {
  }

  lemma OpenedGateRecords(c: State, call: SectionCall, t: State)
    requires GateUntouched(c) && EveryRowTerminal(c) && SharedArbitration(c).ceoRequired
    requires t == MaybeFinalize(c, call.order, call.reread, call.now).0
    ensures t.ceoThread == CeoPaused(c.nextId) && t.document == None && t.status == WaitingForApproval
    ensures forall e :: e in c.rows ==>
              && e in t.rows && Recorded(c.rows[e])
              && t.rows[e].eval.arbitration
                 == Some(c.rows[e].eval.arbitration.value.(ceoInterruptId := Some(c.nextId)))
  {
    EveryDeptListed(call.order);
    FirstRowIsAnyRow(call.order, c);
    AllTerminalIsEveryRow(c);
    FinalizationOpensGate(c, call.order, call.reread, call.now);
    var gate := c.(ceoThread := CeoPaused(c.nextId), nextId := c.nextId + 1);
    assert SharedArbitration(gate) == SharedArbitration(c);
    PatchIsUniform(gate, OpenGate(c.nextId));
  }

  lemma CompletedKeepsRecords(c: State, call: SectionCall, t: State)
    requires GateUntouched(c) && EveryRowTerminal(c) && !SharedArbitration(c).ceoRequired
    requires t == MaybeFinalize(c, call.order, call.reread, call.now).0
    ensures t.rows == c.rows && t.document.Some? && t.document.value.ceoLine == None
    ensures Presents(t.document.value, t.rows, c.metadata.value.needed)
  {
    FinalizeCases(c, call.order, call.reread, call.now);
    EveryDeptListed(call.order);
    FirstRowIsAnyRow(call.order, c);
    AllTerminalIsEveryRow(c);
    FinalizationSynthesizes(c, call.order, call.reread, call.now);
    SynthesisWritesNoRow(c, call.reread, call.now);
    assert Marketing in NeededSet(c.metadata.value) && Marketing in c.metadata.value.needed;
    DoneDocument(t, Marketing);
  }

  /** A closing answer waits for the others, opens the CEO gate or finishes, and says which. */
  lemma ClosingAnswerEnds(s: State, call: SectionCall)
    requires Approving(s) && AwaitsAnswer(s, call.dept) && call.action.Known?
    requires call.action.action == Approve || s.threads[call.dept].rework >= 3
    ensures
      var (t, answer) := DecideSection(s, call);
      answer.Decided? && (answer.outcome == OutcomeApproved <==> call.action.action == Approve)
      && Finalization(s, t, call.dept, answer.finalized)
  {
    GuardsAdmitAwaiting(s, call);
    DecideUnfolds(s, call);
    var closed := Closed(s, call);
    var (t, how) := MaybeFinalize(closed, call.order, call.reread, call.now);
    LastClosedRow(s, call, closed, t, how);
  }
}
