/**
 When a finished ticket is sound: every needed department closed and the CEO's approval where a record
 requires it. Redelivered intakes may change the needed departments; which of them are safe is exact.
 */
module RfpSoundness {
  import opened Options
  import opened RfpLifecycle
  import opened RfpArbitration
  import opened RfpThread
  import opened RfpProtocol
  import opened RfpInvariant
  import opened RfpTaskProofs
  import opened RfpDecisionProofs
  import opened RfpTheorems
  import opened RfpProgress
  import opened RfpRedelivery
  import opened RfpOutcomes

  // ---------- the records ----------

  predicate Recorded(r: Row) { r.eval.arbitration.Some? }

  predicate Requires(r: Row) { CoreAt(r).ceoRequired }

  /** The CEO gate has left no trace in the record. */
  predicate Untouched(r: Row) {
    Recorded(r) ==> r.eval.arbitration.value.ceoInterruptId == None && r.eval.arbitration.value.ceoDecision == None
  }

  predicate DecidedBy(r: Row, decision: CeoDecision) {
    Recorded(r) && r.eval.arbitration.value.ceoDecision == Some(decision)
  }

  predicate AllUntouched(rows: map<Dept, Row>) {
    forall d :: d in rows ==> Untouched(rows[d])
  }

  /**
   A started row carries the start's requirement `req`; a record that an earlier, crashed start left in
   another row may ask for the CEO in vain, but never drops the requirement.
   */
  predicate RowSound(r: Row, req: bool) {
    && (RowStarted(r) ==> Recorded(r) && Requires(r) == req)
    && (Recorded(r) && req ==> Requires(r))
  }

  predicate RowsSound(rows: map<Dept, Row>) {
    && Marketing in rows && Recorded(rows[Marketing])
    && forall d :: d in rows ==> RowSound(rows[d], Requires(rows[Marketing]))
  }

  /** The gate was opened at some time only if every needed department is closed. */
  ghost predicate GateSound(s: State)
    requires s.metadata.Some?
  {
    && (AllUntouched(s.rows) || AllTerminal(s.rows, s.metadata.value.needed))
    && (forall d, x :: d in s.rows && DecidedBy(s.rows[d], x) ==> s.ceoThread.CeoEnded?)
    && (s.status == WaitingForApproval ==> forall d :: d in s.rows ==> !DecidedBy(s.rows[d], CeoApproved))
  }

  ghost predicate SoundApproval(s: State) {
    && Loose(s) && RowsSound(s.rows) && GateSound(s)
    && (s.status == Done ==> SoundlyDone(s))
  }

  lemma {:induction false} FirstIsSome(order: seq<Dept>, rows: map<Dept, Row>)
    ensures
      || FirstArbitration(order, rows) == EMPTY_ARBITRATION
      || exists d :: d in rows && rows[d].eval.arbitration == Some(FirstArbitration(order, rows))
    ensures (exists d :: d in order && d in rows && Recorded(rows[d])) ==>
              exists d :: d in rows && rows[d].eval.arbitration == Some(FirstArbitration(order, rows))
  {
    if order != [] {
      FirstIsSome(order[1..], rows);
      assert order == [order[0]] + order[1..];
    }
  }

  /** The record read first is that of some row, so it requires the CEO if the start did. */
  lemma ReadIsSound(order: RowOrder, rows: map<Dept, Row>)
    requires RowsSound(rows)
    ensures exists d :: d in rows && rows[d].eval.arbitration == Some(FirstArbitration(order, rows))
    ensures Requires(rows[Marketing]) ==> FirstArbitration(order, rows).ceoRequired
  {
    FirstIsSome(order, rows);
    var d :| d in rows && rows[d].eval.arbitration == Some(FirstArbitration(order, rows));
    assert RowSound(rows[d], Requires(rows[Marketing]));
  }

  lemma UntouchedIsRead(order: RowOrder, rows: map<Dept, Row>)
    requires AllUntouched(rows)
    ensures FirstArbitration(order, rows).ceoInterruptId == None && FirstArbitration(order, rows).ceoDecision == None
  {
    FirstIsSome(order, rows);
  }

  // ---------- what keeps the rows sound ----------

  lemma RecordsKeepSoundRows(rows: map<Dept, Row>, rows': map<Dept, Row>)
    requires RowsSound(rows) && OnlyRowRecords(rows, rows')
    requires forall d :: d in rows && !Recorded(rows[d]) ==> !Recorded(rows'[d])
    ensures RowsSound(rows')
  {
    assert OnlyRecord(rows[Marketing], rows'[Marketing]);
    forall d | d in rows'
      ensures RowSound(rows'[d], Requires(rows'[Marketing]))
    {
      assert OnlyRecord(rows[d], rows'[d]) && RowSound(rows[d], Requires(rows[Marketing]));
    }
  }

  /** Only closed rows are patched, and those have a record. */
  lemma PatchKeepsSoundRows(s: State, ceoThread: CeoThread, nextId: nat, needed: seq<Dept>, p: CeoPatch)
    requires RowsSound(s.rows) && AllTerminal(s.rows, needed)
    ensures RowsSound(PatchArbitration(s.(ceoThread := ceoThread, nextId := nextId), needed, p).rows)
  {
    PatchWritesRecords(s, ceoThread, nextId, needed, p);
    var t := PatchArbitration(s.(ceoThread := ceoThread, nextId := nextId), needed, p);
    forall d | d in s.rows && !Recorded(s.rows[d])
      ensures !Recorded(t.rows[d])
    {
      assert RowSound(s.rows[d], Requires(s.rows[Marketing]));
    }
    RecordsKeepSoundRows(s.rows, t.rows);
  }

  lemma RecordsKeepTerminal(s: State, t: State, needed: seq<Dept>)
    requires OnlyRecords(s, t) && AllTerminal(s.rows, needed)
    ensures AllTerminal(t.rows, needed)
  {
    forall d | d in needed
      ensures d in t.rows && RowIsTerminal(t.rows[d])
    {
      assert OnlyRecord(s.rows[d], t.rows[d]);
    }
  }

  // ---------- a section call ----------

  /** Nothing was ever asked of the CEO, and the answered row had been started. */
  lemma AnsweredRowsSound(s: State, base: State, call: SectionCall)
    requires SoundApproval(s) && Admits(s, call) && AnsweredAs(s, base, base, call)
    ensures AllUntouched(base.rows) && RowsSound(base.rows) && base.status == WaitingForApproval
    ensures base.metadata == s.metadata
  {
    assert !AllTerminal(s.rows, s.metadata.value.needed) by {
      assert call.dept in s.metadata.value.needed && !RowIsTerminal(s.rows[call.dept]);
    }
    forall d | d in base.rows
      ensures d in s.rows && base.rows[d].eval.arbitration == s.rows[d].eval.arbitration
      ensures RowStarted(base.rows[d]) == RowStarted(s.rows[d])
    {
    }
    forall d | d in base.rows
      ensures RowSound(base.rows[d], Requires(base.rows[Marketing]))
    {
      assert RowSound(s.rows[d], Requires(s.rows[Marketing]));
    }
    forall d | d in base.rows
      ensures Untouched(base.rows[d])
    {
      assert Untouched(s.rows[d]);
    }
  }

  lemma UntouchedIsGateSound(s: State)
    requires s.metadata.Some? && AllUntouched(s.rows)
    ensures GateSound(s)
  {
    assert forall d :: d in s.rows ==> Untouched(s.rows[d]);
  }

  lemma OpeningKeepsSound(s: State, t: State)
    requires s.status == WaitingForApproval && Finalizes(s) && AllUntouched(s.rows) && RowsSound(s.rows)
    requires t == GateOpened(s)
    ensures RowsSound(t.rows) && t.metadata == s.metadata && t.status == s.status && GateSound(t)
  {
    var needed := s.metadata.value.needed;
    PatchKeepsSoundRows(s, CeoPaused(s.nextId), s.nextId + 1, needed, OpenGate(s.nextId));
    PatchWritesRecords(s, CeoPaused(s.nextId), s.nextId + 1, needed, OpenGate(s.nextId));
    RecordsKeepTerminal(s, t, needed);
    forall d, x | d in t.rows
      ensures !DecidedBy(t.rows[d], x)
    {
      assert Untouched(s.rows[d]);
    }
  }

  /** A synthesis without the CEO: no record read requires the CEO, so none of the started rows does. */
  lemma FinishingIsSound(s: State, order: RowOrder, reread: RowOrder, now: Time, t: State)
    requires s.status == WaitingForApproval && Finalizes(s) && AllUntouched(s.rows) && RowsSound(s.rows)
    requires !AsksCeo(s, order) && t == SynthesizeAndComplete(s, reread, now).0
    ensures t.rows == s.rows && t.metadata == s.metadata && t.status == Done && SoundlyDone(t) && GateSound(t)
  {
    UntouchedIsRead(order, s.rows);
    UntouchedIsRead(reread, s.rows);
    ReadIsSound(order, s.rows);
    SynthesisCompletes(s, reread, now);
    forall d | d in s.metadata.value.needed
      ensures d in s.rows && Recorded(s.rows[d]) && !Requires(s.rows[d])
    {
      assert RowSound(s.rows[d], Requires(s.rows[Marketing]));
    }
    UntouchedIsGateSound(t);
  }

  lemma ClosedKeepsSound(s: State, order: RowOrder, reread: RowOrder, now: Time, t: State)
    requires s.status == WaitingForApproval && s.metadata.Some? && AllUntouched(s.rows) && RowsSound(s.rows)
    requires t == MaybeFinalize(s, order, reread, now).0 && Loose(t)
    ensures SoundApproval(t)
  {
    UntouchedIsRead(order, s.rows);
    UntouchedIsGateSound(s);
    if OpensGate(s, order) {
      FinalizationOpensGate(s, order, reread, now);
      OpeningKeepsSound(s, t);
    } else if Finalizes(s) && !AsksCeo(s, order) {
      FinalizationSynthesizes(s, order, reread, now);
      FinishingIsSound(s, order, reread, now, t);
    } else {
      FinalizationWaits(s, order, reread, now);
    }
  }

  lemma ReworkKeepsSound(s: State, call: SectionCall, t: State)
    requires SoundApproval(s) && Admits(s, call) && Resumed(s, call).threads[call.dept].Paused?
    requires t == Reworked(s, call)
    ensures SoundApproval(t)
  {
    AnsweredStaysLoose(s, t, t, call);
    AnsweredRowsSound(s, t, call);
    UntouchedIsGateSound(t);
  }

  lemma CloseKeepsSound(s: State, call: SectionCall, closed: State, t: State)
    requires SoundApproval(s) && Admits(s, call) && Resumed(s, call).threads[call.dept].Ended?
    requires closed == Closed(s, call) && t == MaybeFinalize(closed, call.order, call.reread, call.now).0
    ensures SoundApproval(t)
  {
    FinalizationWritesRecords(closed, call.order, call.reread, call.now);
    AnsweredStaysLoose(s, closed, t, call);
    AnsweredRowsSound(s, closed, call);
    ClosedKeepsSound(closed, call.order, call.reread, call.now, t);
  }

  lemma SectionKeepsSound(s: State, call: SectionCall, t: State)
    requires SoundApproval(s) && t == DecideSection(s, call).0
    ensures SoundApproval(t)
  {
    RefusedExactly(s, call);
    if Admits(s, call) {
      DecideUnfolds(s, call);
      if Resumed(s, call).threads[call.dept].Paused? {
        ReworkKeepsSound(s, call, t);
      } else {
        CloseKeepsSound(s, call, Closed(s, call), t);
      }
    }
  }

  // ---------- a CEO call ----------

  lemma OpenGateMeansClosed(s: State, call: CeoCall)
    requires SoundApproval(s) && AdmitsCeo(s, call)
    ensures AllTerminal(s.rows, s.metadata.value.needed)
    ensures forall d, x :: d in s.rows ==> !DecidedBy(s.rows[d], x)
  {
    if AllUntouched(s.rows) { UntouchedIsRead(call.order, s.rows); }
  }

  function RecordingPatch(decision: CeoDecision, now: Time): CeoPatch {
    if decision == CeoApproved then RecordApproval(now) else RecordRejection
  }

  /** Every needed row has the decision, and no other row has any. */
  ghost predicate DecidedAlike(rows: map<Dept, Row>, needed: seq<Dept>, decision: CeoDecision) {
    && (forall d :: d in needed ==> d in rows && DecidedBy(rows[d], decision))
    && (forall d, x :: d in rows && DecidedBy(rows[d], x) ==> x == decision)
  }

  lemma PatchDecides(s: State, t: State, needed: seq<Dept>, decision: CeoDecision, now: Time)
    requires AllTerminal(s.rows, needed) && forall d, x :: d in s.rows ==> !DecidedBy(s.rows[d], x)
    requires t.rows == PatchArbitration(s, needed, RecordingPatch(decision, now)).rows
    ensures DecidedAlike(t.rows, needed, decision)
  {
    forall d, x | d in t.rows && DecidedBy(t.rows[d], x)
      ensures x == decision
    {
      assert !DecidedBy(s.rows[d], x);
    }
  }

  lemma RecordingIsSound(s: State, call: CeoCall, decision: CeoDecision, now: Time, t: State)
    requires SoundApproval(s) && AdmitsCeo(s, call) && t == CeoRecorded(s, decision, now)
    ensures Loose(t) && RowsSound(t.rows) && t.metadata == s.metadata && t.status == WaitingForApproval
    ensures t.ceoThread == CeoEnded(decision)
    ensures AllTerminal(t.rows, t.metadata.value.needed)
    ensures DecidedAlike(t.rows, t.metadata.value.needed, decision)
  {
    var needed := s.metadata.value.needed;
    var p := RecordingPatch(decision, now);
    OpenGateMeansClosed(s, call);
    PatchKeepsSoundRows(s, CeoEnded(decision), s.nextId, needed, p);
    PatchWritesRecords(s, CeoEnded(decision), s.nextId, needed, p);
    RecordsKeepTerminal(s, t, needed);
    RecordsKeepAgreement(s, t);
    PatchDecides(s, t, needed, decision, now);
  }

  lemma CeoApprovalIsSound(s: State, call: CeoCall, recorded: State, t: State)
    requires SoundApproval(s) && AdmitsCeo(s, call) && recorded == CeoRecorded(s, CeoApproved, call.now)
    requires t == SynthesizeAndComplete(recorded, call.reread, call.now).0
    ensures SoundApproval(t)
  {
    RecordingIsSound(s, call, CeoApproved, call.now, recorded);
    FirstIsSome(call.reread, recorded.rows);
    assert FirstArbitration(call.reread, recorded.rows).ceoDecision != Some(CeoRejected) by {
      var arb := FirstArbitration(call.reread, recorded.rows);
      if d :| d in recorded.rows && recorded.rows[d].eval.arbitration == Some(arb) {
        assert DecidedBy(recorded.rows[d], CeoRejected) ==> CeoRejected == CeoApproved;
      }
    }
    SynthesisCompletes(recorded, call.reread, call.now);
    RecordsKeepAgreement(recorded, t);
  }

  lemma CeoKeepsSound(s: State, call: CeoCall, t: State)
    requires SoundApproval(s) && t == DecideCeo(s, call).0
    ensures SoundApproval(t)
  {
    if !AdmitsCeo(s, call) {
      CeoRefused(s, call);
    } else if call.action == Known(Reject) {
      CeoRejects(s, call);
      RecordingIsSound(s, call, CeoRejected, call.now, t);
    } else {
      CeoApproves(s, call);
      CeoApprovalIsSound(s, call, CeoRecorded(s, CeoApproved, call.now), t);
    }
  }

  // ---------- a redelivered intake ----------

  /**
   Once the CEO was asked, a redelivered intake may only need closed departments; once the ticket is
   done, only departments that it needed already. Before that it may need any.
   */
  ghost predicate SafeIntake(s: State, m: Metadata) {
    && (s.status == WaitingForApproval ==> AllUntouched(s.rows) || AllTerminal(s.rows, m.needed))
    && (s.status == Done ==> s.metadata.Some? && NeededSet(m) <= NeededSet(s.metadata.value))
  }

  lemma MetadataKeepsSound(s: State, m: Metadata, t: State)
    requires SoundApproval(s) && SafeIntake(s, m) && Marketing in m.needed && t == s.(metadata := Some(m))
    ensures SoundApproval(t)
  {
    if s.status == Done {
      assert forall d :: d in m.needed ==> d in NeededSet(m);
      assert forall d :: d in NeededSet(s.metadata.value) ==> d in s.metadata.value.needed;
    }
  }
}
