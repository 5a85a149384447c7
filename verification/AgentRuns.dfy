/** The agent over whole runs: counters, proposals and memory entries in every reachable state. */
module AgentRuns {
  import opened Folds
  import opened Options
  import opened AgentLedger
  import opened AgentMemory
  import opened AgentTheorems

  // ---------- labels of pending proposals ----------

  lemma SetPendingKeepsLabels(w: World, sid: Option<string>, pending: Option<Pending>, now: int)
    requires PendingsAreLabelled(w.sessions) && (pending.Some? ==> pending.value.category != "")
    ensures PendingsAreLabelled(SetPending(w, sid, pending, now).sessions)
  {
    LivingHas(w.sessions, now);
    if sid.Some? {
      var p := Purge(w, now);
      PutHas(p.sessions, Current(p.sessions, sid.value, now).(pending := pending, updatedAt := now));
    }
  }

  lemma RecordKeepsLabels(w: World, sid: Option<string>, kind: Kind, reason: string, extraction: bool, now: int)
    requires PendingsAreLabelled(w.sessions)
    ensures PendingsAreLabelled(Record(w, sid, kind, reason, extraction, now).sessions)
  {
    LivingHas(w.sessions, now);
    if sid.Some? {
      var rows := Living(w.sessions, now);
      FindHas(rows, sid.value);
      PutHas(rows, WithEvent(Current(rows, sid.value, now), kind, reason, extraction, now));
    }
  }

  lemma StepKeepsLabels(w: World, c: Classifiers, t: Texts, step: Step, now: int)
    requires PendingsAreLabelled(w.sessions)
    ensures PendingsAreLabelled(Apply(w, c, t, step, now).sessions)
  {
    LivingHas(w.sessions, now);
    match step
    case GuardInput(sid, question) =>
      var verdict := Verdict(w, c, sid, question, now);
      if verdict.Blocked? {
        RecordKeepsLabels(w, sid, verdict.kind, verdict.reason, IsExtraction(verdict.reason), now);
      }
    case ResolveMemory(sid, user, question) =>
      SetPendingKeepsLabels(Purge(w, now), sid, None, now);
    case AttachProposal(sid, question, draft, id) =>
      if draft.Some? {
        var d := draft.value;
        var purged := if sid.Some? then Purge(w, now) else w;
        var category := OrElse(d.category, "known_incidents");
        var pending := Pending(id, t.strip(d.summary), OrElse(d.location, "unknown"), category, d.why, question);
        SetPendingKeepsLabels(purged, sid, Some(pending), now);
      }
    case RecordFailure(sid, kind, reason) => RecordKeepsLabels(w, sid, kind, reason, false, now);
    case ReadMemory(_, _, _) =>
    case LookUp =>
  }

  // ---------- the invariant ----------

  ghost predicate Inv(w: World) {
    && LedgerSound(w)
    && (forall scope :: Gap(w, scope) == 0)
    && AuditSound(w.audit)
    && PendingsAreLabelled(w.sessions)
  }

  lemma StepKeepsLedger(w: World, c: Classifiers, t: Texts, step: Step, now: int)
    requires LedgerSound(w)
    ensures LedgerSound(Apply(w, c, t, step, now))
  {
    PurgeKeepsLedger(w, now);
    match step
    case GuardInput(sid, question) => GuardKeepsLedger(w, c, sid, question, now);
    case ResolveMemory(sid, user, question) => ResolveKeepsLedger(w, t, sid, user, question, now);
    case AttachProposal(sid, question, draft, id) =>
      if draft.Some? {
        var d := draft.value;
        var purged := if sid.Some? then Purge(w, now) else w;
        var pending := Pending(id, t.strip(d.summary), OrElse(d.location, "unknown"),
                               OrElse(d.category, "known_incidents"), d.why, question);
        SetPendingKeepsLedger(purged, sid, Some(pending), now);
      }
    case RecordFailure(sid, kind, reason) => RecordKeepsLedger(w, sid, kind, reason, false, now);
    case ReadMemory(_, _, _) =>
    case LookUp =>
  }

  lemma CloseKeepsLedger(w: World, sid: Option<string>, outcome: Outcome, p: Pending, summary: string, reason: string,
                         now: int)
    requires LedgerSound(w)
    ensures LedgerSound(Close(w, sid, outcome, p, summary, reason, now))
  {
    SetPendingKeepsLedger(Log(w, Resolution(sid, outcome, p, summary, reason)), sid, None, now);
  }

  lemma SettleKeepsLedger(w: World, t: Texts, sid: Option<string>, user: string, question: string, p: Pending, now: int)
    requires LedgerSound(w)
    ensures LedgerSound(Settle(w, t, sid, user, question, p, now))
  {
    var decision := t.decide(question);
    var summary := Proposal(decision, p);
    var category := OrElse(p.category, "known_incidents");
    var stored :=
      w.(entries := Written(t, w.entries, user, OrElse(p.location, "unknown"), category, summary, p.id, now));
    if decision.Reject? {
      CloseKeepsLedger(w, sid, Rejected, p, p.summary,
                       if TopicChange(t, question) then "topic_change" else "ambiguous", now);
    } else if t.validate(summary, category).Some? {
      CloseKeepsLedger(w, sid, Rejected, p, summary, t.validate(summary, category).value, now);
    } else if WriteRefusal(t, category, summary).Some? {
      CloseKeepsLedger(w, sid, Rejected, p, summary, WriteRefusal(t, category, summary).value, now);
    } else {
      CloseKeepsLedger(stored, sid, if decision.Edit? then Edited else Approved, p, summary, "", now);
    }
  }

  lemma ResolveKeepsLedger(w: World, t: Texts, sid: Option<string>, user: string, question: string, now: int)
    requires LedgerSound(w)
    ensures LedgerSound(Resolve(w, t, sid, user, question, now))
  {
    if sid.Some? {
      PurgeKeepsLedger(w, now);
      var purged := Purge(w, now);
      if PendingOf(purged, sid.value).Some? {
        SettleKeepsLedger(purged, t, sid, user, question, PendingOf(purged, sid.value).value, now);
      }
    }
  }

  lemma StepKeepsSources(w: World, c: Classifiers, t: Texts, step: Step, now: int)
    requires CleansOnce(t) && AllSourced(t, w.audit, w.entries) && PendingsAreLabelled(w.sessions)
    ensures AllSourced(t, Apply(w, c, t, step, now).audit, Apply(w, c, t, step, now).entries)
  {
    var after := Apply(w, c, t, step, now);
    if step.AttachProposal? {
      AttachGrows(w, t, step.sid, step.question, step.draft, step.id, now);
      if GrewQuietly(w.audit, after.audit) {
        QuietGrowthHas(w.audit, after.audit);
      } else {
        QuietGrowthHas(w.audit, after.audit[..|after.audit| - 1]);
      }
      GrowthKeepsSources(t, w.audit, after.audit, w.entries);
    } else {
      OtherStepsGrowQuietly(w, c, t, step, now);
      QuietGrowthHas(w.audit, after.audit);
      GrowthKeepsSources(t, w.audit, after.audit, w.entries);
      if step.ReadMemory? {
        EvictedHas(t, w.entries, step.user, Hits(t, w.entries, step.user, step.location, step.category), now);
      } else if step.ResolveMemory? {
        ResolveKeepsSources(w, t, step.sid, step.user, step.question, now);
      }
    }
  }

  lemma ResolveKeepsSources(w: World, t: Texts, sid: Option<string>, user: string, question: string, now: int)
    requires CleansOnce(t) && AllSourced(t, w.audit, w.entries) && PendingsAreLabelled(w.sessions)
    ensures
      var after := Resolve(w, t, sid, user, question, now);
      AllSourced(t, after.audit, after.entries)
  {
    if sid.Some? {
      var purged := Purge(w, now);
      PurgeGrowsQuietly(w, now);
      QuietGrowthHas(w.audit, purged.audit);
      GrowthKeepsSources(t, w.audit, purged.audit, w.entries);
      if PendingOf(purged, sid.value).Some? {
        LivingHas(w.sessions, now);
        FindHas(purged.sessions, sid.value);
        SettleKeepsSources(purged, t, sid, user, question, PendingOf(purged, sid.value).value, now);
      }
    }
  }

  lemma StepKeepsInv(w: World, c: Classifiers, t: Texts, step: Step, now: int)
    requires Inv(w) && Enabled(w, step)
    ensures Inv(Apply(w, c, t, step, now))
  {
    StepKeepsLedger(w, c, t, step, now);
    forall scope ensures Gap(Apply(w, c, t, step, now), scope) == 0 {
      GapNeverMoves(w, c, t, step, scope, now);
    }
    StepKeepsAudit(w, c, t, step, now);
    StepKeepsLabels(w, c, t, step, now);
  }

  lemma {:induction false} RunKeepsInv(w: World, c: Classifiers, t: Texts, steps: seq<Timed>, end: World)
    requires Inv(w) && Runs(w, c, t, steps, end)
    ensures Inv(end)
    decreases |steps|
  {
    if steps != [] {
      StepKeepsInv(w, c, t, steps[0].step, steps[0].now);
      RunKeepsInv(Apply(w, c, t, steps[0].step, steps[0].now), c, t, steps[1..], end);
    }
  }

  lemma {:induction false} RunKeepsSources(w: World, c: Classifiers, t: Texts, steps: seq<Timed>, end: World)
    requires CleansOnce(t) && Inv(w) && AllSourced(t, w.audit, w.entries) && Runs(w, c, t, steps, end)
    ensures AllSourced(t, end.audit, end.entries)
    decreases |steps|
  {
    if steps != [] {
      StepKeepsInv(w, c, t, steps[0].step, steps[0].now);
      StepKeepsSources(w, c, t, steps[0].step, steps[0].now);
      RunKeepsSources(Apply(w, c, t, steps[0].step, steps[0].now), c, t, steps[1..], end);
    }
  }

  lemma ReachableIsSound(c: Classifiers, t: Texts, steps: seq<Timed>, end: World)
    requires Runs(START, c, t, steps, end)
    ensures Inv(end)
  {
    assert Inv(START) by {
      forall scope ensures Gap(START, scope) == 0 {
      }
    }
    RunKeepsInv(START, c, t, steps, end);
  }

  // ---------- what the invariant says ----------

  /** Proposals (resolutions) in a scope that name a session. */
  function ProposalsIn(scope: Scope): Audit -> bool {
    (a: Audit) => IsProposal(a) && a.session.Some? && InScope(scope, a.session.value, a.id.value)
  }

  function ResolutionsIn(scope: Scope): Audit -> bool {
    (a: Audit) => IsResolution(a) && a.session.Some? && InScope(scope, a.session.value, a.id.value)
  }

  lemma {:induction false} TallyIsDifference(audit: seq<Audit>, scope: Scope)
    ensures Tally(audit, scope) == Count(ProposalsIn(scope), audit) - Count(ResolutionsIn(scope), audit)
  {
    if audit != [] {
      TallyIsDifference(audit[..|audit| - 1], scope);
    }
  }

  lemma {:induction false} OpenInSession(rows: seq<Session>, sid: string)
    requires DistinctIds(rows)
    ensures Open(rows, OfSession(sid)) == if Find(rows, sid).Some? && Find(rows, sid).value.pending.Some? then 1 else 0
  {
    if rows != [] {
      OpenInSession(rows[1..], sid);
      FindHas(rows[1..], sid);
    }
  }

  /** In every reachable state the proposals logged for a session are its resolved ones and the one still pending. */
  lemma PendingIsTheDifference(c: Classifiers, t: Texts, steps: seq<Timed>, end: World, sid: string)
    requires Runs(START, c, t, steps, end)
    ensures Count(ProposalsIn(OfSession(sid)), end.audit)
         == Count(ResolutionsIn(OfSession(sid)), end.audit) + (if PendingOf(end, sid).Some? then 1 else 0)
  {
    ReachableIsSound(c, t, steps, end);
    assert Gap(end, OfSession(sid)) == 0;
    TallyIsDifference(end.audit, OfSession(sid));
    OpenInSession(end.sessions, sid);
  }

  predicate Proposes(a: Audit, id: nat) { IsProposal(a) && a.id == Some(id) }

  lemma {:induction false} ProposedOnce(audit: seq<Audit>, i: nat, id: nat)
    requires AuditSound(audit) && i < |audit| && Proposes(audit[i], id)
    ensures Count(ProposalsIn(OfProposal(id)), audit) == if audit[i].session.Some? then 1 else 0
  {
    var n := |audit| - 1;
    if i < n {
      ProposedOnce(audit[..n], i, id);
    } else {
      NotProposedBefore(audit[..n], id);
    }
  }

  lemma {:induction false} NotProposedBefore(audit: seq<Audit>, id: nat)
    requires forall i :: 0 <= i < |audit| ==> !Proposes(audit[i], id)
    ensures Count(ProposalsIn(OfProposal(id)), audit) == 0
  {
    if audit != [] {
      NotProposedBefore(audit[..|audit| - 1], id);
    }
  }

  function Resolves(id: nat): Audit -> bool {
    (a: Audit) => IsResolution(a) && a.id == Some(id)
  }

  /** How many sessions hold the proposal as their pending one. */
  function Holders(w: World, id: nat): nat { Open(w.sessions, OfProposal(id)) }

  /**
   A logged proposal is either still pending in one session or resolved once, never both and never
   twice, if and only if it was logged for a session. Logged without a session, it is neither.
   */
  lemma ResolvedOrPendingExactly(c: Classifiers, t: Texts, steps: seq<Timed>, end: World, i: nat, id: nat)
    requires Runs(START, c, t, steps, end) && i < |end.audit| && Proposes(end.audit[i], id)
    ensures Count(Resolves(id), end.audit) + Holders(end, id) == if end.audit[i].session.Some? then 1 else 0
  {
    ReachableIsSound(c, t, steps, end);
    assert Gap(end, OfProposal(id)) == 0;
    TallyIsDifference(end.audit, OfProposal(id));
    ProposedOnce(end.audit, i, id);
    forall a | a in end.audit ensures Resolves(id)(a) == ResolutionsIn(OfProposal(id))(a) {
      var j :| 0 <= j < |end.audit| && end.audit[j] == a;
    }
    CountAgrees(Resolves(id), ResolutionsIn(OfProposal(id)), end.audit);
  }

  /** Such proposals exist: a draft attached without a session is logged as proposed and never held. */
  lemma ProposalWithoutSession(c: Classifiers, t: Texts, question: string, d: Draft, id: nat, now: int)
    requires t.validate(t.strip(d.summary), OrElse(d.category, "known_incidents")).None?
    ensures
      var end := Apply(START, c, t, AttachProposal(None, question, Some(d), id), now);
      && Runs(START, c, t, [Timed(AttachProposal(None, question, Some(d), id), now)], end)
      && end.audit != [] && Proposes(end.audit[0], id) && end.audit[0].session.None?
  {
    var step := AttachProposal(None, question, Some(d), id);
    assert [Timed(step, now)][1..] == [];
    assert Runs(Apply(START, c, t, step, now), c, t, [], Apply(START, c, t, step, now));
  }

  /** Every entry in the store is a proposal that was approved or edited and whose summary had passed validation. */
  lemma MemoryComesFromApproval(c: Classifiers, t: Texts, steps: seq<Timed>, end: World, slot: Slot)
    requires CleansOnce(t) && Runs(START, c, t, steps, end) && slot in end.entries
    ensures exists a :: a in end.audit && Accepts(t, a, slot.entry)
  {
    assert Inv(START) by {
      forall scope ensures Gap(START, scope) == 0 {
      }
    }
    RunKeepsSources(START, c, t, steps, end);
    assert Sourced(t, end.audit, slot.entry);
  }

  /** In every reachable state the counters of a live session are the numbers of its events. */
  lemma CountersMatchEvents(c: Classifiers, t: Texts, steps: seq<Timed>, end: World, s: Session, kind: Kind)
    requires Runs(START, c, t, steps, end) && s in end.sessions
    ensures Of(s.counts, kind) == Count(OfKind(kind), s.events)
    ensures s.extractionTurns == Count(Extractions(), s.events) <= Of(s.counts, Security)
    ensures SumKind(end.sessions, kind) <= Of(end.process, kind)
  {
    ReachableIsSound(c, t, steps, end);
    assert Counted(s);
  }

  // ---------- an extraction attempt is remembered ----------

  /** The session has tried before, and was last used at `since` or later. */
  ghost predicate Watched(w: World, sid: string, since: int) {
    && DistinctIds(w.sessions) && Find(w.sessions, sid).Some?
    && Find(w.sessions, sid).value.extractionTurns >= 1 && Find(w.sessions, sid).value.updatedAt >= since
  }

  predicate Within(since: int, now: int) { since <= now <= since + SESSION_TTL }

  lemma PurgeKeepsWatched(w: World, now: int, sid: string, since: int)
    requires Watched(w, sid, since) && Within(since, now)
    ensures Watched(Purge(w, now), sid, since)
  {
    LivingDistinct(w.sessions, now);
    FindAfterPurge(w.sessions, sid, now);
  }

  lemma SetPendingKeepsWatched(w: World, id: Option<string>, pending: Option<Pending>, now: int, sid: string,
                               since: int)
    requires Watched(w, sid, since) && Within(since, now)
    ensures Watched(SetPending(w, id, pending, now), sid, since)
  {
    if id.Some? {
      PurgeKeepsWatched(w, now, sid, since);
      var rows := Purge(w, now).sessions;
      var s := Current(rows, id.value, now).(pending := pending, updatedAt := now);
      CurrentIsCountedId(rows, id.value, now);
      PutDistinct(rows, s);
      FindAfterPut(rows, s, sid);
    }
  }

  lemma RecordKeepsWatched(w: World, id: Option<string>, kind: Kind, reason: string, extraction: bool, now: int,
                           sid: string, since: int)
    requires Watched(w, sid, since) && Within(since, now)
    ensures Watched(Record(w, id, kind, reason, extraction, now), sid, since)
  {
    if id.Some? {
      PurgeKeepsWatched(w, now, sid, since);
      var rows := Purge(w.(process := Tick(w.process, kind)), now).sessions;
      var s := WithEvent(Current(rows, id.value, now), kind, reason, extraction, now);
      CurrentIsCountedId(rows, id.value, now);
      PutDistinct(rows, s);
      FindAfterPut(rows, s, sid);
    }
  }

  lemma GuardKeepsWatched(w: World, c: Classifiers, id: Option<string>, question: string, now: int, sid: string,
                          since: int)
    requires Watched(w, sid, since) && Within(since, now)
    ensures Watched(Guard(w, c, id, question, now), sid, since)
  {
    var verdict := Verdict(w, c, id, question, now);
    if verdict.Blocked? {
      RecordKeepsWatched(w, id, verdict.kind, verdict.reason, IsExtraction(verdict.reason), now, sid, since);
    } else {
      PurgeKeepsWatched(w, now, sid, since);
    }
  }

  lemma ResolveKeepsWatched(w: World, t: Texts, id: Option<string>, user: string, question: string, now: int,
                            sid: string, since: int)
    requires Watched(w, sid, since) && Within(since, now)
    ensures Watched(Resolve(w, t, id, user, question, now), sid, since)
  {
    if id.Some? {
      PurgeKeepsWatched(w, now, sid, since);
      var purged := Purge(w, now);
      if PendingOf(purged, id.value).Some? {
        SettleSetsPending(purged, t, id, user, question, PendingOf(purged, id.value).value, now);
        SetPendingKeepsWatched(purged, id, None, now, sid, since);
      }
    }
  }

  /** However a proposal is settled, the sessions are those of clearing it. */
  lemma SettleSetsPending(w: World, t: Texts, sid: Option<string>, user: string, question: string, p: Pending, now: int)
    ensures Settle(w, t, sid, user, question, p, now).sessions == SetPending(w, sid, None, now).sessions
  {
  }

  lemma AttachKeepsWatched(w: World, t: Texts, id: Option<string>, question: string, draft: Option<Draft>, newId: nat,
                           now: int, sid: string, since: int)
    requires Watched(w, sid, since) && Within(since, now)
    ensures Watched(Attach(w, t, id, question, draft, newId, now), sid, since)
  {
    if draft.Some? {
      PurgeKeepsWatched(w, now, sid, since);
      var d := draft.value;
      var purged := if id.Some? then Purge(w, now) else w;
      var pending := Pending(newId, t.strip(d.summary), OrElse(d.location, "unknown"),
                             OrElse(d.category, "known_incidents"), d.why, question);
      SetPendingKeepsWatched(purged, id, Some(pending), now, sid, since);
    }
  }

  lemma StepKeepsWatched(w: World, c: Classifiers, t: Texts, step: Step, now: int, sid: string, since: int)
    requires Watched(w, sid, since) && Within(since, now)
    ensures Watched(Apply(w, c, t, step, now), sid, since)
  {
    match step
    case GuardInput(id, question) => GuardKeepsWatched(w, c, id, question, now, sid, since);
    case ResolveMemory(id, user, question) => ResolveKeepsWatched(w, t, id, user, question, now, sid, since);
    case AttachProposal(id, question, draft, newId) =>
      AttachKeepsWatched(w, t, id, question, draft, newId, now, sid, since);
    case RecordFailure(id, kind, reason) => RecordKeepsWatched(w, id, kind, reason, false, now, sid, since);
    case ReadMemory(_, _, _) =>
    case LookUp => PurgeKeepsWatched(w, now, sid, since);
  }

  lemma {:induction false} RunKeepsWatched(w: World, c: Classifiers, t: Texts, steps: seq<Timed>, end: World,
                                           sid: string, since: int)
    requires Watched(w, sid, since) && Runs(w, c, t, steps, end)
    requires forall step :: step in steps ==> Within(since, step.now)
    ensures Watched(end, sid, since)
    decreases |steps|
  {
    if steps != [] {
      StepKeepsWatched(w, c, t, steps[0].step, steps[0].now, sid, since);
      RunKeepsWatched(Apply(w, c, t, steps[0].step, steps[0].now), c, t, steps[1..], end, sid, since);
    }
  }

  lemma AttemptIsWatched(w: World, c: Classifiers, sid: string, question: string, now: int)
    requires DistinctIds(w.sessions) && ClassifyInput(c, question) == Blocked(Security, "sensitive_extraction")
    ensures Watched(Guard(w, c, Some(sid), question, now), sid, now)
  {
    var rows := Living(w.sessions, now);
    LivingDistinct(w.sessions, now);
    CurrentIsCountedId(rows, sid, now);
    var s := WithEvent(Current(rows, sid, now), Security, "sensitive_extraction", true, now);
    PutDistinct(rows, s);
    FindAfterPut(rows, s, sid);
  }

  /**
   After a refused extraction attempt a continuation in that session is refused, whatever turns of this and
   other sessions lie in between, as long as no more time has passed than the session limit.
   */
  lemma ContinuationIsRefused(w: World, c: Classifiers, t: Texts, sid: string, question: string, now: int,
                              steps: seq<Timed>, end: World, follow: string, later: int)
    requires LedgerSound(w) && ClassifyInput(c, question) == Blocked(Security, "sensitive_extraction")
    requires Runs(Guard(w, c, Some(sid), question, now), c, t, steps, end)
    requires (forall step :: step in steps ==> Within(now, step.now)) && Within(now, later) && c.continuation(follow)
    ensures Verdict(end, c, Some(sid), follow, later).Blocked?
  {
    AttemptIsWatched(w, c, sid, question, now);
    RunKeepsWatched(Guard(w, c, Some(sid), question, now), c, t, steps, end, sid, now);
    PurgeKeepsWatched(end, later, sid, now);
  }

  // ---------- consolidation between slots ----------

  lemma {:induction false} SlottedAfterPut(entries: seq<Slot>, slot: Slot, key: Key)
    ensures Slotted(PutSlot(entries, slot), key) == if key == slot.key then Some(slot.entry) else Slotted(entries, key)
  {
    if entries != [] && entries[0].key != slot.key {
      SlottedAfterPut(entries[1..], slot, key);
    }
  }
}
