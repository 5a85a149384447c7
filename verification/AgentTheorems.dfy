/** What holds after any run of the agent's nodes, over any interleaving of sessions and users. */
module AgentTheorems {
  import opened Folds
  import opened Options
  import opened AgentLedger
  import opened AgentMemory

  // ---------- the machine ----------

  datatype Step =
    | GuardInput(sid: Option<string>, question: string)
    | ResolveMemory(sid: Option<string>, user: string, question: string)
    | AttachProposal(sid: Option<string>, question: string, draft: Option<Draft>, id: nat)
    | RecordFailure(sid: Option<string>, kind: Kind, reason: string)
    | ReadMemory(user: string, location: string, category: string)
    | LookUp

  /** New proposals get ids that no audit record has. */
  predicate Enabled(w: World, step: Step) {
    step.AttachProposal? ==> forall a :: a in w.audit ==> a.id != Some(step.id)
  }

  function Apply(w: World, c: Classifiers, t: Texts, step: Step, now: int): World {
    match step
    case GuardInput(sid, question) => Guard(w, c, sid, question, now)
    case ResolveMemory(sid, user, question) => Resolve(w, t, sid, user, question, now)
    case AttachProposal(sid, question, draft, id) => Attach(w, t, sid, question, draft, id, now)
    case RecordFailure(sid, kind, reason) => Record(w, sid, kind, reason, false, now)
    case ReadMemory(user, location, category) =>
      w.(entries := AfterRead(t, w.entries, user, location, category, now))
    case LookUp => Purge(w, now)
  }

  datatype Timed = Timed(step: Step, now: int)

  ghost predicate Runs(w: World, c: Classifiers, t: Texts, steps: seq<Timed>, end: World)
    decreases |steps|
  {
    if steps == [] then w == end
    else Enabled(w, steps[0].step) && Runs(Apply(w, c, t, steps[0].step, steps[0].now), c, t, steps[1..], end)
  }

  const START: World := World([], Counts(0, 0, 0), [], [])

  // ---------- proposals: opened and closed ----------

  /** The proposals a statement is about: those of one session, or a single one. */
  datatype Scope = OfSession(session: string) | OfProposal(id: nat)

  predicate InScope(scope: Scope, session: string, id: nat) {
    match scope
    case OfSession(s) => s == session
    case OfProposal(i) => i == id
  }

  predicate IsProposal(a: Audit) { a.outcome == Proposed && a.id.Some? }
  predicate IsResolution(a: Audit) { a.outcome != Proposed && a.id.Some? }

  /** A proposal event opens one, a resolution closes one; events without a session count for nothing. */
  function Weight(a: Audit, scope: Scope): int {
    if a.session.None? || a.id.None? || !InScope(scope, a.session.value, a.id.value) then 0
    else if a.outcome == Proposed then 1 else -1
  }

  function Tally(audit: seq<Audit>, scope: Scope): int {
    if audit == [] then 0 else Tally(audit[..|audit| - 1], scope) + Weight(audit[|audit| - 1], scope)
  }

  function OpenIn(pending: Option<Pending>, session: string, scope: Scope): nat {
    if pending.Some? && InScope(scope, session, pending.value.id) then 1 else 0
  }

  function Open(rows: seq<Session>, scope: Scope): nat {
    if rows == [] then 0 else OpenIn(rows[0].pending, rows[0].id, scope) + Open(rows[1..], scope)
  }

  /** Zero in every reachable state: what the audit log says is open is what the sessions hold. */
  function Gap(w: World, scope: Scope): int { Tally(w.audit, scope) - Open(w.sessions, scope) }

  lemma {:induction false} TallyOfBoth(a: seq<Audit>, b: seq<Audit>, scope: Scope)
    ensures Tally(a + b, scope) == Tally(a, scope) + Tally(b, scope)
  {
    if b == [] {
      assert a + b == a;
    } else {
      TallyOfBoth(a, b[..|b| - 1], scope);
      assert (a + b)[..|a + b| - 1] == a + b[..|b| - 1];
    }
  }

  /** Every proposal that leaves with an expired session is closed in the log. */
  lemma {:induction false} ExpiriesClose(rows: seq<Session>, scope: Scope, now: int)
    ensures Tally(Expiries(rows, now), scope) == Open(Living(rows, now), scope) - Open(rows, scope)
  {
    if rows != [] {
      ExpiriesClose(rows[1..], scope, now);
      var living, events := Living(rows[1..], now), Expiries(rows[1..], now);
      assert ([rows[0]] + living)[1..] == living && [] + living == living && [] + events == events;
      if !Alive(rows[0], now) && rows[0].pending.Some? {
        TallyOfBoth([Expiry(rows[0])], events, scope);
        assert [Expiry(rows[0])][..0] == [];
      }
    }
  }

  lemma GapAfterPurge(w: World, scope: Scope, now: int)
    ensures Gap(Purge(w, now), scope) == Gap(w, scope)
  {
    TallyOfBoth(w.audit, Expiries(w.sessions, now), scope);
    ExpiriesClose(w.sessions, scope, now);
  }

  lemma GapAfterLog(w: World, a: Audit, scope: Scope)
    ensures Gap(Log(w, a), scope) == Gap(w, scope) + Weight(a, scope)
  {
    assert (w.audit + [a])[..|w.audit|] == w.audit;
  }

  lemma {:induction false} OpenAfterPut(rows: seq<Session>, s: Session, scope: Scope)
    ensures Open(Put(rows, s), scope)
         == Open(rows, scope) + OpenIn(s.pending, s.id, scope)
            - (if Find(rows, s.id).Some? then OpenIn(Find(rows, s.id).value.pending, s.id, scope) else 0)
  {
    if rows != [] {
      if rows[0].id == s.id {
        assert ([s] + rows[1..])[1..] == rows[1..];
      } else {
        OpenAfterPut(rows[1..], s, scope);
        var rest := Put(rows[1..], s);
        assert ([rows[0]] + rest)[1..] == rest;
      }
    }
  }

  lemma GapAfterSetPending(w: World, sid: string, pending: Option<Pending>, scope: Scope, now: int)
    ensures Gap(SetPending(w, Some(sid), pending, now), scope)
         == Gap(w, scope) + OpenIn(PendingOf(Purge(w, now), sid), sid, scope) - OpenIn(pending, sid, scope)
  {
    GapAfterPurge(w, scope, now);
    var p := Purge(w, now);
    CurrentIsCountedId(p.sessions, sid, now);
    OpenAfterPut(p.sessions, Current(p.sessions, sid, now).(pending := pending, updatedAt := now), scope);
  }

  lemma GapAfterRecord(w: World, sid: Option<string>, kind: Kind, reason: string, extraction: bool, scope: Scope,
                       now: int)
    ensures Gap(Record(w, sid, kind, reason, extraction, now), scope) == Gap(w, scope)
  {
    if sid.Some? {
      GapAfterPurge(w, scope, now);
      var p := Purge(w, now);
      CurrentIsCountedId(p.sessions, sid.value, now);
      OpenAfterPut(p.sessions, WithEvent(Current(p.sessions, sid.value, now), kind, reason, extraction, now), scope);
    }
  }

  /** Closing the pending proposal of a purged session closes it on both sides. */
  lemma GapAfterClose(w: World, sid: string, outcome: Outcome, p: Pending, summary: string, reason: string,
                      scope: Scope, now: int)
    requires outcome != Proposed && PendingOf(w, sid) == Some(p) && Living(w.sessions, now) == w.sessions
    ensures Gap(Close(w, Some(sid), outcome, p, summary, reason, now), scope) == Gap(w, scope)
  {
    var a := Resolution(Some(sid), outcome, p, summary, reason);
    GapAfterLog(w, a, scope);
    GapAfterSetPending(Log(w, a), sid, None, scope, now);
  }

  lemma GapAfterResolve(w: World, t: Texts, sid: Option<string>, user: string, question: string, scope: Scope, now: int)
    ensures Gap(Resolve(w, t, sid, user, question, now), scope) == Gap(w, scope)
  {
    if sid.Some? {
      GapAfterPurge(w, scope, now);
      PurgeTwice(w.sessions, now);
      var purged := Purge(w, now);
      if PendingOf(purged, sid.value).Some? {
        GapAfterSettle(purged, t, sid.value, user, question, PendingOf(purged, sid.value).value, scope, now);
      }
    }
  }

  lemma GapAfterSettle(w: World, t: Texts, sid: string, user: string, question: string, p: Pending, scope: Scope,
                       now: int)
    requires PendingOf(w, sid) == Some(p) && Living(w.sessions, now) == w.sessions
    ensures Gap(Settle(w, t, Some(sid), user, question, p, now), scope) == Gap(w, scope)
  {
    var decision := t.decide(question);
    var summary := Proposal(decision, p);
    var category := OrElse(p.category, "known_incidents");
    var stored :=
      w.(entries := Written(t, w.entries, user, OrElse(p.location, "unknown"), category, summary, p.id, now));
    if decision.Reject? {
      GapAfterClose(w, sid, Rejected, p, p.summary,
                    if TopicChange(t, question) then "topic_change" else "ambiguous", scope, now);
    } else if t.validate(summary, category).Some? {
      GapAfterClose(w, sid, Rejected, p, summary, t.validate(summary, category).value, scope, now);
    } else if WriteRefusal(t, category, summary).Some? {
      GapAfterClose(w, sid, Rejected, p, summary, WriteRefusal(t, category, summary).value, scope, now);
    } else {
      GapAfterClose(stored, sid, if decision.Edit? then Edited else Approved, p, summary, "", scope, now);
    }
  }

  lemma GapAfterAttach(w: World, t: Texts, sid: Option<string>, question: string, draft: Option<Draft>, id: nat,
                       scope: Scope, now: int)
    ensures Gap(Attach(w, t, sid, question, draft, id, now), scope) == Gap(w, scope)
  {
    if draft.Some? {
      var d := draft.value;
      var purged := if sid.Some? then Purge(w, now) else w;
      GapAfterPurge(w, scope, now);
      var summary, category := t.strip(d.summary), OrElse(d.category, "known_incidents");
      if sid.Some? && PendingOf(purged, sid.value).Some? {
      } else if t.validate(summary, category).Some? {
        GapAfterLog(purged, Audit(sid, Rejected, None, d.summary, d.category, t.validate(summary, category).value),
                    scope);
      } else {
        var pending := Pending(id, summary, OrElse(d.location, "unknown"), category, d.why, question);
        GapAfterLog(SetPending(purged, sid, Some(pending), now), Audit(sid, Proposed, Some(id), summary, category, ""),
                    scope);
        if sid.Some? {
          GapAfterSetPending(purged, sid.value, Some(pending), scope, now);
          PurgeTwice(w.sessions, now);
        }
      }
    }
  }

  /** No node opens or closes a proposal on one side only. */
  lemma GapNeverMoves(w: World, c: Classifiers, t: Texts, step: Step, scope: Scope, now: int)
    ensures Gap(Apply(w, c, t, step, now), scope) == Gap(w, scope)
  {
    match step
    case GuardInput(sid, question) =>
      var verdict := Verdict(w, c, sid, question, now);
      if verdict.Blocked? {
        GapAfterRecord(w, sid, verdict.kind, verdict.reason, IsExtraction(verdict.reason), scope, now);
      } else {
        GapAfterPurge(w, scope, now);
      }
    case ResolveMemory(sid, user, question) => GapAfterResolve(w, t, sid, user, question, scope, now);
    case AttachProposal(sid, question, draft, id) => GapAfterAttach(w, t, sid, question, draft, id, scope, now);
    case RecordFailure(sid, kind, reason) => GapAfterRecord(w, sid, kind, reason, false, scope, now);
    case ReadMemory(_, _, _) =>
    case LookUp => GapAfterPurge(w, scope, now);
  }

  // ---------- the shape of the audit log ----------

  /** A record that proposes nothing; if it resolves a proposal it names the session. */
  predicate Quiet(a: Audit) {
    !IsProposal(a) && (IsResolution(a) ==> a.session.Some?)
  }

  /** The log has grown by quiet records only. */
  ghost predicate GrewQuietly(before: seq<Audit>, after: seq<Audit>) {
    && |before| <= |after|
    && (forall i :: 0 <= i < |before| ==> after[i] == before[i])
    && (forall i :: |before| <= i < |after| ==> Quiet(after[i]))
  }

  lemma {:induction false} ExpiriesAreQuiet(rows: seq<Session>, now: int)
    ensures forall a :: a in Expiries(rows, now) ==> Quiet(a)
  {
    if rows != [] {
      ExpiriesAreQuiet(rows[1..], now);
    }
  }

  lemma PurgeGrowsQuietly(w: World, now: int)
    ensures GrewQuietly(w.audit, Purge(w, now).audit)
  {
    ExpiriesAreQuiet(w.sessions, now);
    var added := Expiries(w.sessions, now);
    forall i | |w.audit| <= i < |Purge(w, now).audit| ensures Quiet(Purge(w, now).audit[i]) {
      assert Purge(w, now).audit[i] == added[i - |w.audit|];
    }
  }

  lemma CloseGrowsQuietly(w: World, sid: Option<string>, outcome: Outcome, p: Pending, summary: string, reason: string,
                          now: int)
    requires outcome != Proposed && sid.Some?
    ensures GrewQuietly(w.audit, Close(w, sid, outcome, p, summary, reason, now).audit)
    ensures |Close(w, sid, outcome, p, summary, reason, now).audit| > |w.audit|
    ensures Close(w, sid, outcome, p, summary, reason, now).audit[|w.audit|]
        == Resolution(sid, outcome, p, summary, reason)
  {
    PurgeGrowsQuietly(Log(w, Resolution(sid, outcome, p, summary, reason)), now);
  }

  lemma SettleGrowsQuietly(w: World, t: Texts, sid: Option<string>, user: string, question: string, p: Pending,
                           now: int)
    requires sid.Some?
    ensures GrewQuietly(w.audit, Settle(w, t, sid, user, question, p, now).audit)
  {
    var decision := t.decide(question);
    var summary := Proposal(decision, p);
    var category := OrElse(p.category, "known_incidents");
    var stored :=
      w.(entries := Written(t, w.entries, user, OrElse(p.location, "unknown"), category, summary, p.id, now));
    CloseGrowsQuietly(w, sid, Rejected, p, p.summary,
                      if TopicChange(t, question) then "topic_change" else "ambiguous", now);
    if t.validate(summary, category).Some? {
      CloseGrowsQuietly(w, sid, Rejected, p, summary, t.validate(summary, category).value, now);
    } else if WriteRefusal(t, category, summary).Some? {
      CloseGrowsQuietly(w, sid, Rejected, p, summary, WriteRefusal(t, category, summary).value, now);
    } else {
      CloseGrowsQuietly(stored, sid, if decision.Edit? then Edited else Approved, p, summary, "", now);
    }
  }

  lemma GrowsTwice(a: seq<Audit>, b: seq<Audit>, c: seq<Audit>)
    requires GrewQuietly(a, b) && GrewQuietly(b, c)
    ensures GrewQuietly(a, c)
  {
  }

  lemma HeldGrowsQuietly(w: World, sid: Option<string>, pending: Pending, now: int)
    ensures
      var purged := if sid.Some? then Purge(w, now) else w;
      GrewQuietly(w.audit, purged.audit) && GrewQuietly(w.audit, SetPending(purged, sid, Some(pending), now).audit)
  {
    if sid.Some? {
      PurgeGrowsQuietly(w, now);
      PurgeGrowsQuietly(Purge(w, now), now);
      GrowsTwice(w.audit, Purge(w, now).audit, Purge(Purge(w, now), now).audit);
    }
  }

  /** The log ends with the new proposal, and has otherwise grown quietly. */
  ghost predicate GrewByProposal(before: seq<Audit>, after: seq<Audit>, sid: Option<string>, id: nat) {
    && after != [] && GrewQuietly(before, after[..|after| - 1])
    && after[|after| - 1].outcome == Proposed && after[|after| - 1].id == Some(id) && after[|after| - 1].session == sid
  }

  lemma ProposalGrows(before: seq<Audit>, held: seq<Audit>, a: Audit)
    requires GrewQuietly(before, held) && IsProposal(a)
    ensures GrewByProposal(before, held + [a], a.session, a.id.value)
  {
    assert (held + [a])[..|held|] == held;
  }

  lemma RefusalGrows(before: seq<Audit>, held: seq<Audit>, a: Audit)
    requires GrewQuietly(before, held) && Quiet(a)
    ensures GrewQuietly(before, held + [a])
  {
  }

  /** Only attaching a proposal logs one, under the new id, as the last record. */
  lemma AttachGrows(w: World, t: Texts, sid: Option<string>, question: string, draft: Option<Draft>, id: nat, now: int)
    ensures
      var after := Attach(w, t, sid, question, draft, id, now).audit;
      GrewQuietly(w.audit, after) || GrewByProposal(w.audit, after, sid, id)
  {
    if draft.Some? {
      var d := draft.value;
      var purged := if sid.Some? then Purge(w, now) else w;
      var summary, category := t.strip(d.summary), OrElse(d.category, "known_incidents");
      var pending := Pending(id, summary, OrElse(d.location, "unknown"), category, d.why, question);
      HeldGrowsQuietly(w, sid, pending, now);
      if sid.Some? && PendingOf(purged, sid.value).Some? {
      } else if t.validate(summary, category).Some? {
        RefusalGrows(w.audit, purged.audit,
                     Audit(sid, Rejected, None, d.summary, d.category, t.validate(summary, category).value));
      } else {
        ProposalGrows(w.audit, SetPending(purged, sid, Some(pending), now).audit,
                      Audit(sid, Proposed, Some(id), summary, category, ""));
      }
    }
  }

  lemma OtherStepsGrowQuietly(w: World, c: Classifiers, t: Texts, step: Step, now: int)
    requires !step.AttachProposal?
    ensures GrewQuietly(w.audit, Apply(w, c, t, step, now).audit)
  {
    PurgeGrowsQuietly(w, now);
    match step
    case GuardInput(sid, question) =>
      var verdict := Verdict(w, c, sid, question, now);
      if verdict.Blocked? {
        PurgeGrowsQuietly(w.(process := Tick(w.process, verdict.kind)), now);
      }
    case RecordFailure(sid, kind, reason) => PurgeGrowsQuietly(w.(process := Tick(w.process, kind)), now);
    case ResolveMemory(sid, user, question) =>
      if sid.Some? && PendingOf(Purge(w, now), sid.value).Some? {
        SettleGrowsQuietly(Purge(w, now), t, sid, user, question, PendingOf(Purge(w, now), sid.value).value, now);
      }
    case ReadMemory(_, _, _) =>
    case LookUp =>
  }

  /** No two records propose the same id, and every resolution names a session. */
  ghost predicate AuditSound(audit: seq<Audit>) {
    && (forall i, j :: 0 <= i < j < |audit| && IsProposal(audit[i]) && IsProposal(audit[j]) ==>
        audit[i].id != audit[j].id)
    && (forall i :: 0 <= i < |audit| && IsResolution(audit[i]) ==> audit[i].session.Some?)
  }

  lemma QuietGrowthIsSound(before: seq<Audit>, after: seq<Audit>)
    requires AuditSound(before) && GrewQuietly(before, after)
    ensures AuditSound(after)
  {
  }

  lemma ProposalGrowthIsSound(before: seq<Audit>, after: seq<Audit>, sid: Option<string>, id: nat)
    requires AuditSound(before) && GrewByProposal(before, after, sid, id)
    requires forall a :: a in before ==> a.id != Some(id)
    ensures AuditSound(after)
  {
    var n := |after| - 1;
    QuietGrowthIsSound(before, after[..n]);
    NewIdIsUnused(before, after[..n], id);
    assert forall i :: 0 <= i < n ==> after[i] == after[..n][i];
  }

  lemma StepKeepsAudit(w: World, c: Classifiers, t: Texts, step: Step, now: int)
    requires Enabled(w, step) && AuditSound(w.audit)
    ensures AuditSound(Apply(w, c, t, step, now).audit)
  {
    var after := Apply(w, c, t, step, now).audit;
    if step.AttachProposal? {
      AttachGrows(w, t, step.sid, step.question, step.draft, step.id, now);
      if GrewQuietly(w.audit, after) {
        QuietGrowthIsSound(w.audit, after);
      } else {
        ProposalGrowthIsSound(w.audit, after, step.sid, step.id);
      }
    } else {
      OtherStepsGrowQuietly(w, c, t, step, now);
      QuietGrowthIsSound(w.audit, after);
    }
  }

  lemma NewIdIsUnused(before: seq<Audit>, after: seq<Audit>, id: nat)
    requires GrewQuietly(before, after) && forall a :: a in before ==> a.id != Some(id)
    ensures forall i :: 0 <= i < |after| && IsProposal(after[i]) ==> after[i].id != Some(id)
  {
    forall i | 0 <= i < |after| && IsProposal(after[i]) ensures after[i].id != Some(id) {
      if i < |before| {
        assert before[i] in before;
      }
    }
  }

  // ---------- where stored entries come from ----------

  /** What the store accepted: an approved or edited proposal whose summary passed validation. */
  predicate Accepts(t: Texts, a: Audit, e: Entry) {
    && (a.outcome == Approved || a.outcome == Edited) && a.id == Some(e.id)
    && t.validate(a.summary, a.category).None?
    && t.validate(t.strip(a.summary), e.category).None?
    && (e.summary == t.strip(a.summary) || e.summary == t.clean(t.strip(a.summary)))
  }

  ghost predicate Sourced(t: Texts, audit: seq<Audit>, e: Entry) {
    exists a :: a in audit && Accepts(t, a, e)
  }

  ghost predicate AllSourced(t: Texts, audit: seq<Audit>, entries: seq<Slot>) {
    forall slot :: slot in entries ==> Sourced(t, audit, slot.entry)
  }

  /** Collapsing whitespace twice is collapsing it once. */
  ghost predicate CleansOnce(t: Texts) {
    forall s :: t.clean(t.clean(s)) == t.clean(s)
  }

  lemma CleanedIsSourced(t: Texts, audit: seq<Audit>, e: Entry)
    requires CleansOnce(t) && Sourced(t, audit, e)
    ensures Sourced(t, audit, e.(summary := t.clean(e.summary)))
  {
    var a :| a in audit && Accepts(t, a, e);
    assert Accepts(t, a, e.(summary := t.clean(e.summary)));
  }

  lemma {:induction false} PutSlotHas(entries: seq<Slot>, slot: Slot)
    ensures forall x :: x in PutSlot(entries, slot) ==> x == slot || x in entries
  {
    if entries != [] && entries[0].key != slot.key {
      PutSlotHas(entries[1..], slot);
    }
  }

  lemma {:induction false} DropSlotHas(entries: seq<Slot>, key: Key)
    ensures forall x :: x in DropSlot(entries, key) ==> x in entries
  {
    if entries != [] && entries[0].key != key {
      DropSlotHas(entries[1..], key);
    }
  }

  lemma {:induction false} EvictedHas(t: Texts, entries: seq<Slot>, user: string, hits: seq<Entry>, now: int)
    ensures forall x :: x in Evicted(t, entries, user, hits, now) ==> x in entries
  {
    if hits != [] {
      var last := hits[|hits| - 1];
      EvictedHas(t, entries, user, hits[..|hits| - 1], now);
      DropSlotHas(Evicted(t, entries, user, hits[..|hits| - 1], now),
                  ScopedKey(t, user, OrElse(last.location, "unknown"), last.category));
    }
  }

  lemma {:induction false} HitsHas(t: Texts, entries: seq<Slot>, user: string, location: string, category: string)
    ensures forall e :: e in Hits(t, entries, user, location, category) ==>
              exists slot :: slot in entries && slot.entry == e
  {
    if entries != [] {
      HitsHas(t, entries[..|entries| - 1], user, location, category);
      assert entries[|entries| - 1] in entries;
    }
  }

  lemma {:induction false} UnexpiredHas(hits: seq<Entry>, now: int)
    ensures forall e :: e in Unexpired(hits, now) ==> e in hits && !Expired(e, now)
  {
    if hits != [] {
      UnexpiredHas(hits[..|hits| - 1], now);
    }
  }

  lemma ConsolidateOneIsSourced(t: Texts, audit: seq<Audit>, entries: seq<Slot>, user: string, location: string,
                                category: string, now: int)
    requires CleansOnce(t) && AllSourced(t, audit, entries)
    ensures AllSourced(t, audit, ConsolidateOne(t, entries, user, location, category, now))
  {
    var hits := Hits(t, entries, user, location, category);
    var rows := Unexpired(hits, now);
    EvictedHas(t, entries, user, hits, now);
    HitsHas(t, entries, user, location, category);
    UnexpiredHas(hits, now);
    if rows != [] {
      assert rows[0] in rows;
      CleanedIsSourced(t, audit, rows[0]);
      PutSlotHas(AfterRead(t, entries, user, location, category, now),
                 Slot(ScopedKey(t, user, location, category), rows[0].(summary := t.clean(rows[0].summary))));
    }
  }

  lemma {:induction false} ConsolidateIsSourced(t: Texts, audit: seq<Audit>, entries: seq<Slot>, user: string,
                                                location: string, n: nat, now: int)
    requires CleansOnce(t) && AllSourced(t, audit, entries) && n <= |CATEGORIES|
    ensures AllSourced(t, audit, ConsolidateUpTo(t, entries, user, location, n, now))
  {
    if n > 0 {
      ConsolidateIsSourced(t, audit, entries, user, location, n - 1, now);
      ConsolidateOneIsSourced(t, audit, ConsolidateUpTo(t, entries, user, location, n - 1, now), user, location,
                              CATEGORIES[n - 1], now);
    }
  }

  lemma GrowthKeepsSources(t: Texts, before: seq<Audit>, after: seq<Audit>, entries: seq<Slot>)
    requires AllSourced(t, before, entries) && forall a :: a in before ==> a in after
    ensures AllSourced(t, after, entries)
  {
    forall slot | slot in entries ensures Sourced(t, after, slot.entry) {
      var a :| a in before && Accepts(t, a, slot.entry);
    }
  }

  lemma QuietGrowthHas(before: seq<Audit>, after: seq<Audit>)
    requires GrewQuietly(before, after)
    ensures forall a :: a in before ==> a in after
  {
    forall a | a in before ensures a in after {
      var i :| 0 <= i < |before| && before[i] == a;
      assert after[i] == a;
    }
  }

  /** An accepted write stores the proposal that the same step logs as approved or edited. */
  lemma WrittenIsSourced(t: Texts, audit: seq<Audit>, a: Audit, entries: seq<Slot>, user: string, location: string,
                         category: string, id: nat, now: int)
    requires CleansOnce(t) && AllSourced(t, audit, entries) && a in audit
    requires (a.outcome == Approved || a.outcome == Edited) && a.id == Some(id)
    requires t.validate(a.summary, a.category).None? && WriteRefusal(t, category, a.summary).None?
    ensures AllSourced(t, audit, Written(t, entries, user, location, category, a.summary, id, now))
  {
    var e := NewEntry(t, location, category, a.summary, id, now);
    assert Accepts(t, a, e);
    var slot := Slot(ScopedKey(t, user, e.location, e.category), e);
    PutSlotHas(entries, slot);
    ConsolidateIsSourced(t, audit, PutSlot(entries, slot), user, e.location, |CATEGORIES|, now);
  }

  /** Pending proposals carry a category, as attaching gives them one. */
  ghost predicate PendingsAreLabelled(rows: seq<Session>) {
    forall s :: s in rows && s.pending.Some? ==> s.pending.value.category != ""
  }

  lemma SettleKeepsSources(w: World, t: Texts, sid: Option<string>, user: string, question: string, p: Pending,
                           now: int)
    requires CleansOnce(t) && AllSourced(t, w.audit, w.entries) && sid.Some? && p.category != ""
    ensures
      var after := Settle(w, t, sid, user, question, p, now);
      AllSourced(t, after.audit, after.entries)
  {
    var after := Settle(w, t, sid, user, question, p, now);
    SettleGrowsQuietly(w, t, sid, user, question, p, now);
    QuietGrowthHas(w.audit, after.audit);
    GrowthKeepsSources(t, w.audit, after.audit, w.entries);
    var decision := t.decide(question);
    var summary := Proposal(decision, p);
    if !decision.Reject? && t.validate(summary, p.category).None? && WriteRefusal(t, p.category, summary).None? {
      var outcome := if decision.Edit? then Edited else Approved;
      var stored :=
        w.(entries := Written(t, w.entries, user, OrElse(p.location, "unknown"), p.category, summary, p.id, now));
      CloseGrowsQuietly(stored, sid, outcome, p, summary, "", now);
      var a := Resolution(sid, outcome, p, summary, "");
      assert a in after.audit;
      WrittenIsSourced(t, after.audit, a, w.entries, user, OrElse(p.location, "unknown"), p.category, p.id, now);
    }
  }
}
