/** What each node of the agent leaves in the sessions, the log and the store, field by field. */
module AgentEffects {
  import opened Folds
  import opened Options
  import opened AgentLedger
  import opened AgentMemory
  import opened AgentTheorems
  import opened AgentConsolidation

  // ---------- sessions and the log ----------

  /** The session as a call at `now` finds it: gone when quiet for more than an hour. */
  function Found(w: World, sid: string, now: int): Option<Session> {
    var s := Find(w.sessions, sid);
    if s.Some? && now - s.value.updatedAt <= 3600 then s else None
  }

  /** All sessions but `sid` are as a call finds them. */
  ghost predicate OthersFound(w: World, u: World, sid: Option<string>, now: int) {
    forall id :: Some(id) != sid ==> Find(u.sessions, id) == Found(w, id, now)
  }

  /** One record for each proposal that goes with its session. */
  ghost predicate AreExpiries(records: seq<Audit>, rows: seq<Session>, now: int) {
    forall a :: a in records <==>
      exists s ::
        && s in rows && now - s.updatedAt > 3600 && s.pending.Some?
        && a == Audit(Some(s.id), Rejected, Some(s.pending.value.id), s.pending.value.summary, s.pending.value.category,
                      "ttl_expired")
  }

  /** The log grew by the records of expired proposals, and then by `last`. */
  ghost predicate LogGrew(w: World, u: World, last: seq<Audit>, now: int) {
    exists records :: AreExpiries(records, w.sessions, now) && u.audit == w.audit + records + last
  }

  lemma {:induction false} ExpiriesAre(rows: seq<Session>, now: int)
    ensures AreExpiries(Expiries(rows, now), rows, now)
  {
    if rows != [] {
      ExpiriesAre(rows[1..], now);
      assert rows == [rows[0]] + rows[1..];
    }
  }

  /** Purging takes the sessions quiet for more than an hour, logs what was pending in them, and nothing else. */
  lemma PurgeTakes(w: World, now: int, u: World)
    requires DistinctIds(w.sessions) && u == Purge(w, now)
    ensures OthersFound(w, u, None, now) && LogGrew(w, u, [], now)
    ensures u.process == w.process && u.entries == w.entries
  {
    ExpiriesAre(w.sessions, now);
    assert u.audit == w.audit + Expiries(w.sessions, now) + [];
    forall id
      ensures Find(u.sessions, id) == Found(w, id, now)
    {
      FindAfterPurge(w.sessions, id, now);
    }
  }

  /** What a session has counted so far; a session not found has counted nothing. */
  ghost predicate Counted(before: Option<Session>, events: seq<GuardEvent>, counts: Counts, turns: nat) {
    if before.Some? then
      events == before.value.events && counts == before.value.counts && turns == before.value.extractionTurns
    else events == [] && counts == Counts(0, 0, 0) && turns == 0
  }

  /** The session's proposal is `pending`; it was used at `now` and is otherwise as it was found. */
  ghost predicate PendingBecomes(w: World, u: World, sid: string, pending: Option<Pending>, now: int) {
    var s := Find(u.sessions, sid);
    && s.Some? && s.value.id == sid && s.value.pending == pending && s.value.updatedAt == now
    && Counted(Found(w, sid, now), s.value.events, s.value.counts, s.value.extractionTurns)
  }

  lemma PendingIsSet(w: World, sid: string, pending: Option<Pending>, now: int, u: World)
    requires DistinctIds(w.sessions) && u == SetPending(w, Some(sid), pending, now)
    ensures PendingBecomes(w, u, sid, pending, now) && OthersFound(w, u, Some(sid), now) && LogGrew(w, u, [], now)
    ensures u.process == w.process && u.entries == w.entries
  {
    var p := Purge(w, now);
    PurgeTakes(w, now, p);
    var s := Current(p.sessions, sid, now).(pending := pending, updatedAt := now);
    FindHas(p.sessions, sid);
    assert Find(p.sessions, sid) == Found(w, sid, now);
    forall id
      ensures Find(u.sessions, id) == if id == sid then Some(s) else Find(p.sessions, id)
    {
      FindAfterPut(p.sessions, s, id);
    }
  }

  // ---------- guardrail events ----------

  /** One more of the kind. */
  predicate OneMoreOf(before: Counts, after: Counts, kind: Kind) {
    && after.structural == before.structural + (if kind == Structural then 1 else 0)
    && after.content == before.content + (if kind == Content then 1 else 0)
    && after.security == before.security + (if kind == Security then 1 else 0)
  }

  /** The session has one more event and one more of its kind, and one more extraction turn if it is one. */
  ghost predicate EventAdded(before: Option<Session>, after: Session, e: GuardEvent) {
    exists events, counts, turns: nat ::
      && Counted(before, events, counts, turns)
      && after.events == events + [e] && OneMoreOf(counts, after.counts, e.kind)
      && after.extractionTurns == turns + (if e.extraction then 1 else 0)
      && after.pending == (if before.Some? then before.value.pending else None)
      && after.updatedAt == e.time
  }

  /** The process always counts the event; a session records it too. */
  ghost predicate EventRecorded(w: World, u: World, sid: Option<string>, e: GuardEvent) {
    && OneMoreOf(w.process, u.process, e.kind) && u.entries == w.entries
    && if sid.None? then u.sessions == w.sessions && u.audit == w.audit
       else
         && Find(u.sessions, sid.value).Some?
         && EventAdded(Found(w, sid.value, e.time), Find(u.sessions, sid.value).value, e)
         && OthersFound(w, u, sid, e.time) && LogGrew(w, u, [], e.time)
  }

  lemma RecordRecords(w: World, sid: Option<string>, kind: Kind, reason: string, extraction: bool, now: int, u: World)
    requires DistinctIds(w.sessions) && u == Record(w, sid, kind, reason, extraction, now)
    ensures EventRecorded(w, u, sid, GuardEvent(kind, reason, extraction, now))
  {
    var e := GuardEvent(kind, reason, extraction, now);
    if sid.Some? {
      var p := Purge(w.(process := Tick(w.process, kind)), now);
      PurgeTakes(w, now, Purge(w, now));
      assert p.sessions == Purge(w, now).sessions && p.audit == Purge(w, now).audit;
      var s := Current(p.sessions, sid.value, now);
      var after := WithEvent(s, kind, reason, extraction, now);
      FindHas(p.sessions, sid.value);
      EventIsAdded(Found(w, sid.value, now), s, e, after);
      forall id
        ensures Find(u.sessions, id) == if id == sid.value then Some(after) else Find(p.sessions, id)
      {
        FindAfterPut(p.sessions, after, id);
      }
    }
  }

  lemma EventIsAdded(before: Option<Session>, s: Session, e: GuardEvent, after: Session)
    requires if before.Some? then s == before.value else s == EmptySession(s.id, e.time)
    requires after == WithEvent(s, e.kind, e.reason, e.extraction, e.time)
    ensures EventAdded(before, after, e)
  {
    assert Counted(before, s.events, s.counts, s.extractionTurns);
  }

  /** Which refusal a question gets: the first classifier that answers yes decides, and a session's memory last. */
  ghost predicate Judged(w: World, c: Classifiers, sid: Option<string>, question: string, now: int, verdict: Guarded) {
    var tried := sid.Some? && Found(w, sid.value, now).Some? && Found(w, sid.value, now).value.extractionTurns > 0;
    match verdict
    case Blocked(kind, "instruction_override") => kind == Security && c.injection(question)
    case Blocked(kind, "sensitive_extraction") =>
      kind == Security && !c.injection(question) && c.sensitive(question)
    case Blocked(kind, "personal_use") =>
      kind == Content && !c.injection(question) && !c.sensitive(question) && c.personal(question)
    case Blocked(kind, "small_talk_redirect") =>
      && kind == Content && !c.injection(question) && !c.sensitive(question) && !c.personal(question)
      && c.smallTalk(question)
    case Blocked(kind, "session_extraction_continuation") =>
      && kind == Security && !c.injection(question) && !c.sensitive(question) && !c.personal(question)
      && !c.smallTalk(question) && c.continuation(question) && tried
    case Blocked(_, _) => false
    case Passed =>
      && !c.injection(question) && !c.sensitive(question) && !c.personal(question) && !c.smallTalk(question)
      && !(c.continuation(question) && tried)
  }

  /** The guard's answer is the one that is justified, and a refusal is recorded under its reason. */
  lemma GuardJudges(w: World, c: Classifiers, sid: Option<string>, question: string, now: int, u: World)
    requires DistinctIds(w.sessions) && u == Guard(w, c, sid, question, now)
    ensures
      var verdict := Verdict(w, c, sid, question, now);
      && Judged(w, c, sid, question, now, verdict)
      && if verdict.Blocked? then
           var extraction := verdict.reason == "sensitive_extraction"
                             || verdict.reason == "session_extraction_continuation";
           EventRecorded(w, u, sid, GuardEvent(verdict.kind, verdict.reason, extraction, now))
         else
           && u.process == w.process && u.entries == w.entries
           && if sid.Some? && c.continuation(question)
              then OthersFound(w, u, None, now) && LogGrew(w, u, [], now)
              else u == w
  {
    var verdict := Verdict(w, c, sid, question, now);
    PurgeTakes(w, now, Purge(w, now));
    if verdict.Blocked? {
      RecordRecords(w, sid, verdict.kind, verdict.reason, IsExtraction(verdict.reason), now, u);
    }
  }

  // ---------- a decision on the pending proposal ----------

  /** The text that an answer other than a rejection asks to keep. */
  function Wanted(decision: Decision, p: Pending): string {
    match decision
    case Edit(text) => if text != "" then text else p.summary
    case Approve => p.summary
    case Reject => p.summary
  }

  /** The category it is kept under; none given is a known incident. */
  function FiledUnder(p: Pending): string {
    if p.category != "" then p.category else "known_incidents"
  }

  /** The checks find nothing wrong with the text, before and after trimming. */
  predicate Storable(t: Texts, text: string, category: string) {
    t.validate(text, category) == None && t.validate(t.strip(text), t.strip(category)) == None
  }

  /** The first check that fails names the reason. */
  predicate Faulted(t: Texts, text: string, category: string, reason: string) {
    || t.validate(text, category) == Some(reason)
    || (t.validate(text, category) == None && t.validate(t.strip(text), t.strip(category)) == Some(reason))
  }

  /** The proposal is no longer pending, and the log says how it ended. */
  ghost predicate Ended(w: World, u: World, sid: string, p: Pending, outcome: Outcome, summary: string, reason: string,
                        now: int)
  {
    && PendingBecomes(w, u, sid, None, now) && OthersFound(w, u, Some(sid), now) && u.process == w.process
    && LogGrew(w, u, [Audit(Some(sid), outcome, Some(p.id), summary, p.category, reason)], now)
  }

  /** A refused answer that goes on to be answered: text besides the refusal, a question mark, or many words. */
  predicate ReadsAsQuestion(t: Texts, question: string) {
    || (t.residual(question) !in {"", question} && t.words(t.residual(question)) >= 3)
    || '?' in question || t.words(question) >= 9
  }

  lemma CloseEnds(w: World, v: World, sid: string, p: Pending, outcome: Outcome, summary: string, reason: string,
                  now: int, u: World)
    requires DistinctIds(w.sessions) && v.sessions == Purge(w, now).sessions && v.audit == Purge(w, now).audit
    requires v.process == w.process && u == Close(v, Some(sid), outcome, p, summary, reason, now)
    ensures Ended(w, u, sid, p, outcome, summary, reason, now) && u.entries == v.entries
  {
    var record := Audit(Some(sid), outcome, Some(p.id), summary, p.category, reason);
    var logged := Log(v, record);
    PurgeTakes(w, now, Purge(w, now));
    LivingDistinct(w.sessions, now);
    PurgeTwice(w.sessions, now);
    PendingIsSet(logged, sid, None, now, u);
    ExpiriesAre(w.sessions, now);
    assert u.audit == v.audit + [record] + [];
    assert v.audit == w.audit + Expiries(w.sessions, now);
    forall id
      ensures Found(logged, id, now) == Found(w, id, now)
    {
      FindAfterPurge(w.sessions, id, now);
    }
  }

  /** What `Resolve` does once the proposal is found. */
  lemma ResolveUnfolds(w: World, t: Texts, sid: string, user: string, question: string, p: Pending, now: int)
    requires DistinctIds(w.sessions) && Found(w, sid, now).Some? && Found(w, sid, now).value.pending == Some(p)
    ensures Resolve(w, t, Some(sid), user, question, now)
         == Settle(Purge(w, now), t, Some(sid), user, question, p, now)
    ensures Reply(w, t, Some(sid), question, now) == SettledReply(t, question, p)
  {
    FindAfterPurge(w.sessions, sid, now);
  }

  /** A rejection stores nothing and ends the proposal with its own text; a new question goes on to be answered. */
  lemma RejectionEnds(w: World, t: Texts, sid: string, user: string, question: string, p: Pending, now: int, u: World)
    requires DistinctIds(w.sessions) && Found(w, sid, now).Some? && Found(w, sid, now).value.pending == Some(p)
    requires t.decide(question) == Reject && u == Resolve(w, t, Some(sid), user, question, now)
    ensures
      var goesOn := ReadsAsQuestion(t, question);
      && Reply(w, t, Some(sid), question, now) == AgentMemory.Refused(goesOn) && u.entries == w.entries
      && Ended(w, u, sid, p, Rejected, p.summary, if goesOn then "topic_change" else "ambiguous", now)
  {
    ResolveUnfolds(w, t, sid, user, question, p, now);
    CloseEnds(w, Purge(w, now), sid, p, Rejected, p.summary,
              if TopicChange(t, question) then "topic_change" else "ambiguous", now, u);
  }

  /** A text that a check refuses is not stored; the proposal ends rejected, with the text and the reason. */
  lemma FaultyTextEnds(w: World, t: Texts, sid: string, user: string, question: string, p: Pending, now: int, u: World)
    requires DistinctIds(w.sessions) && Found(w, sid, now).Some? && Found(w, sid, now).value.pending == Some(p)
    requires t.decide(question) != Reject && u == Resolve(w, t, Some(sid), user, question, now)
    requires !Storable(t, Wanted(t.decide(question), p), FiledUnder(p))
    ensures
      var text := Wanted(t.decide(question), p);
      && Reply(w, t, Some(sid), question, now) == AgentMemory.Refused(false) && u.entries == w.entries
      && exists reason :: Faulted(t, text, FiledUnder(p), reason) && Ended(w, u, sid, p, Rejected, text, reason, now)
  {
    var text, category := Wanted(t.decide(question), p), FiledUnder(p);
    ResolveUnfolds(w, t, sid, user, question, p, now);
    var reason := if t.validate(text, category).Some? then t.validate(text, category).value
                  else WriteRefusal(t, category, text).value;
    assert Faulted(t, text, category, reason);
    CloseEnds(w, Purge(w, now), sid, p, Rejected, text, reason, now, u);
  }

  /** Text left of an accepted answer that still asks for something. */
  ghost predicate LeavesRequest(t: Texts, question: string, follow: Option<string>) {
    var residual := t.residual(question);
    if residual != "" && t.strip(residual) !in {"", t.strip(question)} && ('?' in residual || t.words(residual) >= 4)
    then follow == Some(t.strip(residual)) else follow == None
  }

  /** An answer whose text passes ends the proposal approved or, when it carries a text, edited with that text. */
  lemma AcceptanceEnds(w: World, t: Texts, sid: string, user: string, question: string, p: Pending, now: int, u: World)
    requires DistinctIds(w.sessions) && Found(w, sid, now).Some? && Found(w, sid, now).value.pending == Some(p)
    requires t.decide(question) != Reject && u == Resolve(w, t, Some(sid), user, question, now)
    requires Storable(t, Wanted(t.decide(question), p), FiledUnder(p))
    ensures
      var edited := t.decide(question).Edit?;
      var reply := Reply(w, t, Some(sid), question, now);
      && reply.Saved? && reply.edited == edited && LeavesRequest(t, question, reply.follow)
      && Ended(w, u, sid, p, if edited then Edited else Approved, Wanted(t.decide(question), p), "", now)
  {
    var text, category := Wanted(t.decide(question), p), FiledUnder(p);
    ResolveUnfolds(w, t, sid, user, question, p, now);
    var v := Purge(w, now);
    CloseEnds(w, v.(entries := Written(t, v.entries, user, OrElse(p.location, "unknown"), category, text, p.id, now)),
              sid, p, if t.decide(question).Edit? then Edited else Approved, text, "", now, u);
  }

  /** Without a pending proposal nothing is decided. */
  lemma NothingToResolve(w: World, t: Texts, sid: Option<string>, user: string, question: string, now: int, u: World)
    requires DistinctIds(w.sessions) && u == Resolve(w, t, sid, user, question, now)
    requires sid.Some? && Found(w, sid.value, now).Some? ==> Found(w, sid.value, now).value.pending.None?
    ensures Reply(w, t, sid, question, now) == NothingPending && u.entries == w.entries && u.process == w.process
    ensures if sid.None? then u == w else OthersFound(w, u, None, now) && LogGrew(w, u, [], now)
  {
    if sid.Some? {
      PurgeTakes(w, now, Purge(w, now));
    }
  }

  // ---------- the stored text ----------

  /** The place a text is kept for: the trimmed name, or "unknown" when that leaves nothing. */
  function KeptFor(t: Texts, p: Pending): string {
    var name := if p.location != "" then p.location else "unknown";
    if t.strip(name) != "" then t.strip(name) else "unknown"
  }

  /** The entry that an accepted answer asks to keep. */
  function Asks(t: Texts, question: string, p: Pending, now: int): Entry {
    Entry(KeptFor(t, p), t.strip(FiledUnder(p)), t.strip(Wanted(t.decide(question), p)), now, p.id)
  }

  /** Its slot: the user, the place's token and the category in lower case. */
  ghost predicate IsSlotOf(t: Texts, key: Key, user: string, e: Entry) {
    && key.user == user && key.place == (if t.token(e.location) != "" then t.token(e.location) else "unknown")
    && key.category == t.lower(t.strip(if e.category != "" then e.category else "known_incidents"))
  }

  /**
   An accepted answer is stored: after it the slot of its place and category holds the wanted text, trimmed
   and at most with its white space normalized, under the proposal's id, unless an older entry of a matching
   place gets in the way.
   */
  lemma AcceptanceStores(w: World, t: Texts, sid: string, user: string, question: string, p: Pending, now: int,
                         u: World, key: Key)
    requires DistinctIds(w.sessions) && Found(w, sid, now).Some? && Found(w, sid, now).value.pending == Some(p)
    requires t.decide(question) != Reject && u == Resolve(w, t, Some(sid), user, question, now)
    requires Storable(t, Wanted(t.decide(question), p), FiledUnder(p))
    requires SoundNames(t) && StoreSound(t, w.entries) && IsSlotOf(t, key, user, Asks(t, question, p, now))
    requires key.category in {"hours", "suppliers", "known_incidents", "comms_prefs"}
    requires NothingInTheWay(t, w.entries, user, Asks(t, question, p, now).location, key)
    ensures StillHolds(t, Slotted(u.entries, key), Asks(t, question, p, now))
  {
    var e := Asks(t, question, p, now);
    var v := Purge(w, now);
    ResolveUnfolds(w, t, sid, user, question, p, now);
    assert e == NewEntry(t, OrElse(p.location, "unknown"), FiledUnder(p), Wanted(t.decide(question), p), p.id, now);
    NoForeign(t, w.entries, user, e.location, key, Asked(t, Slot(key, e), user, e.location, key.category), now);
    SlottedAfterWrite(t, w.entries, user, e.location, key, e, now);
  }

  /** No entry of another slot has this category and a matching place. */
  ghost predicate NothingInTheWay(t: Texts, entries: seq<Slot>, user: string, location: string, key: Key) {
    forall slot :: slot in entries && slot.key != key && slot.key.user == user ==>
      slot.entry.category != key.category || (location != "" && !t.matches(slot.entry.location, location))
  }

  lemma {:induction false} NoForeign(t: Texts, entries: seq<Slot>, user: string, location: string, key: Key, own: bool,
                                     now: int)
    requires NothingInTheWay(t, entries, user, location, key) && key.category != ""
    ensures FirstForeign(t, entries, user, location, key.category, key, own, now) == None
    ensures !Stray(t, entries, user, location, key.category, key, now)
  {
    if entries != [] {
      NoForeign(t, entries[1..], user, location, key, own, now);
      assert entries == [entries[0]] + entries[1..];
      assert entries[0] in entries;
    }
  }

  // ---------- a new proposal ----------

  /** Nothing but the log differs, and without a session not even expired sessions are looked at. */
  ghost predicate OnlyLogged(w: World, u: World, sid: Option<string>, last: seq<Audit>, now: int) {
    if sid.Some? then OthersFound(w, u, None, now) && LogGrew(w, u, last, now)
    else u.sessions == w.sessions && u.audit == w.audit + last
  }

  /** The proposal as it is kept pending: trimmed, with a place and a category, and with the question it came from. */
  predicate IsPendingFor(p: Pending, t: Texts, d: Draft, question: string, id: nat) {
    && p.id == id && p.summary == t.strip(d.summary) && p.why == d.why && p.originating == question
    && p.location == (if d.location != "" then d.location else "unknown")
    && p.category == (if d.category != "" then d.category else "known_incidents")
  }

  /**
   At most one proposal is pending: a draft is dropped while another waits, refused with the reason of the
   check, or kept pending and logged under its id.
   */
  lemma DraftIsAttached(w: World, t: Texts, sid: Option<string>, question: string, d: Draft, id: nat, now: int,
                        u: World, p: Pending)
    requires DistinctIds(w.sessions) && u == Attach(w, t, sid, question, Some(d), id, now)
    requires IsPendingFor(p, t, d, question, id)
    ensures u.process == w.process && u.entries == w.entries
    ensures
      var waits := sid.Some? && Found(w, sid.value, now).Some? && Found(w, sid.value, now).value.pending.Some?;
      var fault := t.validate(p.summary, p.category);
      if waits then OnlyLogged(w, u, sid, [], now)
      else if fault.Some? then
        OnlyLogged(w, u, sid, [Audit(sid, Rejected, None, d.summary, d.category, fault.value)], now)
      else
        var record := Audit(sid, Proposed, Some(id), p.summary, p.category, "");
        if sid.None? then OnlyLogged(w, u, sid, [record], now)
        else
          && PendingBecomes(w, u, sid.value, Some(p), now) && OthersFound(w, u, sid, now)
          && LogGrew(w, u, [record], now)
  {
    if sid.Some? {
      var purged := Purge(w, now);
      PurgeTakes(w, now, purged);
      ExpiriesAre(w.sessions, now);
      if PendingOf(purged, sid.value).None? && t.validate(p.summary, p.category).None? {
        ProposalIsPending(w, sid.value, p, Audit(sid, Proposed, Some(id), p.summary, p.category, ""), now, u);
      }
    }
  }

  lemma ProposalIsPending(w: World, sid: string, p: Pending, record: Audit, now: int, u: World)
    requires DistinctIds(w.sessions) && u == Log(SetPending(Purge(w, now), Some(sid), Some(p), now), record)
    ensures PendingBecomes(w, u, sid, Some(p), now) && OthersFound(w, u, Some(sid), now) && LogGrew(w, u, [record], now)
  {
    var purged := Purge(w, now);
    PurgeTakes(w, now, purged);
    LivingDistinct(w.sessions, now);
    PurgeTwice(w.sessions, now);
    PendingIsSet(purged, sid, Some(p), now, SetPending(purged, Some(sid), Some(p), now));
    ExpiriesAre(w.sessions, now);
    assert purged.audit + [] == purged.audit;
    assert u.audit == w.audit + Expiries(w.sessions, now) + [record];
    forall id
      ensures Found(purged, id, now) == Found(w, id, now)
    {
      FindAfterPurge(w.sessions, id, now);
    }
  }

  // ---------- reading the store ----------

  /** The slot is the user's and fits the location and the category asked for; an empty one asks for all. */
  predicate Fits(t: Texts, slot: Slot, user: string, location: string, category: string) {
    && slot.key.user == user && (location != "" ==> t.matches(slot.entry.location, location))
    && (category != "" ==> slot.entry.category == category)
  }

  /** Older than 180 days. */
  predicate TooOld(e: Entry, now: int) {
    now - e.updatedAt > 180 * 24 * 3600
  }

  function Live(t: Texts, user: string, location: string, category: string, now: int): Slot -> bool {
    (slot: Slot) => Fits(t, slot, user, location, category) && !TooOld(slot.entry, now)
  }

  function EntriesOf(slots: seq<Slot>): seq<Entry> {
    seq(|slots|, i requires 0 <= i < |slots| => slots[i].entry)
  }

  /** A read returns the entries of the fitting slots that are not too old, in the order of the store. */
  lemma {:induction false} ReadReturns(t: Texts, entries: seq<Slot>, user: string, location: string, category: string,
                                       now: int)
    ensures Answer(t, entries, user, location, category, now)
         == EntriesOf(Filter(Live(t, user, location, category, now), entries))
  {
    if entries != [] {
      var rest, last := entries[..|entries| - 1], entries[|entries| - 1];
      ReadReturns(t, rest, user, location, category, now);
      assert entries == rest + [last];
      HitsOfBoth(t, rest, [last], user, location, category);
      assert [last][..0] == [] && [last.entry][..0] == [];
      var before, here := Hits(t, rest, user, location, category), Hits(t, [last], user, location, category);
      UnexpiredOfBoth(before, here, now);
      assert Unexpired(here, now) == if Live(t, user, location, category, now)(last) then [last.entry] else [];
    }
  }

  /** The slot that the labels of an entry name. */
  predicate Names(t: Texts, user: string, e: Entry, key: Key) {
    var place := t.token(if e.location != "" then e.location else "unknown");
    && key.user == user && key.place == (if place != "" then place else "unknown")
    && key.category == t.lower(t.strip(if e.category != "" then e.category else "known_incidents"))
  }

  lemma LabelsName(t: Texts, user: string, e: Entry, key: Key)
    ensures LabelKey(t, user, e) == key <==> Names(t, user, e, key)
  {
  }

  /** A fitting entry that is too old names the slot. */
  ghost predicate NamedByOld(t: Texts, entries: seq<Slot>, user: string, location: string, category: string, now: int,
                             key: Key)
  {
    exists y :: && y in entries && Fits(t, y, user, location, category) && TooOld(y.entry, now)
                && Names(t, user, y.entry, key)
  }

  lemma OldHitNames(t: Texts, entries: seq<Slot>, user: string, location: string, category: string, now: int, key: Key)
    ensures Evicts(t, Hits(t, entries, user, location, category), user, key, now)
            <==> NamedByOld(t, entries, user, location, category, now, key)
  {
    var hits := Hits(t, entries, user, location, category);
    HitsAre(t, entries, user, location, category);
    if Evicts(t, hits, user, key, now) {
      var h :| h in hits && Expired(h, now) && LabelKey(t, user, h) == key;
      LabelsName(t, user, h, key);
    }
    if NamedByOld(t, entries, user, location, category, now, key) {
      var y :| y in entries && Fits(t, y, user, location, category) && TooOld(y.entry, now)
               && Names(t, user, y.entry, key);
      LabelsName(t, user, y.entry, key);
      assert Asked(t, y, user, location, category);
    }
  }

  /** A read deletes exactly the slots that the labels of a fitting entry which is too old name. */
  lemma ReadDeletes(t: Texts, entries: seq<Slot>, user: string, location: string, category: string, now: int, x: Slot)
    requires DistinctSlots(entries)
    ensures x in AfterRead(t, entries, user, location, category, now) <==>
              x in entries && !NamedByOld(t, entries, user, location, category, now, x.key)
  {
    EvictedIs(t, entries, user, Hits(t, entries, user, location, category), now);
    OldHitNames(t, entries, user, location, category, now, x.key);
  }

  /**
   One pass of the consolidation: when the first entry that a read of the category returns has white space
   to normalize, it goes normalized into the location's slot; other slots are as the read leaves them.
   */
  lemma PassNormalizes(t: Texts, entries: seq<Slot>, user: string, location: string, category: string, now: int,
                       key: Key, x: Slot)
    requires DistinctSlots(entries) && category != ""
    requires key.user == user && key.category == t.lower(t.strip(category))
    requires key.place == if t.token(location) != "" then t.token(location) else "unknown"
    ensures
      var live := EntriesOf(Filter(Live(t, user, location, category, now), entries));
      var read := AfterRead(t, entries, user, location, category, now);
      x in ConsolidateOne(t, entries, user, location, category, now) <==>
        if live != [] && t.clean(live[0].summary) != live[0].summary && x.key == key
        then x.entry == live[0].(summary := t.clean(live[0].summary))
        else x in read
  {
    ReadReturns(t, entries, user, location, category, now);
    EvictedIs(t, entries, user, Hits(t, entries, user, location, category), now);
    var rows := Answer(t, entries, user, location, category, now);
    if rows != [] {
      PutSlotIs(AfterRead(t, entries, user, location, category, now),
                Slot(key, rows[0].(summary := t.clean(rows[0].summary))));
    }
  }
}
