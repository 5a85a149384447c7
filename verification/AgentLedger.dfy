/**
 The support agent's session ledger: guardrail events and counters for each session, one pending
 memory proposal, and the purge of sessions that have been quiet for too long.
 */
module AgentLedger {
  import opened Folds
  import opened Options

  const SESSION_TTL: int := 3600

  datatype Kind = Structural | Content | Security

  datatype Counts = Counts(structural: nat, content: nat, security: nat)

  function Tick(c: Counts, kind: Kind): Counts {
    match kind
    case Structural => c.(structural := c.structural + 1)
    case Content => c.(content := c.content + 1)
    case Security => c.(security := c.security + 1)
  }

  function Of(c: Counts, kind: Kind): nat {
    match kind
    case Structural => c.structural
    case Content => c.content
    case Security => c.security
  }

  datatype GuardEvent = GuardEvent(kind: Kind, reason: string, extraction: bool, time: int)

  datatype Pending = Pending(
    id: nat, summary: string, location: string, category: string, why: string, originating: string)

  datatype Session = Session(
    id: string,
    events: seq<GuardEvent>,
    extractionTurns: nat,
    counts: Counts,
    pending: Option<Pending>,
    updatedAt: int)

  datatype Outcome = Proposed | Approved | Edited | Rejected

  /** An audit record before redaction. Proposals refused at the door carry no id. */
  datatype Audit = Audit(session: Option<string>, outcome: Outcome, id: Option<nat>, summary: string, category: string,
                         reason: string)

  /** One slot of the memory store, under its scoped key. */
  datatype Key = Key(user: string, place: string, category: string)
  datatype Entry = Entry(location: string, category: string, summary: string, updatedAt: int, id: nat)
  datatype Slot = Slot(key: Key, entry: Entry)

  /** Dictionaries keep insertion order, so they are sequences with one element for each key. */
  datatype World = World(sessions: seq<Session>, process: Counts, audit: seq<Audit>, entries: seq<Slot>)

  // ---------- dictionaries ----------

  function Find(rows: seq<Session>, id: string): Option<Session> {
    if rows == [] then None
    else if rows[0].id == id then Some(rows[0])
    else Find(rows[1..], id)
  }

  /** Replace in place, or append. */
  function Put(rows: seq<Session>, s: Session): seq<Session> {
    if rows == [] then [s]
    else if rows[0].id == s.id then [s] + rows[1..]
    else [rows[0]] + Put(rows[1..], s)
  }

  ghost predicate DistinctIds(rows: seq<Session>) {
    rows == [] || (DistinctIds(rows[1..]) && forall s :: s in rows[1..] ==> s.id != rows[0].id)
  }

  // ---------- purge ----------

  predicate Alive(s: Session, now: int) { now - s.updatedAt <= SESSION_TTL }

  function Living(rows: seq<Session>, now: int): seq<Session> {
    if rows == [] then [] else (if Alive(rows[0], now) then [rows[0]] else []) + Living(rows[1..], now)
  }

  function Expiry(s: Session): Audit
    requires s.pending.Some?
  {
    Audit(Some(s.id), Rejected, Some(s.pending.value.id), s.pending.value.summary, s.pending.value.category,
          "ttl_expired")
  }

  /** The audit events of the proposals that go with their expired sessions. */
  function Expiries(rows: seq<Session>, now: int): seq<Audit> {
    if rows == [] then []
    else (if !Alive(rows[0], now) && rows[0].pending.Some? then [Expiry(rows[0])] else []) + Expiries(rows[1..], now)
  }

  function Purge(w: World, now: int): World {
    w.(sessions := Living(w.sessions, now), audit := w.audit + Expiries(w.sessions, now))
  }

  function EmptySession(id: string, now: int): Session {
    Session(id, [], 0, Counts(0, 0, 0), None, now)
  }

  /** The session a writer works on: the stored one, or a new one. */
  function Current(rows: seq<Session>, id: string, now: int): Session {
    if Find(rows, id).Some? then Find(rows, id).value else EmptySession(id, now)
  }

  // ---------- ledger operations ----------

  function PendingOf(w: World, sid: string): Option<Pending> {
    if Find(w.sessions, sid).Some? then Find(w.sessions, sid).value.pending else None
  }

  /** Set or clear the pending proposal; the purge comes first, and the session counts as used. */
  function SetPending(w: World, sid: Option<string>, pending: Option<Pending>, now: int): World {
    if sid.None? then w
    else
      var p := Purge(w, now);
      p.(sessions := Put(p.sessions, Current(p.sessions, sid.value, now).(pending := pending, updatedAt := now)))
  }

  function WithEvent(s: Session, kind: Kind, reason: string, extraction: bool, now: int): Session {
    s.(counts := Tick(s.counts, kind),
       updatedAt := now,
       events := s.events + [GuardEvent(kind, reason, extraction, now)],
       extractionTurns := if extraction then s.extractionTurns + 1 else s.extractionTurns)
  }

  function Record(w: World, sid: Option<string>, kind: Kind, reason: string, extraction: bool, now: int): World {
    var counted := w.(process := Tick(w.process, kind));
    if sid.None? then counted
    else
      var p := Purge(counted, now);
      p.(sessions := Put(p.sessions, WithEvent(Current(p.sessions, sid.value, now), kind, reason, extraction, now)))
  }

  /** The classifiers are parameters; their order and what each answer means are the agent's. */
  datatype Classifiers = Classifiers(
    injection: string -> bool,
    sensitive: string -> bool,
    personal: string -> bool,
    smallTalk: string -> bool,
    continuation: string -> bool)

  datatype Guarded = Passed | Blocked(kind: Kind, reason: string)

  function ClassifyInput(c: Classifiers, question: string): Guarded {
    if c.injection(question) then Blocked(Security, "instruction_override")
    else if c.sensitive(question) then Blocked(Security, "sensitive_extraction")
    else if c.personal(question) then Blocked(Content, "personal_use")
    else if c.smallTalk(question) then Blocked(Content, "small_talk_redirect")
    else Passed
  }

  function ExtractionTurns(w: World, sid: string): nat {
    if Find(w.sessions, sid).Some? then Find(w.sessions, sid).value.extractionTurns else 0
  }

  /** What the guard answers: the classifiers' verdict, or an escalation in a session that has tried before. */
  function Verdict(w: World, c: Classifiers, sid: Option<string>, question: string, now: int): Guarded {
    var first := ClassifyInput(c, question);
    if first.Blocked? then first
    else if sid.Some? && c.continuation(question) && ExtractionTurns(Purge(w, now), sid.value) >= 1
    then Blocked(Security, "session_extraction_continuation")
    else Passed
  }

  predicate IsExtraction(reason: string) {
    reason == "sensitive_extraction" || reason == "session_extraction_continuation"
  }

  function Guard(w: World, c: Classifiers, sid: Option<string>, question: string, now: int): World {
    var verdict := Verdict(w, c, sid, question, now);
    if verdict.Blocked? then Record(w, sid, verdict.kind, verdict.reason, IsExtraction(verdict.reason), now)
    else if sid.Some? && c.continuation(question) then Purge(w, now)
    else w
  }

  // ---------- lookup after purge ----------

  lemma {:induction false} FindHas(rows: seq<Session>, id: string)
    ensures Find(rows, id).Some? ==> Find(rows, id).value in rows && Find(rows, id).value.id == id
    ensures Find(rows, id).None? <==> forall s :: s in rows ==> s.id != id
  {
    if rows != [] {
      FindHas(rows[1..], id);
    }
  }

  lemma {:induction false} LivingHas(rows: seq<Session>, now: int)
    ensures forall s :: s in Living(rows, now) <==> s in rows && Alive(s, now)
  {
    if rows != [] {
      LivingHas(rows[1..], now);
    }
  }

  lemma {:induction false} LivingDistinct(rows: seq<Session>, now: int)
    requires DistinctIds(rows)
    ensures DistinctIds(Living(rows, now))
  {
    if rows != [] {
      LivingDistinct(rows[1..], now);
      LivingHas(rows[1..], now);
      var rest := Living(rows[1..], now);
      assert ([rows[0]] + rest)[1..] == rest && [] + rest == rest;
    }
  }

  /** Looking a session up after the purge is looking it up and discarding it when it is too old. */
  lemma {:induction false} FindAfterPurge(rows: seq<Session>, id: string, now: int)
    requires DistinctIds(rows)
    ensures Find(Living(rows, now), id)
         == if Find(rows, id).Some? && Alive(Find(rows, id).value, now) then Find(rows, id) else None
  {
    if rows != [] {
      FindAfterPurge(rows[1..], id, now);
      FindHas(rows[1..], id);
      var rest := Living(rows[1..], now);
      assert ([rows[0]] + rest)[1..] == rest && [] + rest == rest;
    }
  }

  /** A second purge at the same time does nothing. */
  lemma {:induction false} PurgeTwice(rows: seq<Session>, now: int)
    ensures Living(Living(rows, now), now) == Living(rows, now)
    ensures Expiries(Living(rows, now), now) == []
  {
    if rows != [] {
      PurgeTwice(rows[1..], now);
      var rest := Living(rows[1..], now);
      if Alive(rows[0], now) {
        assert ([rows[0]] + rest)[1..] == rest;
      } else {
        assert [] + rest == rest;
      }
    }
  }

  lemma {:induction false} FindAfterPut(rows: seq<Session>, s: Session, id: string)
    ensures Find(Put(rows, s), id) == if id == s.id then Some(s) else Find(rows, id)
  {
    if rows != [] && rows[0].id != s.id {
      FindAfterPut(rows[1..], s, id);
    }
  }

  lemma {:induction false} PutHas(rows: seq<Session>, s: Session)
    ensures forall x :: x in Put(rows, s) ==> x == s || x in rows
  {
    if rows != [] && rows[0].id != s.id {
      PutHas(rows[1..], s);
    }
  }

  lemma {:induction false} PutDistinct(rows: seq<Session>, s: Session)
    requires DistinctIds(rows)
    ensures DistinctIds(Put(rows, s))
  {
    if rows != [] {
      if rows[0].id == s.id {
        assert ([s] + rows[1..])[1..] == rows[1..];
      } else {
        PutDistinct(rows[1..], s);
        PutHas(rows[1..], s);
        var rest := Put(rows[1..], s);
        assert ([rows[0]] + rest)[1..] == rest;
      }
    }
  }

  // ---------- the counters ----------

  function OfKind(kind: Kind): GuardEvent -> bool { (e: GuardEvent) => e.kind == kind }

  function Extractions(): GuardEvent -> bool { (e: GuardEvent) => e.extraction }

  /** The counters of a session are the numbers of its own events. */
  ghost predicate Counted(s: Session) {
    && (forall kind :: Of(s.counts, kind) == Count(OfKind(kind), s.events))
    && s.extractionTurns == Count(Extractions(), s.events)
    && s.extractionTurns <= s.counts.security
  }

  function SumKind(rows: seq<Session>, kind: Kind): nat {
    if rows == [] then 0 else Of(rows[0].counts, kind) + SumKind(rows[1..], kind)
  }

  /** What holds of the ledger in every reachable state. */
  ghost predicate LedgerSound(w: World) {
    && DistinctIds(w.sessions)
    && (forall s :: s in w.sessions ==> Counted(s))
    && (forall kind :: SumKind(w.sessions, kind) <= Of(w.process, kind))
  }

  lemma EventIsCounted(s: Session, kind: Kind, reason: string, extraction: bool, now: int)
    requires Counted(s) && (extraction ==> kind == Security)
    ensures Counted(WithEvent(s, kind, reason, extraction, now))
  {
    var t := WithEvent(s, kind, reason, extraction, now);
    assert t.events[..|t.events| - 1] == s.events;
  }

  lemma {:induction false} SumOfLiving(rows: seq<Session>, kind: Kind, now: int)
    ensures SumKind(Living(rows, now), kind) <= SumKind(rows, kind)
  {
    if rows != [] {
      SumOfLiving(rows[1..], kind, now);
      var rest := Living(rows[1..], now);
      assert ([rows[0]] + rest)[1..] == rest && [] + rest == rest;
    }
  }

  lemma {:induction false} SumAfterPut(rows: seq<Session>, s: Session, kind: Kind)
    ensures SumKind(Put(rows, s), kind)
         == SumKind(rows, kind) + Of(s.counts, kind)
            - (if Find(rows, s.id).Some? then Of(Find(rows, s.id).value.counts, kind) else 0)
  {
    if rows != [] {
      if rows[0].id == s.id {
        assert ([s] + rows[1..])[1..] == rows[1..];
      } else {
        SumAfterPut(rows[1..], s, kind);
        var rest := Put(rows[1..], s);
        assert ([rows[0]] + rest)[1..] == rest;
      }
    }
  }

  lemma PurgeKeepsLedger(w: World, now: int)
    requires LedgerSound(w)
    ensures LedgerSound(Purge(w, now))
  {
    LivingDistinct(w.sessions, now);
    LivingHas(w.sessions, now);
    forall kind ensures SumKind(Living(w.sessions, now), kind) <= Of(w.process, kind) {
      SumOfLiving(w.sessions, kind, now);
    }
  }

  /** Storing a session whose counters moved with the process-wide ones keeps the ledger sound. */
  lemma PutKeepsLedger(w: World, s: Session, before: Counts, now: int)
    requires DistinctIds(w.sessions) && (forall x :: x in w.sessions ==> Counted(x)) && Counted(s)
    requires forall kind :: SumKind(w.sessions, kind) <= Of(before, kind)
    requires forall kind ::
               Of(s.counts, kind) - Of(Current(w.sessions, s.id, now).counts, kind)
                 <= Of(w.process, kind) - Of(before, kind)
    ensures LedgerSound(w.(sessions := Put(w.sessions, s)))
  {
    PutDistinct(w.sessions, s);
    PutHas(w.sessions, s);
    forall kind ensures SumKind(Put(w.sessions, s), kind) <= Of(w.process, kind) {
      SumAfterPut(w.sessions, s, kind);
    }
  }

  lemma CurrentIsCounted(rows: seq<Session>, id: string, now: int)
    requires forall s :: s in rows ==> Counted(s)
    ensures Counted(Current(rows, id, now)) && Current(rows, id, now).id == id
  {
    FindHas(rows, id);
  }

  lemma SetPendingKeepsLedger(w: World, sid: Option<string>, pending: Option<Pending>, now: int)
    requires LedgerSound(w)
    ensures LedgerSound(SetPending(w, sid, pending, now))
  {
    if sid.Some? {
      PurgeKeepsLedger(w, now);
      var p := Purge(w, now);
      CurrentIsCounted(p.sessions, sid.value, now);
      PutKeepsLedger(p, Current(p.sessions, sid.value, now).(pending := pending, updatedAt := now), p.process, now);
    }
  }

  lemma RecordKeepsLedger(w: World, sid: Option<string>, kind: Kind, reason: string, extraction: bool, now: int)
    requires LedgerSound(w) && (extraction ==> kind == Security)
    ensures LedgerSound(Record(w, sid, kind, reason, extraction, now))
  {
    if sid.Some? {
      PurgeKeepsLedger(w, now);
      var p := Purge(w.(process := Tick(w.process, kind)), now);
      var s := Current(p.sessions, sid.value, now);
      CurrentIsCounted(p.sessions, sid.value, now);
      EventIsCounted(s, kind, reason, extraction, now);
      PutKeepsLedger(p, WithEvent(s, kind, reason, extraction, now), w.process, now);
    }
  }

  lemma GuardKeepsLedger(w: World, c: Classifiers, sid: Option<string>, question: string, now: int)
    requires LedgerSound(w)
    ensures LedgerSound(Guard(w, c, sid, question, now))
  {
    var verdict := Verdict(w, c, sid, question, now);
    if verdict.Blocked? {
      RecordKeepsLedger(w, sid, verdict.kind, verdict.reason, IsExtraction(verdict.reason), now);
    } else {
      PurgeKeepsLedger(w, now);
    }
  }

  lemma CurrentIsCountedId(rows: seq<Session>, id: string, now: int)
    ensures Current(rows, id, now).id == id
  {
    FindHas(rows, id);
  }
}
