/** The agent's memory: writing and reading entries, and the confirmation of pending proposals. */
module AgentMemory {
  import opened Options
  import opened AgentLedger

  const ENTRY_TTL: int := 180 * 24 * 3600
  const CATEGORIES: seq<string> := ["hours", "suppliers", "known_incidents", "comms_prefs"]

  datatype Decision = Approve | Edit(text: string) | Reject

  /** Text processing, as parameters. */
  datatype Texts = Texts(
    strip: string -> string,
    clean: string -> string,
    token: string -> string,
    lower: string -> string,
    matches: (string, string) -> bool,
    validate: (string, string) -> Option<string>,
    decide: string -> Decision,
    residual: string -> string,
    words: string -> nat)

  function OrElse(s: string, otherwise: string): string {
    if s == "" then otherwise else s
  }

  // ---------- the store ----------

  function ScopedKey(t: Texts, user: string, location: string, category: string): Key {
    Key(user, OrElse(t.token(location), "unknown"), t.lower(t.strip(OrElse(category, "known_incidents"))))
  }

  function Slotted(entries: seq<Slot>, key: Key): Option<Entry> {
    if entries == [] then None
    else if entries[0].key == key then Some(entries[0].entry)
    else Slotted(entries[1..], key)
  }

  function PutSlot(entries: seq<Slot>, slot: Slot): seq<Slot> {
    if entries == [] then [slot]
    else if entries[0].key == slot.key then [slot] + entries[1..]
    else [entries[0]] + PutSlot(entries[1..], slot)
  }

  function DropSlot(entries: seq<Slot>, key: Key): seq<Slot> {
    if entries == [] then []
    else if entries[0].key == key then entries[1..]
    else [entries[0]] + DropSlot(entries[1..], key)
  }

  predicate Expired(e: Entry, now: int) { now - e.updatedAt > ENTRY_TTL }

  /** The filters of a read; an empty location or category does not filter. */
  predicate Asked(t: Texts, slot: Slot, user: string, location: string, category: string) {
    && slot.key.user == user
    && (location == "" || t.matches(slot.entry.location, location))
    && (category == "" || slot.entry.category == category)
  }

  function Hits(t: Texts, entries: seq<Slot>, user: string, location: string, category: string): seq<Entry> {
    if entries == [] then []
    else
      Hits(t, entries[..|entries| - 1], user, location, category)
      + (if Asked(t, entries[|entries| - 1], user, location, category) then [entries[|entries| - 1].entry] else [])
  }

  function Unexpired(hits: seq<Entry>, now: int): seq<Entry> {
    if hits == [] then []
    else Unexpired(hits[..|hits| - 1], now) + (if Expired(hits[|hits| - 1], now) then [] else [hits[|hits| - 1]])
  }

  /** Deletes the slot that each expired hit's own labels point to. */
  function Evicted(t: Texts, entries: seq<Slot>, user: string, hits: seq<Entry>, now: int): seq<Slot> {
    if hits == [] then entries
    else
      var last := hits[|hits| - 1];
      var before := Evicted(t, entries, user, hits[..|hits| - 1], now);
      if Expired(last, now) then DropSlot(before, ScopedKey(t, user, OrElse(last.location, "unknown"), last.category))
        else before
  }

  function Answer(t: Texts, entries: seq<Slot>, user: string, location: string, category: string, now: int): seq<Entry>
  {
    Unexpired(Hits(t, entries, user, location, category), now)
  }

  function AfterRead(t: Texts, entries: seq<Slot>, user: string, location: string, category: string,
                     now: int): seq<Slot>
  {
    Evicted(t, entries, user, Hits(t, entries, user, location, category), now)
  }

  /** Normalize the whitespace of the first entry that a read of one category returns. */
  function ConsolidateOne(t: Texts, entries: seq<Slot>, user: string, location: string, category: string,
                          now: int): seq<Slot>
  {
    var rows := Answer(t, entries, user, location, category, now);
    var kept := AfterRead(t, entries, user, location, category, now);
    if rows == [] || t.clean(rows[0].summary) == rows[0].summary then kept
    else PutSlot(kept, Slot(ScopedKey(t, user, location, category), rows[0].(summary := t.clean(rows[0].summary))))
  }

  function ConsolidateUpTo(t: Texts, entries: seq<Slot>, user: string, location: string, n: nat, now: int): seq<Slot>
    requires n <= |CATEGORIES|
  {
    if n == 0 then entries
    else ConsolidateOne(t, ConsolidateUpTo(t, entries, user, location, n - 1, now), user, location, CATEGORIES[n - 1],
                        now)
  }

  function Consolidate(t: Texts, entries: seq<Slot>, user: string, location: string, now: int): seq<Slot> {
    ConsolidateUpTo(t, entries, user, location, |CATEGORIES|, now)
  }

  function StoredLocation(t: Texts, location: string): string {
    OrElse(t.strip(OrElse(location, "unknown")), "unknown")
  }

  function StoredCategory(t: Texts, category: string): string {
    t.strip(OrElse(category, "known_incidents"))
  }

  /** Why a write is refused, if it is. */
  function WriteRefusal(t: Texts, category: string, summary: string): Option<string> {
    t.validate(t.strip(summary), StoredCategory(t, category))
  }

  function NewEntry(t: Texts, location: string, category: string, summary: string, id: nat, now: int): Entry {
    Entry(StoredLocation(t, location), StoredCategory(t, category), t.strip(summary), now, id)
  }

  /** The store after an accepted write. */
  function Written(t: Texts, entries: seq<Slot>, user: string, location: string, category: string, summary: string,
                   id: nat, now: int)
    : seq<Slot>
  {
    var e := NewEntry(t, location, category, summary, id, now);
    Consolidate(t, PutSlot(entries, Slot(ScopedKey(t, user, e.location, e.category), e)), user, e.location, now)
  }

  // ---------- resolving a pending proposal ----------

  datatype Resolved =
    | NothingPending
    | Refused(continued: bool)
    | Saved(edited: bool, follow: Option<string>)

  function Log(w: World, event: Audit): World { w.(audit := w.audit + [event]) }

  function Resolution(sid: Option<string>, outcome: Outcome, p: Pending, summary: string, reason: string): Audit {
    Audit(sid, outcome, Some(p.id), summary, p.category, reason)
  }

  /** A refused reply that reads like a new question goes on to be answered. */
  predicate TopicChange(t: Texts, question: string) {
    var residual := t.residual(question);
    || (residual != "" && residual != question && t.words(residual) > 2)
    || '?' in question
    || t.words(question) > 8
  }

  /** What is left of an accepted reply, when it still looks like a request. */
  function FollowUp(t: Texts, question: string): Option<string> {
    var residual := t.residual(question);
    if && residual != "" && t.strip(residual) != "" && t.strip(residual) != t.strip(question)
       && ('?' in residual || t.words(residual) > 3)
    then Some(t.strip(residual)) else None
  }

  /** The summary an approving or editing reply would store. */
  function Proposal(decision: Decision, p: Pending): string {
    if decision.Edit? && decision.text != "" then decision.text else p.summary
  }

  /** Close the pending proposal of the session with one audit event. */
  function Close(w: World, sid: Option<string>, outcome: Outcome, p: Pending, summary: string, reason: string,
                 now: int): World
  {
    SetPending(Log(w, Resolution(sid, outcome, p, summary, reason)), sid, None, now)
  }

  function Settle(w: World, t: Texts, sid: Option<string>, user: string, question: string, p: Pending, now: int): World
  {
    var decision := t.decide(question);
    var summary := Proposal(decision, p);
    var category := OrElse(p.category, "known_incidents");
    if decision.Reject? then
      Close(w, sid, Rejected, p, p.summary, if TopicChange(t, question) then "topic_change" else "ambiguous", now)
    else if t.validate(summary, category).Some? then
      Close(w, sid, Rejected, p, summary, t.validate(summary, category).value, now)
    else if WriteRefusal(t, category, summary).Some? then
      Close(w, sid, Rejected, p, summary, WriteRefusal(t, category, summary).value, now)
    else
      Close(w.(entries := Written(t, w.entries, user, OrElse(p.location, "unknown"), category, summary, p.id, now)),
            sid, if decision.Edit? then Edited else Approved, p, summary, "", now)
  }

  /** resolve_memory: a session without a pending proposal is only purged. */
  function Resolve(w: World, t: Texts, sid: Option<string>, user: string, question: string, now: int): World {
    if sid.None? then w
    else
      var purged := Purge(w, now);
      var pending := PendingOf(purged, sid.value);
      if pending.None? then purged else Settle(purged, t, sid, user, question, pending.value, now)
  }

  function SettledReply(t: Texts, question: string, p: Pending): Resolved {
    var decision := t.decide(question);
    var summary := Proposal(decision, p);
    var category := OrElse(p.category, "known_incidents");
    if decision.Reject? then Refused(TopicChange(t, question))
    else if t.validate(summary, category).Some? || WriteRefusal(t, category, summary).Some? then Refused(false)
    else Saved(decision.Edit?, FollowUp(t, question))
  }

  function Reply(w: World, t: Texts, sid: Option<string>, question: string, now: int): Resolved {
    if sid.None? || PendingOf(Purge(w, now), sid.value).None? then NothingPending
    else SettledReply(t, question, PendingOf(Purge(w, now), sid.value).value)
  }

  // ---------- attaching a new proposal ----------

  datatype Draft = Draft(summary: string, location: string, category: string, why: string)

  function Attach(w: World, t: Texts, sid: Option<string>, question: string, draft: Option<Draft>, id: nat,
                  now: int): World
  {
    if draft.None? then w
    else
      var purged := if sid.Some? then Purge(w, now) else w;
      var d := draft.value;
      var summary, category := t.strip(d.summary), OrElse(d.category, "known_incidents");
      if sid.Some? && PendingOf(purged, sid.value).Some? then purged
      else if t.validate(summary, category).Some? then
        Log(purged, Audit(sid, Rejected, None, d.summary, d.category, t.validate(summary, category).value))
      else
        var pending := Pending(id, summary, OrElse(d.location, "unknown"), category, d.why, question);
        Log(SetPending(purged, sid, Some(pending), now), Audit(sid, Proposed, Some(id), summary, category, ""))
  }
}
