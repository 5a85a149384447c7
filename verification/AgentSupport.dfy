/** The agent's mutable state and the nodes that change it. */
module AgentSupport {
  import opened Options
  import opened AgentLedger
  import opened AgentMemory

  class SupportAgent {
    const classifiers: Classifiers
    const texts: Texts
    var sessions: seq<Session>
    var process: Counts
    var audit: seq<Audit>
    var entries: seq<Slot>

    constructor (classifiers: Classifiers, texts: Texts)
      ensures this.classifiers == classifiers && this.texts == texts
      ensures View() == World([], Counts(0, 0, 0), [], [])
    {
      this.classifiers, this.texts := classifiers, texts;
      sessions, process, audit, entries := [], Counts(0, 0, 0), [], [];
    }

    ghost function View(): World
      reads this
    {
      World(sessions, process, audit, entries)
    }

    // ---------- ledger ----------

    /** Expired sessions go; a proposal pending in one of them is logged as rejected. */
    method PurgeExpired(now: int)
      modifies this`sessions, this`audit
      ensures View() == Purge(old(View()), now)
    {
      var rows := sessions;
      var kept := [];
      ghost var before := audit;
      for i := 0 to |rows|
        invariant kept + Living(rows[i..], now) == Living(rows, now)
        invariant audit + Expiries(rows[i..], now) == before + Expiries(rows, now)
      {
        var s := rows[i];
        assert rows[i..][0] == s && rows[i..][1..] == rows[i + 1..];
        if Alive(s, now) {
          kept := kept + [s];
        } else if s.pending.Some? {
          audit := audit + [Expiry(s)];
        }
      }
      sessions := kept;
    }

    method RecordGuardrail(sid: Option<string>, kind: Kind, reason: string, extraction: bool, now: int)
      modifies this
      ensures View() == Record(old(View()), sid, kind, reason, extraction, now)
    {
      process := Tick(process, kind);
      if sid.None? {
        return;
      }
      PurgeExpired(now);
      var entry := Current(sessions, sid.value, now);
      sessions := Put(sessions, WithEvent(entry, kind, reason, extraction, now));
    }

    method GetPendingMemory(sid: Option<string>, now: int) returns (pending: Option<Pending>)
      modifies this`sessions, this`audit
      ensures View() == if sid.Some? then Purge(old(View()), now) else old(View())
      ensures pending == if sid.Some? then PendingOf(View(), sid.value) else None
    {
      if sid.None? {
        return None;
      }
      PurgeExpired(now);
      pending := PendingOf(World(sessions, process, audit, entries), sid.value);
    }

    method SetPendingMemory(sid: Option<string>, pending: Option<Pending>, now: int)
      modifies this`sessions, this`audit
      ensures View() == SetPending(old(View()), sid, pending, now)
    {
      if sid.None? {
        return;
      }
      PurgeExpired(now);
      var entry := Current(sessions, sid.value, now);
      sessions := Put(sessions, entry.(pending := pending, updatedAt := now));
    }

    method ApplyInputGuard(sid: Option<string>, question: string, now: int) returns (verdict: Guarded)
      modifies this
      ensures verdict == Verdict(old(View()), classifiers, sid, question, now)
      ensures View() == Guard(old(View()), classifiers, sid, question, now)
    {
      verdict := ClassifyInput(classifiers, question);
      if verdict.Blocked? {
        RecordGuardrail(sid, verdict.kind, verdict.reason, verdict.reason == "sensitive_extraction", now);
        return;
      }
      if sid.Some? && classifiers.continuation(question) {
        PurgeExpired(now);
        if ExtractionTurns(World(sessions, process, audit, entries), sid.value) >= 1 {
          verdict := Blocked(Security, "session_extraction_continuation");
          ghost var purged := View();
          RecordGuardrail(sid, Security, "session_extraction_continuation", true, now);
          PurgeTwice(old(sessions), now);
          assert purged.audit + [] == purged.audit;
        }
      }
    }

    // ---------- store ----------

    method LogProposalEvent(event: Audit)
      modifies this`audit
      ensures View() == Log(old(View()), event)
    {
      audit := audit + [event];
    }

    /** The live entries that match; the slots that expired ones point to are deleted. */
    method ReadMemory(user: string, location: string, category: string, now: int) returns (alive: seq<Entry>)
      modifies this`entries
      ensures alive == Answer(texts, old(entries), user, location, category, now)
      ensures entries == AfterRead(texts, old(entries), user, location, category, now)
    {
      var hits: seq<Entry> := [];
      for i := 0 to |entries|
        invariant entries == old(entries)
        invariant hits == Hits(texts, entries[..i], user, location, category)
      {
        assert entries[..i + 1][..i] == entries[..i];
        if Asked(texts, entries[i], user, location, category) {
          hits := hits + [entries[i].entry];
        }
      }
      assert entries[..|entries|] == entries;
      alive := [];
      for i := 0 to |hits|
        invariant alive == Unexpired(hits[..i], now)
        invariant entries == Evicted(texts, old(entries), user, hits[..i], now)
      {
        assert hits[..i + 1][..i] == hits[..i];
        if Expired(hits[i], now) {
          entries := DropSlot(entries, ScopedKey(texts, user, OrElse(hits[i].location, "unknown"), hits[i].category));
        } else {
          alive := alive + [hits[i]];
        }
      }
      assert hits[..|hits|] == hits;
    }

    method ConsolidateLocation(user: string, location: string, now: int)
      modifies this`entries
      ensures entries == Consolidate(texts, old(entries), user, location, now)
    {
      for n := 0 to |CATEGORIES|
        invariant entries == ConsolidateUpTo(texts, old(entries), user, location, n, now)
      {
        var rows := ReadMemory(user, location, CATEGORIES[n], now);
        if rows == [] {
          continue;
        }
        var cleaned := texts.clean(rows[0].summary);
        if cleaned != rows[0].summary {
          entries := PutSlot(entries, Slot(ScopedKey(texts, user, location, CATEGORIES[n]),
                                           rows[0].(summary := cleaned)));
        }
      }
    }

    /** Upsert after the checks; `refusal` says why nothing was stored. */
    method WriteMemory(user: string, location: string, category: string, summary: string, id: nat, now: int)
      returns (refusal: Option<string>)
      modifies this`entries
      ensures refusal == WriteRefusal(texts, category, summary)
      ensures entries == if refusal.Some? then old(entries)
                         else Written(texts, old(entries), user, location, category, summary, id, now)
    {
      refusal := texts.validate(texts.strip(summary), StoredCategory(texts, category));
      if refusal.Some? {
        return;
      }
      var e := NewEntry(texts, location, category, summary, id, now);
      entries := PutSlot(entries, Slot(ScopedKey(texts, user, e.location, e.category), e));
      ConsolidateLocation(user, e.location, now);
    }

    // ---------- nodes ----------

    /** Log one resolution and clear the pending proposal. */
    method CloseProposal(sid: Option<string>, outcome: Outcome, p: Pending, summary: string, reason: string, now: int)
      modifies this`sessions, this`audit
      ensures View() == Close(old(View()), sid, outcome, p, summary, reason, now)
    {
      LogProposalEvent(Resolution(sid, outcome, p, summary, reason));
      SetPendingMemory(sid, None, now);
    }

    method ResolveMemory(sid: Option<string>, user: string, question: string, now: int) returns (reply: Resolved)
      modifies this
      ensures View() == Resolve(old(View()), texts, sid, user, question, now)
      ensures reply == Reply(old(View()), texts, sid, question, now)
    {
      var pending := GetPendingMemory(sid, now);
      if pending.None? {
        return NothingPending;
      }
      reply := SettleProposal(sid, user, question, pending.value, now);
    }

    method SettleProposal(sid: Option<string>, user: string, question: string, p: Pending, now: int)
      returns (reply: Resolved)
      modifies this
      ensures View() == Settle(old(View()), texts, sid, user, question, p, now)
      ensures reply == SettledReply(texts, question, p)
    {
      var decision := texts.decide(question);
      if decision.Reject? {
        var reason := if TopicChange(texts, question) then "topic_change" else "ambiguous";
        CloseProposal(sid, Rejected, p, p.summary, reason, now);
        return Refused(reason == "topic_change");
      }
      var summary := Proposal(decision, p);
      var category := OrElse(p.category, "known_incidents");
      var poison := texts.validate(summary, category);
      if poison.Some? {
        CloseProposal(sid, Rejected, p, summary, poison.value, now);
        return Refused(false);
      }
      var refusal := WriteMemory(user, OrElse(p.location, "unknown"), category, summary, p.id, now);
      if refusal.Some? {
        CloseProposal(sid, Rejected, p, summary, refusal.value, now);
        return Refused(false);
      }
      CloseProposal(sid, if decision.Edit? then Edited else Approved, p, summary, "", now);
      reply := Saved(decision.Edit?, FollowUp(texts, question));
    }

    method AttachMemoryProposal(sid: Option<string>, question: string, draft: Option<Draft>, id: nat, now: int)
      modifies this
      ensures View() == Attach(old(View()), texts, sid, question, draft, id, now)
    {
      if draft.None? {
        return;
      }
      var d := draft.value;
      var held := GetPendingMemory(sid, now);
      if held.Some? {
        return;
      }
      var summary, category := texts.strip(d.summary), OrElse(d.category, "known_incidents");
      var poison := texts.validate(summary, category);
      if poison.Some? {
        LogProposalEvent(Audit(sid, Rejected, None, d.summary, d.category, poison.value));
        return;
      }
      var pending := Pending(id, summary, OrElse(d.location, "unknown"), category, d.why, question);
      SetPendingMemory(sid, Some(pending), now);
      LogProposalEvent(Audit(sid, Proposed, Some(id), summary, category, ""));
    }
  }
}
