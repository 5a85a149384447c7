/**
 What happens to a memory that was just written: when it survives the consolidation, and a run in which it
 does not.
 */
module AgentConsolidation {
  import opened Folds
  import opened Options
  import opened AgentLedger
  import opened AgentMemory
  import opened AgentTheorems
  import opened AgentRuns

  // ---------- the store: one slot for each key, filed under its entry's category ----------

  function NameOf(t: Texts, category: string): string {
    t.lower(t.strip(OrElse(category, "known_incidents")))
  }

  /** The four category names are their own normal forms. */
  ghost predicate SoundNames(t: Texts) {
    forall c :: c in CATEGORIES ==> NameOf(t, c) == c
  }

  ghost predicate KeyedByCategory(t: Texts, entries: seq<Slot>) {
    forall slot :: slot in entries ==> slot.key.category == NameOf(t, slot.entry.category)
  }

  ghost predicate DistinctSlots(entries: seq<Slot>) {
    entries == [] || (DistinctSlots(entries[1..]) && forall x :: x in entries[1..] ==> x.key != entries[0].key)
  }

  ghost predicate StoreSound(t: Texts, entries: seq<Slot>) {
    KeyedByCategory(t, entries) && DistinctSlots(entries)
  }

  lemma {:induction false} PutSlotIs(entries: seq<Slot>, slot: Slot)
    requires DistinctSlots(entries)
    ensures DistinctSlots(PutSlot(entries, slot))
    ensures forall x :: x in PutSlot(entries, slot) <==> x == slot || (x in entries && x.key != slot.key)
  {
    if entries != [] {
      var rest := entries[1..];
      if entries[0].key == slot.key {
        assert ([slot] + rest)[1..] == rest;
      } else {
        PutSlotIs(rest, slot);
        assert ([entries[0]] + PutSlot(rest, slot))[1..] == PutSlot(rest, slot);
      }
    }
  }

  lemma {:induction false} DropSlotIs(entries: seq<Slot>, key: Key)
    requires DistinctSlots(entries)
    ensures DistinctSlots(DropSlot(entries, key))
    ensures forall x :: x in DropSlot(entries, key) <==> x in entries && x.key != key
  {
    if entries != [] && entries[0].key != key {
      var rest := entries[1..];
      DropSlotIs(rest, key);
      assert ([entries[0]] + DropSlot(rest, key))[1..] == DropSlot(rest, key);
    }
  }

  lemma {:induction false} SlottedIs(entries: seq<Slot>, key: Key, e: Entry)
    requires DistinctSlots(entries)
    ensures Slotted(entries, key) == Some(e) <==> Slot(key, e) in entries
  {
    if entries != [] {
      SlottedIs(entries[1..], key, e);
    }
  }

  lemma {:induction false} EvictedIs(t: Texts, entries: seq<Slot>, user: string, hits: seq<Entry>, now: int)
    requires DistinctSlots(entries)
    ensures DistinctSlots(Evicted(t, entries, user, hits, now))
    ensures forall x :: x in Evicted(t, entries, user, hits, now) <==>
              x in entries && forall h :: h in hits && Expired(h, now) ==> LabelKey(t, user, h) != x.key
  {
    if hits != [] {
      var rest, last := hits[..|hits| - 1], hits[|hits| - 1];
      assert hits == rest + [last];
      EvictedIs(t, entries, user, rest, now);
      DropSlotIs(Evicted(t, entries, user, rest, now), LabelKey(t, user, last));
    }
  }

  /** The key that an entry's own labels point to. */
  function LabelKey(t: Texts, user: string, e: Entry): Key {
    ScopedKey(t, user, OrElse(e.location, "unknown"), e.category)
  }

  lemma {:induction false} HitsAre(t: Texts, entries: seq<Slot>, user: string, location: string, category: string)
    ensures forall e :: e in Hits(t, entries, user, location, category) <==>
              exists slot :: slot in entries && slot.entry == e && Asked(t, slot, user, location, category)
  {
    if entries != [] {
      var rest, last := entries[..|entries| - 1], entries[|entries| - 1];
      assert entries == rest + [last];
      HitsAre(t, rest, user, location, category);
    }
  }

  // ---------- the first live match ----------

  lemma {:induction false} HitsOfBoth(t: Texts, a: seq<Slot>, b: seq<Slot>, user: string, location: string,
                                      category: string)
    ensures Hits(t, a + b, user, location, category)
         == Hits(t, a, user, location, category) + Hits(t, b, user, location, category)
  {
    if b == [] {
      assert a + b == a;
    } else {
      HitsOfBoth(t, a, b[..|b| - 1], user, location, category);
      assert (a + b)[..|a + b| - 1] == a + b[..|b| - 1];
    }
  }

  lemma {:induction false} UnexpiredOfBoth(a: seq<Entry>, b: seq<Entry>, now: int)
    ensures Unexpired(a + b, now) == Unexpired(a, now) + Unexpired(b, now)
  {
    if b == [] {
      assert a + b == a;
    } else {
      UnexpiredOfBoth(a, b[..|b| - 1], now);
      assert (a + b)[..|a + b| - 1] == a + b[..|b| - 1];
    }
  }

  lemma LiveCons(t: Texts, x: Slot, rest: seq<Slot>, user: string, location: string, category: string, now: int)
    ensures Answer(t, [x] + rest, user, location, category, now)
         == (if Asked(t, x, user, location, category) && !Expired(x.entry, now) then [x.entry] else [])
            + Answer(t, rest, user, location, category, now)
  {
    HitsOfBoth(t, [x], rest, user, location, category);
    assert [x][..0] == [];
    var one := Hits(t, [x], user, location, category);
    UnexpiredOfBoth(one, Hits(t, rest, user, location, category), now);
    assert [x.entry][..0] == [];
  }

  /**
   The first live entry of another slot that a read after the write returns before the new entry.
   `own` says whether such a read matches the new entry itself; it then ends the search at its slot.
   */
  function FirstForeign(t: Texts, entries: seq<Slot>, user: string, location: string, category: string,
                        key: Key, own: bool, now: int): Option<Entry>
  {
    if entries == [] then None
    else if entries[0].key == key then
      if own then None else FirstForeign(t, entries[1..], user, location, category, key, own, now)
    else if Asked(t, entries[0], user, location, category) && !Expired(entries[0].entry, now)
      then Some(entries[0].entry)
    else FirstForeign(t, entries[1..], user, location, category, key, own, now)
  }

  lemma {:induction false} NoKeyNoOwn(t: Texts, entries: seq<Slot>, user: string, location: string, category: string,
                                      key: Key, now: int)
    requires forall x :: x in entries ==> x.key != key
    ensures
      var live := Answer(t, entries, user, location, category, now);
      FirstForeign(t, entries, user, location, category, key, false, now) == if live == [] then None else Some(live[0])
  {
    if entries != [] {
      assert entries == [entries[0]] + entries[1..];
      LiveCons(t, entries[0], entries[1..], user, location, category, now);
      NoKeyNoOwn(t, entries[1..], user, location, category, key, now);
    }
  }

  /** What a read right after the put returns first. */
  lemma {:induction false} FirstAfterPut(t: Texts, entries: seq<Slot>, user: string, location: string, category: string,
                                         slot: Slot, now: int)
    requires DistinctSlots(entries) && !Expired(slot.entry, now)
    ensures
      var own := Asked(t, slot, user, location, category);
      var foreign := FirstForeign(t, entries, user, location, category, slot.key, own, now);
      var live := Answer(t, PutSlot(entries, slot), user, location, category, now);
      if foreign.Some? then live != [] && live[0] == foreign.value
      else if own then live != [] && live[0] == slot.entry
      else live == []
  {
    if entries == [] {
      LiveCons(t, slot, [], user, location, category, now);
      assert [slot] + [] == [slot];
    } else {
      var x, rest := entries[0], entries[1..];
      if x.key == slot.key {
        LiveCons(t, slot, rest, user, location, category, now);
        NoKeyNoOwn(t, rest, user, location, category, slot.key, now);
      } else {
        LiveCons(t, x, PutSlot(rest, slot), user, location, category, now);
        FirstAfterPut(t, rest, user, location, category, slot, now);
      }
    }
  }

  // ---------- consolidating one category touches no other ----------

  /** The slots filed under one category name. */
  function Filed(entries: seq<Slot>, name: string): seq<Slot> {
    if entries == [] then []
    else (if entries[0].key.category == name then [entries[0]] else []) + Filed(entries[1..], name)
  }

  lemma {:induction false} FiledAfterPut(entries: seq<Slot>, slot: Slot, name: string)
    requires slot.key.category != name
    ensures Filed(PutSlot(entries, slot), name) == Filed(entries, name)
  {
    if entries != [] {
      var rest := entries[1..];
      if entries[0].key == slot.key {
        assert ([slot] + rest)[1..] == rest;
      } else {
        FiledAfterPut(rest, slot, name);
        assert ([entries[0]] + PutSlot(rest, slot))[1..] == PutSlot(rest, slot);
      }
    }
  }

  lemma {:induction false} FiledAfterDrop(entries: seq<Slot>, key: Key, name: string)
    requires key.category != name
    ensures Filed(DropSlot(entries, key), name) == Filed(entries, name)
  {
    if entries != [] && entries[0].key != key {
      var rest := entries[1..];
      FiledAfterDrop(rest, key, name);
      assert ([entries[0]] + DropSlot(rest, key))[1..] == DropSlot(rest, key);
    }
  }

  lemma {:induction false} FiledAfterEvict(t: Texts, entries: seq<Slot>, user: string, hits: seq<Entry>, now: int,
                                           name: string)
    requires forall h :: h in hits ==> NameOf(t, h.category) != name
    ensures Filed(Evicted(t, entries, user, hits, now), name) == Filed(entries, name)
  {
    if hits != [] {
      var rest, last := hits[..|hits| - 1], hits[|hits| - 1];
      FiledAfterEvict(t, entries, user, rest, now, name);
      FiledAfterDrop(Evicted(t, entries, user, rest, now), LabelKey(t, user, last), name);
    }
  }

  lemma {:induction false} HitsAreFiled(t: Texts, entries: seq<Slot>, user: string, location: string, category: string)
    requires KeyedByCategory(t, entries) && category != "" && NameOf(t, category) == category
    ensures Hits(t, entries, user, location, category) == Hits(t, Filed(entries, category), user, location, category)
  {
    if entries != [] {
      var x, rest := entries[0], entries[1..];
      assert entries == [x] + rest;
      HitsAreFiled(t, rest, user, location, category);
      HitsOfBoth(t, [x], rest, user, location, category);
      assert [x][..0] == [];
      if x.key.category == category {
        HitsOfBoth(t, [x], Filed(rest, category), user, location, category);
      } else {
        assert [] + Filed(rest, category) == Filed(rest, category);
        assert Hits(t, [x], user, location, category) == [];
      }
    }
  }

  lemma {:induction false} SlottedIsFiled(entries: seq<Slot>, key: Key)
    ensures Slotted(entries, key) == Slotted(Filed(entries, key.category), key)
  {
    if entries != [] {
      SlottedIsFiled(entries[1..], key);
      var rest := Filed(entries[1..], key.category);
      assert ([entries[0]] + rest)[1..] == rest && [] + rest == rest;
    }
  }

  lemma AnswersOfCategory(t: Texts, entries: seq<Slot>, user: string, location: string, category: string, now: int)
    requires category != ""
    ensures forall h :: h in Hits(t, entries, user, location, category) ==> h.category == category
    ensures forall h :: h in Answer(t, entries, user, location, category, now) ==> h.category == category
  {
    HitsAre(t, entries, user, location, category);
    UnexpiredHas(Hits(t, entries, user, location, category), now);
  }

  lemma ConsolidateOneKeepsStore(t: Texts, entries: seq<Slot>, user: string, location: string, category: string,
                                 now: int)
    requires StoreSound(t, entries) && category != "" && NameOf(t, category) == category
    ensures StoreSound(t, ConsolidateOne(t, entries, user, location, category, now))
  {
    var hits := Hits(t, entries, user, location, category);
    var rows := Answer(t, entries, user, location, category, now);
    EvictedIs(t, entries, user, hits, now);
    AnswersOfCategory(t, entries, user, location, category, now);
    if rows != [] {
      assert rows[0] in rows;
      PutSlotIs(AfterRead(t, entries, user, location, category, now),
                Slot(ScopedKey(t, user, location, category), rows[0].(summary := t.clean(rows[0].summary))));
    }
  }

  lemma ConsolidateOneKeepsFiled(t: Texts, entries: seq<Slot>, user: string, location: string, category: string,
                                 now: int, name: string)
    requires category != "" && NameOf(t, category) == category && name != category
    ensures Filed(ConsolidateOne(t, entries, user, location, category, now), name) == Filed(entries, name)
  {
    var hits := Hits(t, entries, user, location, category);
    AnswersOfCategory(t, entries, user, location, category, now);
    FiledAfterEvict(t, entries, user, hits, now, name);
    var rows := Answer(t, entries, user, location, category, now);
    if rows != [] {
      FiledAfterPut(AfterRead(t, entries, user, location, category, now),
                    Slot(ScopedKey(t, user, location, category), rows[0].(summary := t.clean(rows[0].summary))), name);
    }
  }

  lemma {:induction false} UpToKeepsStore(t: Texts, entries: seq<Slot>, user: string, location: string, n: nat,
                                          now: int)
    requires SoundNames(t) && StoreSound(t, entries) && n <= |CATEGORIES|
    ensures StoreSound(t, ConsolidateUpTo(t, entries, user, location, n, now))
  {
    if n > 0 {
      UpToKeepsStore(t, entries, user, location, n - 1, now);
      var before := ConsolidateUpTo(t, entries, user, location, n - 1, now);
      NextKeepsStore(t, before, user, location, n - 1, now, ConsolidateUpTo(t, entries, user, location, n, now));
    }
  }

  lemma NextKeepsStore(t: Texts, entries: seq<Slot>, user: string, location: string, n: nat, now: int, next: seq<Slot>)
    requires SoundNames(t) && StoreSound(t, entries) && n < |CATEGORIES|
    requires next == ConsolidateOne(t, entries, user, location, CATEGORIES[n], now)
    ensures StoreSound(t, next)
  {
    assert CATEGORIES[n] in CATEGORIES && CATEGORIES[n] != "";
    ConsolidateOneKeepsStore(t, entries, user, location, CATEGORIES[n], now);
  }

  lemma {:induction false} UpToKeepsFiled(t: Texts, entries: seq<Slot>, user: string, location: string, m: nat, n: nat,
                                          now: int, name: string)
    requires SoundNames(t) && m <= n <= |CATEGORIES|
    requires forall i :: m <= i < n ==> CATEGORIES[i] != name
    ensures Filed(ConsolidateUpTo(t, entries, user, location, n, now), name)
         == Filed(ConsolidateUpTo(t, entries, user, location, m, now), name)
    decreases n - m
  {
    if m < n {
      UpToKeepsFiled(t, entries, user, location, m, n - 1, now, name);
      assert CATEGORIES[n - 1] in CATEGORIES && CATEGORIES[n - 1] != "";
      ConsolidateOneKeepsFiled(t, ConsolidateUpTo(t, entries, user, location, n - 1, now), user, location,
                               CATEGORIES[n - 1], now, name);
    }
  }

  // ---------- one category, seen from its own slot ----------

  /** An expired hit whose own labels point to `key`: the read that finds it deletes that slot. */
  ghost predicate Evicts(t: Texts, hits: seq<Entry>, user: string, key: Key, now: int) {
    exists h :: h in hits && Expired(h, now) && LabelKey(t, user, h) == key
  }

  lemma SlottedAfterEvict(t: Texts, entries: seq<Slot>, user: string, hits: seq<Entry>, now: int, key: Key, e: Entry)
    requires DistinctSlots(entries) && Slotted(entries, key) == Some(e)
    ensures Slotted(Evicted(t, entries, user, hits, now), key)
         == if Evicts(t, hits, user, key, now) then None else Some(e)
  {
    EvictedIs(t, entries, user, hits, now);
    var kept := Evicted(t, entries, user, hits, now);
    SlottedIs(entries, key, e);
    SlottedIs(kept, key, e);
    if Evicts(t, hits, user, key, now) {
      NothingSlotted(kept, key);
    }
  }

  lemma {:induction false} NothingSlotted(entries: seq<Slot>, key: Key)
    requires forall x :: x in entries ==> x.key != key
    ensures Slotted(entries, key) == None
  {
    if entries != [] {
      NothingSlotted(entries[1..], key);
    }
  }

  /** The slot after the consolidation of its category, from the first live match and the evictions. */
  lemma SlottedAfterOne(t: Texts, entries: seq<Slot>, user: string, location: string, category: string, now: int,
                        e: Entry)
    requires DistinctSlots(entries) && Slotted(entries, ScopedKey(t, user, location, category)) == Some(e)
    ensures
      var key := ScopedKey(t, user, location, category);
      var hits := Hits(t, entries, user, location, category);
      var rows := Answer(t, entries, user, location, category, now);
      Slotted(ConsolidateOne(t, entries, user, location, category, now), key)
      == if rows != [] && t.clean(rows[0].summary) != rows[0].summary
         then Some(rows[0].(summary := t.clean(rows[0].summary)))
         else if Evicts(t, hits, user, key, now) then None else Some(e)
  {
    var key := ScopedKey(t, user, location, category);
    var hits := Hits(t, entries, user, location, category);
    var rows := Answer(t, entries, user, location, category, now);
    SlottedAfterEvict(t, entries, user, hits, now, key, e);
    if rows != [] {
      SlottedAfterPut(AfterRead(t, entries, user, location, category, now),
                      Slot(key, rows[0].(summary := t.clean(rows[0].summary))), key);
    }
  }

  // ---------- an accepted write ----------

  /** The slot still holds its own memory, up to whitespace. */
  predicate StillHolds(t: Texts, slotted: Option<Entry>, e: Entry) {
    slotted == Some(e) || slotted == Some(e.(summary := t.clean(e.summary)))
  }

  predicate IsClean(t: Texts, e: Entry) { t.clean(e.summary) == e.summary }

  /** An expired entry of another slot matches the write's location and carries labels that point to its slot. */
  ghost predicate Stray(t: Texts, entries: seq<Slot>, user: string, location: string, category: string, key: Key,
                        now: int)
  {
    exists slot :: && slot in entries && slot.key != key && Asked(t, slot, user, location, category)
                   && Expired(slot.entry, now) && LabelKey(t, user, slot.entry) == key
  }

  lemma StrayEvicts(t: Texts, entries: seq<Slot>, user: string, location: string, category: string, slot: Slot,
                    now: int)
    requires DistinctSlots(entries) && !Expired(slot.entry, now)
    ensures Evicts(t, Hits(t, PutSlot(entries, slot), user, location, category), user, slot.key, now)
            <==> Stray(t, entries, user, location, category, slot.key, now)
  {
    var put := PutSlot(entries, slot);
    PutSlotIs(entries, slot);
    HitsAre(t, put, user, location, category);
    if Evicts(t, Hits(t, put, user, location, category), user, slot.key, now) {
      var h :| h in Hits(t, put, user, location, category) && Expired(h, now) && LabelKey(t, user, h) == slot.key;
      var x :| x in put && x.entry == h && Asked(t, x, user, location, category);
      assert x in entries && x.key != slot.key;
    }
    if Stray(t, entries, user, location, category, slot.key, now) {
      var x :| x in entries && x.key != slot.key && Asked(t, x, user, location, category)
               && Expired(x.entry, now) && LabelKey(t, user, x.entry) == slot.key;
      assert x in put && x.entry in Hits(t, put, user, location, category);
    }
  }

  /** The passes over the other categories leave the written slot and what is read with it alone. */
  lemma OnlyItsOwnPass(t: Texts, entries: seq<Slot>, user: string, location: string, n: nat, now: int, key: Key)
    requires SoundNames(t) && StoreSound(t, entries) && n < |CATEGORIES| && key.category == CATEGORIES[n]
    ensures
      var before := ConsolidateUpTo(t, entries, user, location, n, now);
      && StoreSound(t, before) && Slotted(before, key) == Slotted(entries, key)
      && Hits(t, before, user, location, CATEGORIES[n]) == Hits(t, entries, user, location, CATEGORIES[n])
      && Slotted(Consolidate(t, entries, user, location, now), key)
         == Slotted(ConsolidateOne(t, before, user, location, CATEGORIES[n], now), key)
  {
    var c := CATEGORIES[n];
    assert c in CATEGORIES && c != "";
    assert forall i :: 0 <= i < |CATEGORIES| && i != n ==> |CATEGORIES[i]| != |c|;
    var before := ConsolidateUpTo(t, entries, user, location, n, now);
    UpToKeepsStore(t, entries, user, location, n, now);
    UpToKeepsFiled(t, entries, user, location, 0, n, now, c);
    HitsAreFiled(t, before, user, location, c);
    HitsAreFiled(t, entries, user, location, c);
    SlottedIsFiled(before, key);
    SlottedIsFiled(entries, key);
    UpToKeepsFiled(t, entries, user, location, n + 1, |CATEGORIES|, now, c);
    SlottedIsFiled(Consolidate(t, entries, user, location, now), key);
    SlottedIsFiled(ConsolidateUpTo(t, entries, user, location, n + 1, now), key);
  }

  /** The slot after the whole write, from the store before it. */
  lemma SlottedAfterWrite(t: Texts, entries: seq<Slot>, user: string, location: string, key: Key, e: Entry, now: int)
    requires SoundNames(t) && StoreSound(t, entries) && key == ScopedKey(t, user, e.location, e.category)
    requires key.category in CATEGORIES && e.updatedAt == now && location == e.location
    ensures
      var own := Asked(t, Slot(key, e), user, location, key.category);
      var foreign := FirstForeign(t, entries, user, location, key.category, key, own, now);
      Slotted(Consolidate(t, PutSlot(entries, Slot(key, e)), user, location, now), key)
      == if foreign.Some? && !IsClean(t, foreign.value)
        then Some(foreign.value.(summary := t.clean(foreign.value.summary)))
         else if foreign.None? && own && !IsClean(t, e) then Some(e.(summary := t.clean(e.summary)))
         else if Stray(t, entries, user, location, key.category, key, now) then None
         else Some(e)
  {
    var c, slot := key.category, Slot(key, e);
    var put := PutSlot(entries, slot);
    PutSlotIs(entries, slot);
    SlottedAfterPut(entries, slot, key);
    var n :| 0 <= n < |CATEGORIES| && CATEGORIES[n] == c;
    OnlyItsOwnPass(t, put, user, location, n, now, key);
    assert ScopedKey(t, user, location, c) == key;
    SlottedAfterOne(t, ConsolidateUpTo(t, put, user, location, n, now), user, location, c, now, e);
    FirstAfterPut(t, entries, user, location, c, slot, now);
    StrayEvicts(t, entries, user, location, c, slot, now);
  }

  /**
   An accepted write leaves its own memory in its slot if and only if, in the store before the call,
   the first live entry of that category with a matching label that lies before the slot is clean, and
   no expired entry elsewhere carries labels that point to the slot; with no such first entry an
   unclean new memory is written again and survives either way.
   */
  lemma WriteSurvivesExactly(t: Texts, entries: seq<Slot>, user: string, location: string, category: string,
                             summary: string, id: nat, now: int)
    requires SoundNames(t) && StoreSound(t, entries)
    requires NameOf(t, StoredCategory(t, category)) in CATEGORIES && forall x :: x in entries ==> x.entry.id != id
    ensures
      var e := NewEntry(t, location, category, summary, id, now);
      var key := ScopedKey(t, user, e.location, e.category);
      var own := Asked(t, Slot(key, e), user, e.location, key.category);
      var foreign := FirstForeign(t, entries, user, e.location, key.category, key, own, now);
      var stray := Stray(t, entries, user, e.location, key.category, key, now);
      StillHolds(t, Slotted(Written(t, entries, user, location, category, summary, id, now), key), e) <==>
        if foreign.Some? then IsClean(t, foreign.value) && !stray
        else !stray || (own && !IsClean(t, e))
  {
    var e := NewEntry(t, location, category, summary, id, now);
    var key := ScopedKey(t, user, e.location, e.category);
    var own := Asked(t, Slot(key, e), user, e.location, key.category);
    SlottedAfterWrite(t, entries, user, e.location, key, e, now);
    ForeignIsStored(t, entries, user, e.location, key.category, key, own, now);
  }

  lemma {:induction false} ForeignIsStored(t: Texts, entries: seq<Slot>, user: string, location: string,
                                           category: string, key: Key, own: bool, now: int)
    ensures
      var foreign := FirstForeign(t, entries, user, location, category, key, own, now);
      foreign.Some? ==> exists x :: x in entries && x.entry == foreign.value
  {
    if entries != [] {
      ForeignIsStored(t, entries[1..], user, location, category, key, own, now);
      assert entries[0] in entries;
      assert forall x :: x in entries[1..] ==> x in entries;
    }
  }

  // ---------- reachable stores ----------

  lemma WrittenKeepsStore(t: Texts, entries: seq<Slot>, user: string, location: string, category: string,
                          summary: string, id: nat, now: int)
    requires SoundNames(t) && StoreSound(t, entries)
    ensures StoreSound(t, Written(t, entries, user, location, category, summary, id, now))
  {
    var e := NewEntry(t, location, category, summary, id, now);
    var slot := Slot(ScopedKey(t, user, e.location, e.category), e);
    PutSlotIs(entries, slot);
    UpToKeepsStore(t, PutSlot(entries, slot), user, e.location, |CATEGORIES|, now);
  }

  lemma SettleKeepsStore(w: World, t: Texts, sid: Option<string>, user: string, question: string, p: Pending, now: int)
    requires SoundNames(t) && StoreSound(t, w.entries)
    ensures StoreSound(t, Settle(w, t, sid, user, question, p, now).entries)
  {
    WrittenKeepsStore(t, w.entries, user, OrElse(p.location, "unknown"), OrElse(p.category, "known_incidents"),
                      Proposal(t.decide(question), p), p.id, now);
  }

  lemma StepKeepsStore(w: World, c: Classifiers, t: Texts, step: Step, now: int)
    requires SoundNames(t) && StoreSound(t, w.entries)
    ensures StoreSound(t, Apply(w, c, t, step, now).entries)
  {
    if step.ReadMemory? {
      EvictedIs(t, w.entries, step.user, Hits(t, w.entries, step.user, step.location, step.category), now);
    } else if step.ResolveMemory? && step.sid.Some? && PendingOf(Purge(w, now), step.sid.value).Some? {
      SettleKeepsStore(Purge(w, now), t, step.sid, step.user, step.question,
                       PendingOf(Purge(w, now), step.sid.value).value, now);
    }
  }

  lemma {:induction false} RunKeepsStore(w: World, c: Classifiers, t: Texts, steps: seq<Timed>, end: World)
    requires SoundNames(t) && StoreSound(t, w.entries) && Runs(w, c, t, steps, end)
    ensures StoreSound(t, end.entries)
    decreases |steps|
  {
    if steps != [] {
      StepKeepsStore(w, c, t, steps[0].step, steps[0].now);
      RunKeepsStore(Apply(w, c, t, steps[0].step, steps[0].now), c, t, steps[1..], end);
    }
  }

  lemma {:induction false} CountOfMember<T>(p: T -> bool, rs: seq<T>, x: T)
    requires x in rs && p(x)
    ensures Count(p, rs) >= 1
  {
    var rest, last := rs[..|rs| - 1], rs[|rs| - 1];
    assert rs == rest + [last];
    if x != last {
      CountOfMember(p, rest, x);
    }
  }

  lemma {:induction false} OpenHas(rows: seq<Session>, s: Session)
    requires s in rows && s.pending.Some?
    ensures Open(rows, OfProposal(s.pending.value.id)) >= 1
  {
    if rows[0] != s {
      OpenHas(rows[1..], s);
    }
  }

  lemma ProposedAtMostOnce(audit: seq<Audit>, id: nat)
    requires AuditSound(audit)
    ensures Count(ProposalsIn(OfProposal(id)), audit) <= 1
  {
    if i: nat :| i < |audit| && Proposes(audit[i], id) {
      ProposedOnce(audit, i, id);
    } else {
      NotProposedBefore(audit, id);
    }
  }

  /** A proposal that is still pending is not in the store. */
  lemma PendingIsNotStored(w: World, t: Texts, sid: string)
    requires Inv(w) && AllSourced(t, w.audit, w.entries) && PendingOf(w, sid).Some?
    ensures forall x :: x in w.entries ==> x.entry.id != PendingOf(w, sid).value.id
  {
    var id := PendingOf(w, sid).value.id;
    FindHas(w.sessions, sid);
    OpenHas(w.sessions, Find(w.sessions, sid).value);
    assert Gap(w, OfProposal(id)) == 0;
    TallyIsDifference(w.audit, OfProposal(id));
    ProposedAtMostOnce(w.audit, id);
    forall x | x in w.entries ensures x.entry.id != id {
      if x.entry.id == id {
        var a :| a in w.audit && Accepts(t, a, x.entry);
        var i :| 0 <= i < |w.audit| && w.audit[i] == a;
        CountOfMember(ResolutionsIn(OfProposal(id)), w.audit, a);
      }
    }
  }

  /** Validation accepts a stripped category only if it is empty or one of the four. */
  ghost predicate ValidatesCategory(t: Texts) {
    forall s, c :: t.validate(s, t.strip(c)).None? ==> t.strip(c) == "" || NameOf(t, t.strip(c)) in CATEGORIES
  }

  lemma SoundAtStart(c: Classifiers, t: Texts, steps: seq<Timed>, w: World)
    requires CleansOnce(t) && SoundNames(t) && Runs(START, c, t, steps, w)
    ensures Inv(w) && AllSourced(t, w.audit, w.entries) && StoreSound(t, w.entries)
  {
    ReachableIsSound(c, t, steps, w);
    RunKeepsStore(START, c, t, steps, w);
    forall slot | slot in w.entries ensures Sourced(t, w.audit, slot.entry) {
      MemoryComesFromApproval(c, t, steps, w, slot);
    }
  }

  /**
   In every reachable state: a memory whose saving the agent confirms is in its slot afterwards if and
   only if the store before met the condition of `WriteSurvivesExactly`.
   */
  lemma ConfirmedMemorySurvivesExactly(c: Classifiers, t: Texts, steps: seq<Timed>, w: World, sid: string, user: string,
                                       question: string, now: int)
    requires CleansOnce(t) && SoundNames(t) && ValidatesCategory(t) && Runs(START, c, t, steps, w)
    requires Reply(w, t, Some(sid), question, now).Saved?
    ensures
      var p := PendingOf(Purge(w, now), sid).value;
      var e := NewEntry(t, OrElse(p.location, "unknown"), OrElse(p.category, "known_incidents"),
                        Proposal(t.decide(question), p), p.id, now);
      var key := ScopedKey(t, user, e.location, e.category);
      var own := Asked(t, Slot(key, e), user, e.location, key.category);
      var foreign := FirstForeign(t, w.entries, user, e.location, key.category, key, own, now);
      var stray := Stray(t, w.entries, user, e.location, key.category, key, now);
      StillHolds(t, Slotted(Resolve(w, t, Some(sid), user, question, now).entries, key), e) <==>
        if foreign.Some? then IsClean(t, foreign.value) && !stray
        else !stray || (own && !IsClean(t, e))
  {
    SoundAtStart(c, t, steps, w);
    var purged := Purge(w, now);
    var p := PendingOf(purged, sid).value;
    PurgeIsSound(w, c, t, now);
    PendingIsNotStored(purged, t, sid);
    var category := OrElse(p.category, "known_incidents");
    assert "known_incidents" in CATEGORIES by { assert CATEGORIES[2] == "known_incidents"; }
    WriteSurvivesExactly(t, w.entries, user, OrElse(p.location, "unknown"), category, Proposal(t.decide(question), p),
                         p.id, now);
  }

  lemma PurgeIsSound(w: World, c: Classifiers, t: Texts, now: int)
    requires Inv(w) && AllSourced(t, w.audit, w.entries)
    ensures Inv(Purge(w, now)) && AllSourced(t, Purge(w, now).audit, w.entries)
  {
    StepKeepsInv(w, c, t, LookUp, now);
    PurgeGrowsQuietly(w, now);
    QuietGrowthHas(w.audit, Purge(w, now).audit);
    GrowthKeepsSources(t, w.audit, Purge(w, now).audit, w.entries);
  }

  // ---------- a run that loses a confirmed memory ----------

  const SID := "s"
  const USER := "u"
  const YES := "yes, remember that"
  const HERE := "miamibeach"
  const THERE := "miami beach"
  const HOURS := "hours"
  const FIRST := "closes at 10"
  const SPACED := "closes at  11"
  const COLLAPSED := "closes at 11"
  const LAST := "closes at 12"

  /** What the text functions do on the strings of the run; two spellings of one place have two keys and match. */
  ghost predicate Spellings(t: Texts) {
    && SoundNames(t) && t.strip(HOURS) == HOURS && t.decide(YES) == Approve
    && (forall s :: s in [HERE, THERE, FIRST, SPACED, LAST] ==> t.strip(s) == s)
    && t.token(HERE) == "miamibeach" && t.token(THERE) == "miami_beach"
    && (forall a, b :: a in [HERE, THERE] && b in [HERE, THERE] ==> t.matches(a, b))
    && (forall s :: s in [FIRST, SPACED, LAST] ==> t.validate(s, HOURS).None?)
    && t.clean(FIRST) == FIRST && t.clean(SPACED) == COLLAPSED
  }

  /** No proposal is pending anywhere. */
  ghost predicate Settled(w: World) {
    DistinctIds(w.sessions) && forall s :: s in w.sessions ==> s.pending.None?
  }

  lemma {:induction false} NothingExpires(rows: seq<Session>, now: int)
    requires forall s :: s in rows ==> Alive(s, now) || s.pending.None?
    ensures Expiries(rows, now) == []
  {
    if rows != [] {
      NothingExpires(rows[1..], now);
    }
  }

  function DraftedAs(id: nat, location: string, summary: string): Pending {
    Pending(id, summary, location, HOURS, "", "")
  }

  /** The sessions once `p` is the only pending proposal. */
  ghost predicate OnlyPending(w: World, p: Option<Pending>, now: int) {
    && DistinctIds(w.sessions) && PendingOf(w, SID) == p
    && (forall s :: s in w.sessions && s.id != SID ==> s.pending.None?)
    && (forall s :: s in w.sessions && s.id == SID ==> s.pending == p && Alive(s, now))
  }

  lemma SettingPending(w: World, p: Option<Pending>, now: int)
    requires DistinctIds(w.sessions)
    requires forall s :: s in w.sessions ==> s.pending.None? || (s.id == SID && Alive(s, now))
    ensures
      var v := SetPending(w, Some(SID), p, now);
      OnlyPending(v, p, now) && v.audit == w.audit && v.entries == w.entries && v.process == w.process
  {
    var rows := Living(w.sessions, now);
    LivingHas(w.sessions, now);
    LivingDistinct(w.sessions, now);
    NothingExpires(w.sessions, now);
    CurrentIsCountedId(rows, SID, now);
    var s := Current(rows, SID, now).(pending := p, updatedAt := now);
    PutDistinct(rows, s);
    PutReplaces(rows, s);
    FindAfterPut(rows, s, SID);
    assert w.audit + [] == w.audit;
  }

  lemma {:induction false} PutReplaces(rows: seq<Session>, s: Session)
    requires DistinctIds(rows)
    ensures forall x :: x in Put(rows, s) ==> x == s || (x in rows && x.id != s.id)
  {
    if rows != [] && rows[0].id != s.id {
      PutReplaces(rows[1..], s);
    }
  }

  lemma PurgingKeepsPending(w: World, p: Option<Pending>, now: int)
    requires OnlyPending(w, p, now)
    ensures OnlyPending(Purge(w, now), p, now) && Purge(w, now).audit == w.audit
  {
    LivingHas(w.sessions, now);
    LivingDistinct(w.sessions, now);
    NothingExpires(w.sessions, now);
    FindAfterPurge(w.sessions, SID, now);
    FindHas(w.sessions, SID);
    assert w.audit + [] == w.audit;
  }

  lemma Attaches(w: World, t: Texts, location: string, summary: string, id: nat, now: int)
    requires Settled(w) && t.strip(summary) == summary && t.validate(summary, HOURS).None? && location != ""
    ensures
      var v := Attach(w, t, Some(SID), "", Some(Draft(summary, location, HOURS, "")), id, now);
      && OnlyPending(v, Some(DraftedAs(id, location, summary)), now) && v.entries == w.entries
      && v.audit == w.audit + [Audit(Some(SID), Proposed, Some(id), summary, HOURS, "")]
  {
    var purged := Purge(w, now);
    LivingHas(w.sessions, now);
    LivingDistinct(w.sessions, now);
    NothingExpires(w.sessions, now);
    FindHas(purged.sessions, SID);
    assert w.audit + [] == w.audit;
    SettingPending(purged, Some(DraftedAs(id, location, summary)), now);
  }

  lemma Approves(w: World, t: Texts, location: string, summary: string, id: nat, now: int)
    requires OnlyPending(w, Some(DraftedAs(id, location, summary)), now)
    requires t.strip(summary) == summary && t.validate(summary, HOURS).None? && location != ""
    requires t.strip(HOURS) == HOURS && t.decide(YES) == Approve
    ensures
      var v := Resolve(w, t, Some(SID), USER, YES, now);
      && Settled(v) && v.entries == Written(t, w.entries, USER, location, HOURS, summary, id, now)
      && v.audit == w.audit + [Audit(Some(SID), Approved, Some(id), summary, HOURS, "")]
  {
    var p := DraftedAs(id, location, summary);
    PurgingKeepsPending(w, Some(p), now);
    var purged := Purge(w, now);
    var stored := purged.(entries := Written(t, w.entries, USER, location, HOURS, summary, id, now));
    SettingPending(Log(stored, Resolution(Some(SID), Approved, p, summary, "")), None, now);
  }

  /** One turn that proposes and one that approves. */
  function Round(location: string, summary: string, id: nat, now: int): seq<Timed> {
    [Timed(AttachProposal(Some(SID), "", Some(Draft(summary, location, HOURS, "")), id), now),
     Timed(ResolveMemory(Some(SID), USER, YES), now)]
  }

  predicate IdsBelow(audit: seq<Audit>, id: nat) {
    forall i :: 0 <= i < |audit| && audit[i].id.Some? ==> audit[i].id.value < id
  }

  lemma RunsFirst(w: World, c: Classifiers, t: Texts, x: Timed, u: World, rest: seq<Timed>, end: World)
    requires Enabled(w, x.step) && u == Apply(w, c, t, x.step, x.now) && Runs(u, c, t, rest, end)
    ensures Runs(w, c, t, [x] + rest, end)
  {
    assert ([x] + rest)[1..] == rest;
  }

  lemma {:induction false} RunsJoin(w: World, c: Classifiers, t: Texts, a: seq<Timed>, v: World, b: seq<Timed>,
                                    end: World)
    requires Runs(w, c, t, a, v) && Runs(v, c, t, b, end)
    ensures Runs(w, c, t, a + b, end)
    decreases |a|
  {
    if a == [] {
      assert a + b == b;
    } else {
      var u := Apply(w, c, t, a[0].step, a[0].now);
      RunsJoin(u, c, t, a[1..], v, b, end);
      RunsFirst(w, c, t, a[0], u, a[1..] + b, end);
      assert [a[0]] + (a[1..] + b) == a + b;
    }
  }

  lemma RunsOne(w: World, c: Classifiers, t: Texts, x: Timed, v: World)
    requires Enabled(w, x.step) && v == Apply(w, c, t, x.step, x.now)
    ensures Runs(w, c, t, [x], v)
  {
    assert [x][1..] == [] && Runs(v, c, t, [], v);
  }

  lemma ProposingTurn(w: World, c: Classifiers, t: Texts, location: string, summary: string, id: nat, now: int)
    returns (u: World)
    requires Settled(w) && IdsBelow(w.audit, id) && Spellings(t)
    requires location in [HERE, THERE] && summary in [FIRST, SPACED, LAST]
    ensures Runs(w, c, t, [Round(location, summary, id, now)[0]], u)
    ensures OnlyPending(u, Some(DraftedAs(id, location, summary)), now) && u.entries == w.entries
    ensures IdsBelow(u.audit, id + 1)
  {
    u := Attach(w, t, Some(SID), "", Some(Draft(summary, location, HOURS, "")), id, now);
    Attaches(w, t, location, summary, id, now);
    assert forall a :: a in w.audit ==> exists i :: 0 <= i < |w.audit| && w.audit[i] == a;
    RunsOne(w, c, t, Round(location, summary, id, now)[0], u);
  }

  lemma ApprovingTurn(u: World, c: Classifiers, t: Texts, location: string, summary: string, id: nat, now: int)
    returns (v: World)
    requires OnlyPending(u, Some(DraftedAs(id, location, summary)), now) && IdsBelow(u.audit, id + 1) && Spellings(t)
    requires location in [HERE, THERE] && summary in [FIRST, SPACED, LAST]
    ensures Runs(u, c, t, [Round(location, summary, id, now)[1]], v) && Settled(v) && IdsBelow(v.audit, id + 1)
    ensures v.entries == Written(t, u.entries, USER, location, HOURS, summary, id, now)
    ensures v.audit != [] && v.audit[|v.audit| - 1] == Audit(Some(SID), Approved, Some(id), summary, HOURS, "")
  {
    v := Resolve(u, t, Some(SID), USER, YES, now);
    Approves(u, t, location, summary, id, now);
    RunsOne(u, c, t, Round(location, summary, id, now)[1], v);
  }

  lemma RoundSaves(w: World, c: Classifiers, t: Texts, location: string, summary: string, id: nat, now: int)
    returns (v: World)
    requires Settled(w) && IdsBelow(w.audit, id) && Spellings(t)
    requires location in [HERE, THERE] && summary in [FIRST, SPACED, LAST]
    ensures Runs(w, c, t, Round(location, summary, id, now), v) && Settled(v) && IdsBelow(v.audit, id + 1)
    ensures v.entries == Written(t, w.entries, USER, location, HOURS, summary, id, now)
    ensures v.audit != [] && v.audit[|v.audit| - 1] == Audit(Some(SID), Approved, Some(id), summary, HOURS, "")
  {
    var steps := Round(location, summary, id, now);
    var u := ProposingTurn(w, c, t, location, summary, id, now);
    v := ApprovingTurn(u, c, t, location, summary, id, now);
    RunsJoin(w, c, t, [steps[0]], u, [steps[1]], v);
    assert steps == [steps[0]] + [steps[1]];
  }

  // ---------- the store along the run ----------

  function SlotFor(t: Texts, location: string, summary: string, id: nat, now: int): Slot {
    Slot(ScopedKey(t, USER, location, HOURS), Entry(location, HOURS, summary, now, id))
  }

  lemma {:induction false} NoHits(t: Texts, entries: seq<Slot>, location: string, category: string)
    requires category != HOURS && category != "" && forall x :: x in entries ==> x.entry.category == HOURS
    ensures Hits(t, entries, USER, location, category) == []
  {
    if entries != [] {
      NoHits(t, entries[..|entries| - 1], location, category);
    }
  }

  /** With entries of one category only the first pass does anything. */
  lemma OnlyHours(t: Texts, entries: seq<Slot>, location: string, now: int)
    requires forall x :: x in entries ==> x.entry.category == HOURS
    ensures Consolidate(t, entries, USER, location, now) == ConsolidateOne(t, entries, USER, location, HOURS, now)
  {
    var first := ConsolidateOne(t, entries, USER, location, HOURS, now);
    EvictedHas(t, entries, USER, Hits(t, entries, USER, location, HOURS), now);
    var rows := Answer(t, entries, USER, location, HOURS, now);
    AnswersOfCategory(t, entries, USER, location, HOURS, now);
    if rows != [] {
      assert rows[0] in rows;
      PutSlotHas(AfterRead(t, entries, USER, location, HOURS, now),
                 Slot(ScopedKey(t, USER, location, HOURS), rows[0].(summary := t.clean(rows[0].summary))));
    }
    assert forall x :: x in first ==> x.entry.category == HOURS;
    NoHits(t, first, location, CATEGORIES[1]);
    NoHits(t, first, location, CATEGORIES[2]);
    NoHits(t, first, location, CATEGORIES[3]);
    assert ConsolidateUpTo(t, entries, USER, location, 0, now) == entries;
    assert ConsolidateUpTo(t, entries, USER, location, 1, now) == first;
    assert ConsolidateUpTo(t, entries, USER, location, 2, now) == first;
    assert ConsolidateUpTo(t, entries, USER, location, 3, now) == first;
  }

  const LATER := ENTRY_TTL + 50
  const LATEST := ENTRY_TTL + 60

  /** A slot that every read of the run returns. */
  ghost predicate Matched(t: Texts, x: Slot) {
    x.key.user == USER && x.entry.category == HOURS && forall a :: a in [HERE, THERE] ==> t.matches(x.entry.location, a)
  }

  lemma SlotMatches(t: Texts, location: string, summary: string, id: nat, now: int)
    requires Spellings(t) && location in [HERE, THERE]
    ensures Matched(t, SlotFor(t, location, summary, id, now))
    ensures SlotFor(t, location, summary, id, now).key == Key(USER, t.token(location), HOURS)
  {
    assert HOURS == CATEGORIES[0] && HOURS in CATEGORIES;
    assert NameOf(t, HOURS) == HOURS;
  }

  lemma HitsOfPair(t: Texts, x: Slot, y: Slot, location: string)
    requires Matched(t, x) && Matched(t, y) && location in [HERE, THERE]
    ensures Hits(t, [x, y], USER, location, HOURS) == [x.entry, y.entry]
    ensures Hits(t, [x], USER, location, HOURS) == [x.entry]
  {
    assert Asked(t, x, USER, location, HOURS) && Asked(t, y, USER, location, HOURS);
    assert [x][..0] == [] && Hits(t, [], USER, location, HOURS) == [] && [] + [x.entry] == [x.entry];
    assert Hits(t, [x], USER, location, HOURS) == [x.entry];
    assert [x, y][..1] == [x] && [x, y][1] == y;
  }

  lemma UnexpiredOfPair(x: Entry, y: Entry, now: int)
    requires !Expired(x, now) && !Expired(y, now)
    ensures Unexpired([x, y], now) == [x, y] && Unexpired([x], now) == [x]
  {
    assert [x][..0] == [] && Unexpired([], now) == [] && [] + [x] == [x];
    assert Unexpired([x], now) == [x];
    assert [x, y][..1] == [x] && [x, y][1] == y;
  }

  /** The write, as a put and one pass over the category. */
  lemma WrittenIs(t: Texts, entries: seq<Slot>, location: string, summary: string, id: nat, now: int)
    requires Spellings(t) && location in [HERE, THERE] && summary in [FIRST, SPACED, LAST]
    requires forall x :: x in entries ==> x.entry.category == HOURS
    ensures Written(t, entries, USER, location, HOURS, summary, id, now)
         == ConsolidateOne(t, PutSlot(entries, SlotFor(t, location, summary, id, now)), USER, location, HOURS, now)
  {
    var slot := SlotFor(t, location, summary, id, now);
    assert NewEntry(t, location, HOURS, summary, id, now) == slot.entry;
    PutSlotHas(entries, slot);
    OnlyHours(t, PutSlot(entries, slot), location, now);
  }

  lemma FirstStore(t: Texts)
    requires Spellings(t)
    ensures Written(t, [], USER, HERE, HOURS, FIRST, 1, 0) == [SlotFor(t, HERE, FIRST, 1, 0)]
  {
    var a := SlotFor(t, HERE, FIRST, 1, 0);
    WrittenIs(t, [], HERE, FIRST, 1, 0);
    SlotMatches(t, HERE, FIRST, 1, 0);
    HitsOfPair(t, a, a, HERE);
    UnexpiredOfPair(a.entry, a.entry, 0);
    NothingEvicted(t, [a], [a.entry], 0);
  }

  lemma {:induction false} NothingEvicted(t: Texts, entries: seq<Slot>, hits: seq<Entry>, now: int)
    requires forall h :: h in hits ==> !Expired(h, now)
    ensures Evicted(t, entries, USER, hits, now) == entries
  {
    if hits != [] {
      NothingEvicted(t, entries, hits[..|hits| - 1], now);
    }
  }

  /** The second spelling gets its own slot; it stays as written because the first match is clean. */
  lemma SecondStore(t: Texts)
    requires Spellings(t)
    ensures
      var a, b := SlotFor(t, HERE, FIRST, 1, 0), SlotFor(t, THERE, SPACED, 2, 100);
      Written(t, [a], USER, THERE, HOURS, SPACED, 2, 100) == [a, b]
  {
    var a, b := SlotFor(t, HERE, FIRST, 1, 0), SlotFor(t, THERE, SPACED, 2, 100);
    WrittenIs(t, [a], THERE, SPACED, 2, 100);
    SlotMatches(t, HERE, FIRST, 1, 0);
    SlotMatches(t, THERE, SPACED, 2, 100);
    TokensDiffer(t);
    assert [a][1..] == [] && [a] + [b] == [a, b] && PutSlot([], b) == [b];
    HitsOfPair(t, a, b, THERE);
    UnexpiredOfPair(a.entry, b.entry, 100);
    NothingEvicted(t, [a, b], [a.entry, b.entry], 100);
  }

  lemma TokensDiffer(t: Texts)
    requires Spellings(t)
    ensures t.token(HERE) != t.token(THERE)
  {
    assert |t.token(HERE)| != |t.token(THERE)|;
  }

  /** Half a year later a read evicts the first slot; the second is not yet too old. */
  lemma ThirdStore(t: Texts)
    requires Spellings(t)
    ensures
      var a, b := SlotFor(t, HERE, FIRST, 1, 0), SlotFor(t, THERE, SPACED, 2, 100);
      AfterRead(t, [a, b], USER, HERE, HOURS, LATER) == [b]
  {
    var a, b := SlotFor(t, HERE, FIRST, 1, 0), SlotFor(t, THERE, SPACED, 2, 100);
    SlotMatches(t, HERE, FIRST, 1, 0);
    SlotMatches(t, THERE, SPACED, 2, 100);
    HitsOfPair(t, a, b, HERE);
    assert [a.entry, b.entry][..1] == [a.entry] && [a.entry][..0] == [];
    assert LabelKey(t, USER, a.entry) == a.key;
    assert [a, b][1..] == [b] && DropSlot([a, b], a.key) == [b];
    assert Evicted(t, [a, b], USER, [], LATER) == [a, b];
    assert Evicted(t, [a, b], USER, [a.entry], LATER) == [b];
    assert Evicted(t, [a, b], USER, [a.entry, b.entry], LATER) == [b];
  }

  /** The new memory is put behind the second slot, whose unclean summary is then normalized into the new slot. */
  lemma FourthStore(t: Texts)
    requires Spellings(t)
    ensures
      var b, c := SlotFor(t, THERE, SPACED, 2, 100), SlotFor(t, HERE, LAST, 3, LATEST);
      Written(t, [b], USER, HERE, HOURS, LAST, 3, LATEST) == [b, Slot(c.key, Entry(THERE, HOURS, COLLAPSED, 100, 2))]
  {
    var b, c := SlotFor(t, THERE, SPACED, 2, 100), SlotFor(t, HERE, LAST, 3, LATEST);
    var moved := Slot(c.key, Entry(THERE, HOURS, COLLAPSED, 100, 2));
    WrittenIs(t, [b], HERE, LAST, 3, LATEST);
    SlotMatches(t, THERE, SPACED, 2, 100);
    SlotMatches(t, HERE, LAST, 3, LATEST);
    TokensDiffer(t);
    assert [b][1..] == [] && [b] + [c] == [b, c] && PutSlot([], c) == [c];
    HitsOfPair(t, b, c, HERE);
    UnexpiredOfPair(b.entry, c.entry, LATEST);
    NothingEvicted(t, [b, c], [b.entry, c.entry], LATEST);
    assert ScopedKey(t, USER, HERE, HOURS) == c.key;
    assert |SPACED| != |COLLAPSED|;
    assert b.entry.(summary := COLLAPSED) == moved.entry;
    assert [b, c][1..] == [c] && [c][1..] == [] && [moved] + [] == [moved] && [b] + [moved] == [b, moved];
    assert PutSlot([c], moved) == [moved];
  }

  lemma ReadEvicts(w: World, c: Classifiers, t: Texts) returns (v: World)
    requires Settled(w)
    ensures Runs(w, c, t, [Timed(ReadMemory(USER, HERE, HOURS), LATER)], v)
    ensures v == w.(entries := AfterRead(t, w.entries, USER, HERE, HOURS, LATER))
  {
    var steps := [Timed(ReadMemory(USER, HERE, HOURS), LATER)];
    v := Apply(w, c, t, steps[0].step, LATER);
    assert steps[1..] == [] && Runs(v, c, t, [], v);
  }

  /** The turns of the run that loses a memory. */
  function LosingRun(): seq<Timed> {
    Round(HERE, FIRST, 1, 0) + (Round(THERE, SPACED, 2, 100)
      + ([Timed(ReadMemory(USER, HERE, HOURS), LATER)] + Round(HERE, LAST, 3, LATEST)))
  }

  /**
   From the start: a memory is saved under one spelling of a place, another under a second spelling, the
   first one expires, and a new one is approved for the first spelling. The agent confirms and logs it,
   yet its slot ends up with the memory of the second spelling, and no slot holds the new one.
   */
  lemma ConfirmedMemoryIsLost(c: Classifiers, t: Texts) returns (end: World)
    requires Spellings(t)
    ensures Runs(START, c, t, LosingRun(), end)
    ensures end.audit != [] && end.audit[|end.audit| - 1] == Audit(Some(SID), Approved, Some(3), LAST, HOURS, "")
    ensures Slotted(end.entries, SlotFor(t, HERE, LAST, 3, LATEST).key) == Some(Entry(THERE, HOURS, COLLAPSED, 100, 2))
    ensures forall x :: x in end.entries ==> x.entry.id != 3
  {
    var w1 := RoundSaves(START, c, t, HERE, FIRST, 1, 0);
    FirstStore(t);
    var w2 := RoundSaves(w1, c, t, THERE, SPACED, 2, 100);
    SecondStore(t);
    var w3 := ReadEvicts(w2, c, t);
    ThirdStore(t);
    end := RoundSaves(w3, c, t, HERE, LAST, 3, LATEST);
    FourthStore(t);
    LostSlot(t);
    RunsJoin(w2, c, t, [Timed(ReadMemory(USER, HERE, HOURS), LATER)], w3, Round(HERE, LAST, 3, LATEST), end);
    RunsJoin(w1, c, t, Round(THERE, SPACED, 2, 100), w2,
             [Timed(ReadMemory(USER, HERE, HOURS), LATER)] + Round(HERE, LAST, 3, LATEST), end);
    RunsJoin(START, c, t, Round(HERE, FIRST, 1, 0), w1,
             Round(THERE, SPACED, 2, 100)
               + ([Timed(ReadMemory(USER, HERE, HOURS), LATER)] + Round(HERE, LAST, 3, LATEST)), end);
  }

  lemma LostSlot(t: Texts)
    requires Spellings(t)
    ensures
      var b, key := SlotFor(t, THERE, SPACED, 2, 100), SlotFor(t, HERE, LAST, 3, LATEST).key;
      Slotted([b, Slot(key, Entry(THERE, HOURS, COLLAPSED, 100, 2))], key)
        == Some(Entry(THERE, HOURS, COLLAPSED, 100, 2))
  {
    var b, key := SlotFor(t, THERE, SPACED, 2, 100), SlotFor(t, HERE, LAST, 3, LATEST).key;
    var moved := Slot(key, Entry(THERE, HOURS, COLLAPSED, 100, 2));
    TokensDiffer(t);
    assert [b, moved][1..] == [moved] && Slotted([moved], key) == Some(moved.entry);
  }
}
