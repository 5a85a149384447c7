/** What the fenced block contains: which text of a value is kept, and on which line of the block it stands. */
module FenceContents {
  import opened Options
  import opened MetadataFence

  // ---------- what a deletion keeps ----------

  lemma HeadStays(c0: char, rest: string, c: char)
    requires !TripleAt([c0] + rest, 0, c)
    ensures DeleteTriples([c0] + rest, c) == [c0] + DeleteTriples(rest, c)
  {
    assert ([c0] + rest)[1..] == rest;
  }

  lemma TripleGoes(s: string, c: char)
    requires TripleAt(s, 0, c)
    ensures DeleteTriples(s, c) == DeleteTriples(s[3..], c)
  {
  }

  lemma SameHead(a: string, x: char, b: string, c: char)
    requires x != c && a != ""
    ensures TripleAt(a + [x] + b, 0, c) <==> TripleAt(a, 0, c)
  {
    var s := a + [x] + b;
    assert s[|a|] == x && forall i :: 0 <= i < |a| ==> s[i] == a[i];
  }

  lemma Ahead(a: string, b: string, c: string, d: string)
    ensures a + (b + c + d) == (a + b) + c + d
  {
  }

  /** Any other character separates what is deleted on its two sides, and stays. */
  lemma {:induction false} DeletionSplits(a: string, x: char, b: string, c: char)
    requires x != c
    ensures DeleteTriples(a + [x] + b, c) == DeleteTriples(a, c) + [x] + DeleteTriples(b, c)
    decreases |a|
  {
    if a == "" {
      HeadStays(x, b, c);
      assert a + [x] + b == [x] + b;
    } else {
      SameHead(a, x, b, c);
      if TripleAt(a, 0, c) {
        TripleGoes(a, c);
        TripleGoes(a + [x] + b, c);
        assert (a + [x] + b)[3..] == a[3..] + [x] + b;
        DeletionSplits(a[3..], x, b, c);
      } else {
        var rest := a[1..];
        assert a == [a[0]] + rest;
        Ahead([a[0]], rest, [x], b);
        HeadStays(a[0], rest, c);
        HeadStays(a[0], rest + [x] + b, c);
        DeletionSplits(rest, x, b, c);
        Ahead([a[0]], DeleteTriples(rest, c), [x], DeleteTriples(b, c));
      }
    }
  }

  /** Of a run, what is left over after taking threes stays. */
  lemma {:induction false} DeletionOfRun(s: string, c: char)
    requires forall i :: 0 <= i < |s| ==> s[i] == c
    ensures DeleteTriples(s, c) == s[..|s| % 3]
  {
    if |s| >= 3 {
      DeletionOfRun(s[3..], c);
      assert |s| % 3 == |s[3..]| % 3;
      var n := |s| % 3;
      assert s[3..][..n] == s[..n];
    } else {
      assert s[..|s|] == s;
    }
  }

  // ---------- which text of a value is kept ----------

  ghost predicate AllBlank(t: Texts, s: string) {
    forall i :: 0 <= i < |s| ==> t.blank(s[i])
  }

  ghost predicate NoBlankEnds(t: Texts, r: string) {
    r != "" ==> !t.blank(r[0]) && !t.blank(r[|r| - 1])
  }

  /** `r` is `s` without the white space at its two ends. */
  ghost predicate TrimsTo(t: Texts, s: string, r: string) {
    NoBlankEnds(t, r) && exists a, b :: AllBlank(t, a) && AllBlank(t, b) && s == a + r + b
  }

  lemma {:induction false} TrimLeftIs(t: Texts, s: string) returns (a: string)
    ensures AllBlank(t, a) && s == a + TrimLeft(t, s)
    ensures TrimLeft(t, s) != "" ==> !t.blank(TrimLeft(t, s)[0])
  {
    if s != "" && t.blank(s[0]) {
      var rest := TrimLeftIs(t, s[1..]);
      a := [s[0]] + rest;
      assert s == [s[0]] + s[1..];
    } else {
      a := "";
    }
  }

  lemma {:induction false} TrimRightIs(t: Texts, s: string) returns (b: string)
    ensures AllBlank(t, b) && s == TrimRight(t, s) + b && TrimRight(t, s) <= s
    ensures TrimRight(t, s) != "" ==> !t.blank(TrimRight(t, s)[|TrimRight(t, s)| - 1])
  {
    if s != "" && t.blank(s[|s| - 1]) {
      var rest := TrimRightIs(t, s[..|s| - 1]);
      b := rest + [s[|s| - 1]];
      assert s == s[..|s| - 1] + [s[|s| - 1]];
      assert s == TrimRight(t, s) + b;
    } else {
      b := "";
    }
  }

  lemma TrimTrims(t: Texts, s: string)
    ensures TrimsTo(t, s, Trim(t, s))
  {
    var a := TrimLeftIs(t, s);
    var b := TrimRightIs(t, TrimLeft(t, s));
    assert s == a + Trim(t, s) + b;
  }

  lemma TrimmedStays(t: Texts, r: string)
    requires NoBlankEnds(t, r)
    ensures Trim(t, r) == r
  {
  }

  /**
   The kept text: without fence delimiters and outer white space, unless it is empty or says that nothing is
   known.
   */
  ghost predicate Keeps(t: Texts, value: Option<string>, text: Option<string>) {
    if value.None? then text == None
    else
      exists r ::
        && TrimsTo(t, StripFenceDelimiters(value.value), r)
        && text == if r == "" || t.fold(r) == "none" || t.fold(r) == "null" || t.fold(r) == "not stated" then None
                   else Some(r)
  }

  lemma PreparationKeeps(t: Texts, value: Option<string>)
    ensures Keeps(t, value, PrepareText(t, value))
  {
    if value.Some? {
      TrimTrims(t, StripFenceDelimiters(value.value));
      TrimmedStays(t, Trim(t, StripFenceDelimiters(value.value)));
    }
  }

  // ---------- the lines ----------

  /** A text that is there. */
  function Shown(text: Option<string>): seq<string> {
    if text.Some? then [text.value] else []
  }

  /** The texts that are there, in order. */
  function Present(texts: seq<Option<string>>): seq<string> {
    if texts == [] then [] else Present(texts[..|texts| - 1]) + Shown(texts[|texts| - 1])
  }

  /** Each item is kept on its own; those of which nothing is left are passed over. */
  ghost predicate KeepsEach(t: Texts, items: seq<Option<string>>, kept: seq<string>) {
    exists texts :: KeepsAs(t, items, texts) && kept == Present(texts)
  }

  ghost predicate KeepsAs(t: Texts, items: seq<Option<string>>, texts: seq<Option<string>>) {
    |texts| == |items| && forall i :: 0 <= i < |items| ==> Keeps(t, items[i], texts[i])
  }

  lemma KeepsOneMore(t: Texts, rest: seq<Option<string>>, texts: seq<Option<string>>, last: Option<string>,
                     text: Option<string>)
    requires KeepsAs(t, rest, texts) && Keeps(t, last, text)
    ensures KeepsAs(t, rest + [last], texts + [text])
  {
  }

  lemma PreparedOneMore(t: Texts, rest: seq<Option<string>>, last: Option<string>)
    ensures Prepared(t, rest + [last]) == Prepared(t, rest) + Shown(PrepareText(t, last))
  {
    assert (rest + [last])[..|rest|] == rest;
  }

  lemma PresentSnoc(texts: seq<Option<string>>, last: Option<string>)
    ensures Present(texts + [last]) == Present(texts) + Shown(last)
  {
    assert (texts + [last])[..|texts|] == texts;
  }

  lemma KeepsEachMore(t: Texts, rest: seq<Option<string>>, kept: seq<string>, last: Option<string>,
                      text: Option<string>)
    requires KeepsEach(t, rest, kept) && Keeps(t, last, text)
    ensures KeepsEach(t, rest + [last], kept + Shown(text))
  {
    var texts :| KeepsAs(t, rest, texts) && kept == Present(texts);
    KeepsOneMore(t, rest, texts, last, text);
    PresentSnoc(texts, text);
  }

  lemma {:induction false} PreparedKeepsEach(t: Texts, items: seq<Option<string>>)
    ensures KeepsEach(t, items, Prepared(t, items))
  {
    if items == [] {
      assert KeepsAs(t, [], []) && Present([]) == [];
    } else {
      var rest, last := items[..|items| - 1], items[|items| - 1];
      PreparedKeepsEach(t, rest);
      PreparationKeeps(t, last);
      KeepsEachMore(t, rest, Prepared(t, rest), last, PrepareText(t, last));
      PreparedOneMore(t, rest, last);
      assert items == rest + [last];
    }
  }

  /** A value where one text is wanted: a list is shown as a whole. */
  function AsText(value: Value, show: seq<Option<string>> -> string): Option<string> {
    match value
    case Missing => None
    case Scalar(text) => Some(text)
    case Items(items) => Some(show(items))
  }

  /** A value where a list is wanted: a single text is a list of one. */
  function AsItems(value: Value): seq<Option<string>> {
    match value
    case Missing => []
    case Scalar(text) => [Some(text)]
    case Items(items) => items
  }

  /** One line with the label and the kept text of the value, or none. */
  ghost predicate Labelled(part: seq<string>, title: string, t: Texts, show: seq<Option<string>> -> string,
                           value: Value)
  {
    exists text :: Keeps(t, AsText(value, show), text) && part == if text.Some? then [title + ": " + text.value] else []
  }

  function Dashed(texts: seq<string>): seq<string> {
    seq(|texts|, i requires 0 <= i < |texts| => "- " + texts[i])
  }

  /** The label on a line of its own and a dashed line for each kept item, or nothing. */
  ghost predicate Listed(part: seq<string>, title: string, t: Texts, value: Value) {
    exists texts ::
      KeepsEach(t, AsItems(value), texts) && part == if texts == [] then [] else [title + ":"] + Dashed(texts)
  }

  lemma {:induction false} BulletsAreDashed(items: seq<string>)
    ensures Bullets(items) == Dashed(items)
  {
    if items != [] {
      BulletsAreDashed(items[..|items| - 1]);
    }
  }

  lemma LineIsLabelled(t: Texts, show: seq<Option<string>> -> string, k: nat, value: Value)
    requires k < 6
    ensures Labelled(LinesFor(t, show, k, value), LABELS[k], t, show, value)
  {
    PreparationKeeps(t, AsText(value, show));
    assert TextOf(t, value, show) == PrepareText(t, AsText(value, show));
  }

  lemma LinesAreListed(t: Texts, show: seq<Option<string>> -> string, value: Value)
    ensures Listed(LinesFor(t, show, 6, value), LABELS[6], t, value)
  {
    var items := AsItems(value);
    PreparedKeepsEach(t, items);
    assert ListOf(t, value) == Prepared(t, items);
    BulletsAreDashed(Prepared(t, items));
  }

  /** The seven labels in their order, each with the lines of its own value. */
  lemma LinesCarryValues(t: Texts, show: seq<Option<string>> -> string, values: seq<Value>)
    returns (parts: seq<seq<string>>)
    requires |values| == 7
    ensures |parts| == 7 && LinesUpTo(t, show, values, 7)
         == parts[0] + parts[1] + parts[2] + parts[3] + parts[4] + parts[5] + parts[6]
    ensures Labelled(parts[0], "Client name", t, show, values[0])
    ensures Labelled(parts[1], "Location", t, show, values[1])
    ensures Labelled(parts[2], "Service type", t, show, values[2])
    ensures Labelled(parts[3], "Scope", t, show, values[3])
    ensures Labelled(parts[4], "Deadline", t, show, values[4])
    ensures Labelled(parts[5], "Budget range", t, show, values[5])
    ensures Listed(parts[6], "Open questions", t, values[6])
  {
    parts := seq(7, k requires 0 <= k < 7 => LinesFor(t, show, k, values[k]));
    LinesAreParts(t, show, values, parts);
    forall k | 0 <= k < 6
      ensures Labelled(parts[k], LABELS[k], t, show, values[k])
    {
      LineIsLabelled(t, show, k, values[k]);
    }
    LinesAreListed(t, show, values[6]);
  }

  lemma LinesAreParts(t: Texts, show: seq<Option<string>> -> string, values: seq<Value>, parts: seq<seq<string>>)
    requires |values| == 7 && |parts| == 7
    requires forall k :: 0 <= k < 7 ==> parts[k] == LinesFor(t, show, k, values[k])
    ensures LinesUpTo(t, show, values, 7)
         == parts[0] + parts[1] + parts[2] + parts[3] + parts[4] + parts[5] + parts[6]
  {
    assert LinesUpTo(t, show, values, 1) == parts[0];
    assert LinesUpTo(t, show, values, 2) == parts[0] + parts[1];
    assert LinesUpTo(t, show, values, 3) == parts[0] + parts[1] + parts[2];
    assert LinesUpTo(t, show, values, 4) == parts[0] + parts[1] + parts[2] + parts[3];
    assert LinesUpTo(t, show, values, 5) == parts[0] + parts[1] + parts[2] + parts[3] + parts[4];
    assert LinesUpTo(t, show, values, 6) == parts[0] + parts[1] + parts[2] + parts[3] + parts[4] + parts[5];
  }

  // ---------- the block ----------

  /** The lines with a line break between any two. */
  function OnLines(lines: seq<string>): string
    requires lines != []
  {
    if |lines| == 1 then lines[0] else lines[0] + "\n" + OnLines(lines[1..])
  }

  lemma {:induction false} OnLinesSnoc(lines: seq<string>, last: string)
    requires lines != []
    ensures OnLines(lines + [last]) == OnLines(lines) + "\n" + last
  {
    if |lines| == 1 {
      assert (lines + [last])[1..] == [last];
    } else {
      assert (lines + [last])[1..] == lines[1..] + [last];
      OnLinesSnoc(lines[1..], last);
    }
  }

  lemma {:induction false} JoinedIsOnLines(lines: seq<string>)
    requires lines != []
    ensures Joined(lines) == "\n" + OnLines(lines)
  {
    var rest, last := lines[..|lines| - 1], lines[|lines| - 1];
    assert lines == rest + [last];
    if rest == [] {
      assert Joined(rest) == "";
    } else {
      JoinedIsOnLines(rest);
      OnLinesSnoc(rest, last);
    }
  }

  lemma Regroup(a: string, b: string, c: string, d: string, e: string)
    ensures a + (b + c) + d + e == a + b + c + d + e
  {
  }

  /** The lines stand between the two fences, each on a line of its own; no lines give the fixed text. */
  lemma BlockHoldsLines(lines: seq<string>)
    ensures Block(lines) == if lines == [] then "(no metadata extracts)"
                            else "<<<METADATA>>>" + "\n" + OnLines(lines) + "\n" + "<<<END METADATA>>>"
  {
    if lines != [] {
      JoinedIsOnLines(lines);
      Regroup("<<<METADATA>>>", "\n", OnLines(lines), "\n", "<<<END METADATA>>>");
    }
  }
}
