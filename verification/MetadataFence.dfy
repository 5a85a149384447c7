/**
 The fenced metadata block of the draft prompt: interpolated values lose their fence delimiters, so the
 block ends where its closing fence ends and nowhere earlier.
 */
module MetadataFence {
  import opened Options

  const FENCE_OPEN := "<<<METADATA>>>"
  const FENCE_CLOSE := "<<<END METADATA>>>"
  const EMPTY_METADATA := "(no metadata extracts)"

  /** Whitespace and case folding are parameters. */
  datatype Texts = Texts(blank: char -> bool, fold: string -> string)

  // ---------- deleting triples ----------

  predicate TripleAt(s: string, i: nat, c: char) {
    i + 3 <= |s| && s[i] == c && s[i + 1] == c && s[i + 2] == c
  }

  ghost predicate NoTriple(s: string, c: char) {
    forall i: nat :: !TripleAt(s, i, c)
  }

  /** One left-to-right pass that deletes non-overlapping triples of `c`. */
  function DeleteTriples(s: string, c: char): string {
    if |s| < 3 then s
    else if TripleAt(s, 0, c) then DeleteTriples(s[3..], c)
    else [s[0]] + DeleteTriples(s[1..], c)
  }

  /** The length of the run of `c` at the start. */
  function HeadRun(s: string, c: char): (n: nat)
    ensures n <= |s|
  {
    if s == "" || s[0] != c then 0 else 1 + HeadRun(s[1..], c)
  }

  lemma HeadRunOfTriple(s: string, c: char)
    requires |s| >= 3
    ensures TripleAt(s, 0, c) <==> HeadRun(s, c) >= 3
    ensures TripleAt(s, 0, c) ==> HeadRun(s, c) == 3 + HeadRun(s[3..], c)
  {
    assert s[1..][1..] == s[2..] && s[2..][1..] == s[3..];
    assert HeadRun(s[1..], c) == if s[1] != c then 0 else 1 + HeadRun(s[2..], c);
    assert HeadRun(s[2..], c) == if s[2] != c then 0 else 1 + HeadRun(s[3..], c);
  }

  /** A run keeps its length modulo three. */
  lemma {:induction false} DeletionKeepsRunModThree(s: string, c: char)
    ensures HeadRun(DeleteTriples(s, c), c) == HeadRun(s, c) % 3
  {
    if |s| >= 3 {
      HeadRunOfTriple(s, c);
      if TripleAt(s, 0, c) {
        DeletionKeepsRunModThree(s[3..], c);
      } else {
        DeletionKeepsRunModThree(s[1..], c);
        var rest := DeleteTriples(s[1..], c);
        assert ([s[0]] + rest)[1..] == rest;
      }
    }
  }

  lemma NoTripleByHead(c0: char, rest: string, c: char)
    requires NoTriple(rest, c) && HeadRun([c0] + rest, c) < 3
    ensures NoTriple([c0] + rest, c)
  {
    var s := [c0] + rest;
    forall i: nat ensures !TripleAt(s, i, c) {
      if i == 0 {
        if |s| >= 3 {
          HeadRunOfTriple(s, c);
        }
      } else {
        assert !TripleAt(rest, i - 1, c);
      }
    }
  }

  /** One pass is enough: no triple is left, and none is created by what was deleted. */
  lemma {:induction false} DeletionLeavesNoTriple(s: string, c: char)
    ensures NoTriple(DeleteTriples(s, c), c)
  {
    if |s| >= 3 {
      if TripleAt(s, 0, c) {
        DeletionLeavesNoTriple(s[3..], c);
      } else {
        DeletionLeavesNoTriple(s[1..], c);
        DeletionKeepsRunModThree(s, c);
        NoTripleByHead(s[0], DeleteTriples(s[1..], c), c);
      }
    }
  }

  /** Both delimiters, the opening ones first. */
  function StripFenceDelimiters(value: string): string {
    DeleteTriples(DeleteTriples(value, '<'), '>')
  }

  // ---------- the opening delimiter can come back ----------

  /** `s` starts with `k` times '<', with nothing but blocks of ">>>" in front of each. */
  predicate Leads(s: string, k: nat) {
    if k == 0 then true
    else if TripleAt(s, 0, '>') then Leads(s[3..], k)
    else s != "" && s[0] == '<' && Leads(s[1..], k - 1)
  }

  /** The first `k` characters are '<'. */
  predicate Opens(s: string, k: nat) {
    k <= |s| && forall i :: 0 <= i < k ==> s[i] == '<'
  }

  lemma {:induction false} LeadsOpens(s: string, k: nat)
    ensures Leads(s, k) <==> Opens(DeleteTriples(s, '>'), k)
    decreases |s|, k
  {
    if k > 0 {
      if TripleAt(s, 0, '>') {
        LeadsOpens(s[3..], k);
      } else if s != "" {
        LeadsOpens(s[1..], k - 1);
        DeleteHead(s);
        var rest := DeleteTriples(s[1..], '>');
        if s[0] == '<' {
          assert forall i :: 0 <= i < |rest| ==> ([s[0]] + rest)[i + 1] == rest[i];
          assert Opens([s[0]] + rest, k) <==> Opens(rest, k - 1);
        } else {
          assert ([s[0]] + rest)[0] != '<';
        }
      }
    }
  }

  lemma DeleteHead(s: string)
    requires s != "" && !TripleAt(s, 0, '>')
    ensures DeleteTriples(s, '>') == [s[0]] + DeleteTriples(s[1..], '>')
  {
  }

  /** A triple of '<' somewhere in `s`, once the blocks of ">>>" are taken out. */
  ghost predicate SpreadOpening(s: string) {
    exists i: nat :: i < |s| && s[i] == '<' && Leads(s[i..], 3)
  }

  lemma SpreadTail(s: string, n: nat)
    requires n <= |s| && forall i :: 0 <= i < n ==> s[i] != '<' || !Leads(s[i..], 3)
    ensures SpreadOpening(s) <==> SpreadOpening(s[n..])
  {
    if SpreadOpening(s) {
      var i: nat :| i < |s| && s[i] == '<' && Leads(s[i..], 3);
      assert s[n..][i - n..] == s[i..];
    }
    if SpreadOpening(s[n..]) {
      var i: nat :| i < |s[n..]| && s[n..][i] == '<' && Leads(s[n..][i..], 3);
      assert s[n..][i..] == s[n + i..];
    }
  }

  lemma {:induction false} SecondPassOpens(s: string)
    ensures !NoTriple(DeleteTriples(s, '>'), '<') <==> SpreadOpening(s)
    decreases |s|
  {
    if s == "" {
    } else if TripleAt(s, 0, '>') {
      SecondPassOpens(s[3..]);
      SpreadTail(s, 3);
    } else {
      SecondPassOpens(s[1..]);
      DeleteHead(s);
      LeadsOpens(s, 3);
      OpensOrLater(s[0], DeleteTriples(s[1..], '>'));
      assert s[0..] == s;
      if !(s[0] == '<' && Leads(s, 3)) {
        SpreadTail(s, 1);
      }
    }
  }

  lemma OpensOrLater(c0: char, rest: string)
    ensures !NoTriple([c0] + rest, '<') <==> Opens([c0] + rest, 3) || !NoTriple(rest, '<')
  {
    var s := [c0] + rest;
    if i: nat :| TripleAt(s, i, '<') {
      if i > 0 {
        assert TripleAt(rest, i - 1, '<');
      }
    }
    if i: nat :| TripleAt(rest, i, '<') {
      assert TripleAt(s, i + 1, '<');
    }
    if Opens(s, 3) {
      assert TripleAt(s, 0, '<');
    }
  }

  /**
   A stripped value contains "<<<" again if and only if, after the first pass, three '<' stand with
   nothing but blocks of ">>>" between them.
   */
  lemma OpeningComesBackExactly(value: string)
    ensures !NoTriple(StripFenceDelimiters(value), '<') <==> SpreadOpening(DeleteTriples(value, '<'))
  {
    SecondPassOpens(DeleteTriples(value, '<'));
  }

  /** It does happen: with `tail` free of delimiters, deleting ">>>" puts "<<<" in front of it. */
  lemma OpeningCanComeBack(tail: string)
    requires forall i :: 0 <= i < |tail| ==> tail[i] != '>' && tail[i] != '<'
    ensures StripFenceDelimiters(['<'] + (">>>" + ("<<" + tail))) == ['<'] + ("<<" + tail)
  {
    var w := "<<" + tail;
    var v := ['<'] + (">>>" + w);
    forall i: nat ensures !TripleAt(v, i, '<') {
      if i >= 4 && i + 3 <= |v| {
        assert v[i + 2] == tail[i - 4];
      }
    }
    FirstPass(v);
    KeepsHead('<', ">>>" + w);
    BlockGoes(w);
    PlainText(w);
  }

  lemma KeepsHead(c0: char, rest: string)
    requires c0 != '>'
    ensures DeleteTriples([c0] + rest, '>') == [c0] + DeleteTriples(rest, '>')
  {
    assert ([c0] + rest)[1..] == rest;
  }

  lemma BlockGoes(w: string)
    ensures DeleteTriples(">>>" + w, '>') == DeleteTriples(w, '>')
  {
    assert (">>>" + w)[3..] == w;
  }

  lemma PlainText(s: string)
    requires forall i :: 0 <= i < |s| ==> s[i] != '>'
    ensures DeleteTriples(s, '>') == s
  {
    if |s| >= 3 {
      PlainText(s[1..]);
    }
  }

  lemma FirstPass(s: string)
    requires NoTriple(s, '<')
    ensures DeleteTriples(s, '<') == s
  {
    if |s| >= 3 {
      assert !TripleAt(s, 0, '<');
      forall i: nat ensures !TripleAt(s[1..], i, '<') {
        assert !TripleAt(s, i + 1, '<');
      }
      FirstPass(s[1..]);
    }
  }

  // ---------- preparing values ----------

  function TrimLeft(t: Texts, s: string): string {
    if s != "" && t.blank(s[0]) then TrimLeft(t, s[1..]) else s
  }

  function TrimRight(t: Texts, s: string): string {
    if s != "" && t.blank(s[|s| - 1]) then TrimRight(t, s[..|s| - 1]) else s
  }

  function Trim(t: Texts, s: string): string { TrimRight(t, TrimLeft(t, s)) }

  predicate ShouldOmit(t: Texts, text: string) {
    Trim(t, text) == "" || t.fold(Trim(t, text)) in {"none", "null", "not stated"}
  }

  /** A metadata value: absent, a scalar by its text, or a list of such. */
  datatype Value = Missing | Scalar(text: string) | Items(items: seq<Option<string>>)

  function PrepareText(t: Texts, value: Option<string>): Option<string> {
    if value.None? then None
    else
      var text := Trim(t, StripFenceDelimiters(value.value));
      if ShouldOmit(t, text) then None else Some(text)
  }

  /** The values that remain, in order. */
  function Prepared(t: Texts, items: seq<Option<string>>): seq<string> {
    if items == [] then []
    else
      var last := PrepareText(t, items[|items| - 1]);
      Prepared(t, items[..|items| - 1]) + (if last.Some? then [last.value] else [])
  }

  lemma {:induction false} TrimLeftIsPart(t: Texts, s: string, c: char)
    requires NoTriple(s, c)
    ensures NoTriple(TrimLeft(t, s), c)
  {
    if s != "" && t.blank(s[0]) {
      forall i: nat ensures !TripleAt(s[1..], i, c) {
        assert !TripleAt(s, i + 1, c);
      }
      TrimLeftIsPart(t, s[1..], c);
    }
  }

  lemma {:induction false} TrimRightIsPart(t: Texts, s: string, c: char)
    requires NoTriple(s, c)
    ensures NoTriple(TrimRight(t, s), c)
  {
    if s != "" && t.blank(s[|s| - 1]) {
      var rest := s[..|s| - 1];
      forall i: nat ensures !TripleAt(rest, i, c) {
        assert !TripleAt(s, i, c);
      }
      TrimRightIsPart(t, rest, c);
    }
  }

  lemma PreparedTextIsClean(t: Texts, value: Option<string>)
    ensures PrepareText(t, value).Some? ==> NoTriple(PrepareText(t, value).value, '>')
  {
    if value.Some? {
      DeletionLeavesNoTriple(DeleteTriples(value.value, '<'), '>');
      var stripped := StripFenceDelimiters(value.value);
      TrimLeftIsPart(t, stripped, '>');
      TrimRightIsPart(t, TrimLeft(t, stripped), '>');
    }
  }

  /** A text whose last character is not '>' can be put in front of any clean text. */
  lemma CleanJoin(a: string, b: string)
    requires NoTriple(a, '>') && NoTriple(b, '>') && (a == "" || a[|a| - 1] != '>')
    ensures NoTriple(a + b, '>')
  {
    forall i: nat ensures !TripleAt(a + b, i, '>') {
      if i + 3 <= |a| {
        assert !TripleAt(a, i, '>');
      } else if i >= |a| {
        assert !TripleAt(b, i - |a|, '>');
      }
    }
  }

  // ---------- the block ----------

  /** The labels, in order; the last one holds a list. */
  const LABELS: seq<string> := ["Client name", "Location", "Service type", "Scope", "Deadline", "Budget range",
                                "Open questions"]

  predicate Plain(s: string) { forall i :: 0 <= i < |s| ==> s[i] != '>' }

  ghost predicate CleanLines(lines: seq<string>) {
    forall i :: 0 <= i < |lines| ==> NoTriple(lines[i], '>')
  }

  lemma PlainIsClean(s: string)
    requires Plain(s)
    ensures NoTriple(s, '>')
  {
  }

  /** `"\n".join(lines)` with the line break that precedes it in the block. */
  function Joined(lines: seq<string>): string {
    if lines == [] then "" else Joined(lines[..|lines| - 1]) + "\n" + lines[|lines| - 1]
  }

  lemma {:induction false} JoinedIsClean(lines: seq<string>)
    requires CleanLines(lines)
    ensures NoTriple(Joined(lines) + "\n", '>')
  {
    if lines == [] {
      PlainIsClean("\n");
      assert Joined(lines) + "\n" == "\n";
    } else {
      var n := |lines| - 1;
      JoinedIsClean(lines[..n]);
      CleanJoin(Joined(lines[..n]) + "\n", lines[n]);
      CleanEnd(Joined(lines[..n]) + "\n" + lines[n]);
    }
  }

  /** A line break may follow any clean text. */
  lemma CleanEnd(s: string)
    requires NoTriple(s, '>')
    ensures NoTriple(s + "\n", '>')
  {
    forall i: nat ensures !TripleAt(s + "\n", i, '>') {
      assert !TripleAt(s, i, '>');
    }
  }

  function Bullets(items: seq<string>): seq<string> {
    if items == [] then [] else Bullets(items[..|items| - 1]) + ["- " + items[|items| - 1]]
  }

  /** The list of a list value, or a single scalar; nothing when no item remains. */
  function ListOf(t: Texts, value: Value): seq<string> {
    match value
    case Missing => []
    case Scalar(text) => Prepared(t, [Some(text)])
    case Items(items) => Prepared(t, items)
  }

  function TextOf(t: Texts, value: Value, show: seq<Option<string>> -> string): Option<string> {
    match value
    case Missing => None
    case Scalar(text) => PrepareText(t, Some(text))
    case Items(items) => PrepareText(t, Some(show(items)))
  }

  /** The lines of one label; `show` is how a list prints when a scalar is expected. */
  function LinesFor(t: Texts, show: seq<Option<string>> -> string, k: nat, value: Value): seq<string>
    requires k < |LABELS|
  {
    if k == |LABELS| - 1 then
      var items := ListOf(t, value);
      if items == [] then [] else [LABELS[k] + ":"] + Bullets(items)
    else
      var text := TextOf(t, value, show);
      if text.None? then [] else [LABELS[k] + ": " + text.value]
  }

  function LinesUpTo(t: Texts, show: seq<Option<string>> -> string, values: seq<Value>, k: nat): seq<string>
    requires |values| == |LABELS| && k <= |LABELS|
  {
    if k == 0 then [] else LinesUpTo(t, show, values, k - 1) + LinesFor(t, show, k - 1, values[k - 1])
  }

  function Block(lines: seq<string>): string {
    if lines == [] then EMPTY_METADATA else FENCE_OPEN + Joined(lines) + "\n" + FENCE_CLOSE
  }

  method PrepareList(t: Texts, value: Value) returns (items: seq<string>)
    ensures items == ListOf(t, value)
  {
    if value.Missing? {
      return [];
    }
    if value.Scalar? {
      var prepared := PrepareText(t, Some(value.text));
      var one := [Some(value.text)];
      assert one[..0] == [] && Prepared(t, one[..0]) == [];
      return if prepared.Some? then [prepared.value] else [];
    }
    items := [];
    for i := 0 to |value.items|
      invariant items == Prepared(t, value.items[..i])
    {
      assert value.items[..i + 1][..i] == value.items[..i];
      var prepared := PrepareText(t, value.items[i]);
      if prepared.Some? {
        items := items + [prepared.value];
      }
    }
    assert value.items[..|value.items|] == value.items;
  }

  /** format_metadata_for_prompt, over the values of the seven labels. */
  method FormatMetadata(t: Texts, show: seq<Option<string>> -> string, values: seq<Value>) returns (block: string)
    requires |values| == |LABELS|
    ensures block == Block(LinesUpTo(t, show, values, |LABELS|))
  {
    var lines: seq<string> := [];
    for k := 0 to |LABELS|
      invariant lines == LinesUpTo(t, show, values, k)
    {
      if k == |LABELS| - 1 {
        var items := PrepareList(t, values[k]);
        if items != [] {
          var bullets := Bulleted(items);
          lines := lines + ([LABELS[k] + ":"] + bullets);
        }
      } else {
        var prepared := TextOf(t, values[k], show);
        if prepared.Some? {
          lines := lines + [LABELS[k] + ": " + prepared.value];
        }
      }
    }
    block := Block(lines);
  }

  method Bulleted(items: seq<string>) returns (lines: seq<string>)
    ensures lines == Bullets(items)
  {
    lines := [];
    for i := 0 to |items|
      invariant lines == Bullets(items[..i])
    {
      assert items[..i + 1][..i] == items[..i];
      lines := lines + ["- " + items[i]];
    }
    assert items[..|items|] == items;
  }

  // ---------- the block is closed once, at its end ----------

  lemma {:induction false} PreparedAreClean(t: Texts, items: seq<Option<string>>)
    ensures CleanLines(Prepared(t, items))
  {
    if items != [] {
      PreparedAreClean(t, items[..|items| - 1]);
      PreparedTextIsClean(t, items[|items| - 1]);
    }
  }

  lemma {:induction false} BulletsAreClean(items: seq<string>)
    requires CleanLines(items)
    ensures CleanLines(Bullets(items))
  {
    if items != [] {
      BulletsAreClean(items[..|items| - 1]);
      PlainIsClean("- ");
      CleanJoin("- ", items[|items| - 1]);
    }
  }

  lemma LabelsArePlain(k: nat)
    requires k < |LABELS|
    ensures Plain(LABELS[k])
  {
  }

  lemma LinesForAreClean(t: Texts, show: seq<Option<string>> -> string, k: nat, value: Value)
    requires k < |LABELS|
    ensures CleanLines(LinesFor(t, show, k, value))
  {
    LabelsArePlain(k);
    if k == |LABELS| - 1 {
      PlainIsClean(LABELS[k] + ":");
      if value.Scalar? {
        PreparedAreClean(t, [Some(value.text)]);
      } else if value.Items? {
        PreparedAreClean(t, value.items);
      }
      BulletsAreClean(ListOf(t, value));
    } else {
      PlainIsClean(LABELS[k] + ": ");
      var text := TextOf(t, value, show);
      if value.Scalar? {
        PreparedTextIsClean(t, Some(value.text));
      } else if value.Items? {
        PreparedTextIsClean(t, Some(show(value.items)));
      }
      if text.Some? {
        CleanJoin(LABELS[k] + ": ", text.value);
      }
    }
  }

  lemma {:induction false} AllLinesAreClean(t: Texts, show: seq<Option<string>> -> string, values: seq<Value>, k: nat)
    requires |values| == |LABELS| && k <= |LABELS|
    ensures CleanLines(LinesUpTo(t, show, values, k))
  {
    if k > 0 {
      AllLinesAreClean(t, show, values, k - 1);
      LinesForAreClean(t, show, k - 1, values[k - 1]);
    }
  }

  lemma FencedTriples(body: string, i: nat)
    requires NoTriple(body, '>') && body != "" && body[0] != '>' && body[|body| - 1] != '>'
    ensures TripleAt(FENCE_OPEN + body + FENCE_CLOSE, i, '>') <==> i == 11 || i == |FENCE_OPEN| + |body| + 15
  {
    var s := FENCE_OPEN + body + FENCE_CLOSE;
    var n := |FENCE_OPEN|;
    assert n == 14 && |FENCE_CLOSE| == 18;
    if i < 11 {
      assert s[i] == FENCE_OPEN[i];
    } else if i == 11 {
      assert s[11] == '>' && s[12] == '>' && s[13] == '>';
    } else if i < n {
      assert s[n] == body[0];
    } else if i + 3 <= n + |body| {
      assert s[i] == body[i - n] && s[i + 1] == body[i - n + 1] && s[i + 2] == body[i - n + 2];
      assert !TripleAt(body, i - n, '>');
    } else if i < n + |body| {
      assert s[n + |body| - 1] == body[|body| - 1];
    } else if i + 3 <= |s| {
      var j := i - n - |body|;
      assert s[i] == FENCE_CLOSE[j];
    }
  }

  lemma JoinedStarts(lines: seq<string>)
    requires lines != []
    ensures Joined(lines) != "" && Joined(lines)[0] == '\n'
  {
    if |lines| == 1 {
      assert Joined(lines[..0]) == "";
    } else {
      JoinedStarts(lines[..|lines| - 1]);
    }
  }

  lemma BlockOfLines(lines: seq<string>, i: nat)
    requires CleanLines(lines) && lines != []
    ensures |Block(lines)| >= 32 && Block(lines)[|Block(lines)| - 18..] == FENCE_CLOSE
    ensures TripleAt(Block(lines), i, '>') <==> i == 11 || i == |Block(lines)| - 3
  {
    JoinedIsClean(lines);
    JoinedStarts(lines);
    var body := Joined(lines) + "\n";
    assert Block(lines) == FENCE_OPEN + body + FENCE_CLOSE;
    FencedTriples(body, i);
  }

  /** Whatever the values, ">>>" occurs in a fenced block at the end of each fence and nowhere else. */
  lemma BlockClosesAtItsEnd(t: Texts, show: seq<Option<string>> -> string, values: seq<Value>, lines: seq<string>,
                            i: nat)
    requires |values| == |LABELS| && lines == LinesUpTo(t, show, values, |LABELS|) && lines != []
    ensures TripleAt(Block(lines), i, '>') <==> i == 11 || i == |Block(lines)| - 3
  {
    AllLinesAreClean(t, show, values, |LABELS|);
    BlockOfLines(lines, i);
  }

  predicate OccursAt(s: string, part: string, i: nat) {
    i + |part| <= |s| && s[i..i + |part|] == part
  }

  lemma FenceEndsInTriple(s: string, i: nat)
    requires OccursAt(s, FENCE_CLOSE, i)
    ensures TripleAt(s, i + 15, '>')
  {
    var part := s[i..i + 18];
    assert part[15] == s[i + 15] && part[16] == s[i + 16] && part[17] == s[i + 17];
  }

  /** The closing fence occurs exactly once, as the last characters of the block. */
  lemma ClosingFenceIsUnique(t: Texts, show: seq<Option<string>> -> string, values: seq<Value>, lines: seq<string>,
                             i: nat)
    requires |values| == |LABELS| && lines == LinesUpTo(t, show, values, |LABELS|) && lines != []
    ensures OccursAt(Block(lines), FENCE_CLOSE, i) <==> i == |Block(lines)| - |FENCE_CLOSE|
  {
    AllLinesAreClean(t, show, values, |LABELS|);
    BlockOfLines(lines, i + 15);
    if OccursAt(Block(lines), FENCE_CLOSE, i) {
      FenceEndsInTriple(Block(lines), i);
    }
  }
}
