/** Section-aware chunking of a document, with its two fallbacks when fewer than three chunks result. */
module Chunking {
  import opened Options

  datatype Piece = Piece(section: string, text: string)
  datatype Chunk = Chunk(document: string, section: string, index: nat, text: string)
  datatype Result = Chunks(chunks: seq<Chunk>) | TooFew(count: nat)

  /** A heading and the stripped text under it. */
  datatype Section = Section(title: string, body: string)

  /** Splitting into paragraphs and into sentences, and joining, as parameters. */
  datatype Texts = Texts(
    paragraphs: string -> seq<string>,
    sentences: string -> seq<string>,
    join: seq<string> -> string)

  // ---------- first tier: paragraphs of each section ----------

  function SectionPieces(t: Texts, body: string): seq<string> {
    if body == "" then [] else if t.paragraphs(body) == [] then [body] else t.paragraphs(body)
  }

  function Titled(title: string, texts: seq<string>): (pieces: seq<Piece>)
    ensures |pieces| == |texts|
    ensures forall i :: 0 <= i < |texts| ==> pieces[i] == Piece(title, texts[i])
  {
    if texts == [] then [] else Titled(title, texts[..|texts| - 1]) + [Piece(title, texts[|texts| - 1])]
  }

  function Tier1(t: Texts, sections: seq<Section>): seq<Piece> {
    if sections == [] then []
    else
      var last := sections[|sections| - 1];
      Tier1(t, sections[..|sections| - 1]) + Titled(last.title, SectionPieces(t, last.body))
  }

  // ---------- second tier: sentences of the pieces ----------

  /** A piece is split when it has several sentences and splitting it would be enough on its own. */
  predicate Splits(t: Texts, total: nat, p: Piece) {
    |t.sentences(p.text)| > 1 && total + |t.sentences(p.text)| - 1 >= 3
  }

  function Tier2(t: Texts, total: nat, pieces: seq<Piece>): seq<Piece> {
    if pieces == [] then []
    else
      var last := pieces[|pieces| - 1];
      Tier2(t, total, pieces[..|pieces| - 1])
      + (if Splits(t, total, last) then Titled(last.section, t.sentences(last.text)) else [last])
  }

  // ---------- last resort: groups of sentences of the whole document ----------

  function GroupSize(n: nat): (size: nat)
    ensures size >= 1
  {
    if n / 3 > 1 then n / 3 else 1
  }

  /** Consecutive slices of `size` sentences; the last may be shorter. */
  function Groups(sentences: seq<string>, size: nat): seq<seq<string>>
    requires size >= 1
  {
    if sentences == [] then []
    else if |sentences| <= size then [sentences]
    else [sentences[..size]] + Groups(sentences[size..], size)
  }

  function Concat(groups: seq<seq<string>>): seq<string> {
    if groups == [] then [] else groups[0] + Concat(groups[1..])
  }

  /** The groups in order are exactly the sentences, and none is empty. */
  lemma {:induction false} GroupsPartition(sentences: seq<string>, size: nat)
    requires size >= 1
    ensures Concat(Groups(sentences, size)) == sentences
    ensures forall g :: g in Groups(sentences, size) ==> 0 < |g| <= size
  {
    if sentences != [] && |sentences| > size {
      var rest := Groups(sentences[size..], size);
      GroupsPartition(sentences[size..], size);
      assert ([sentences[..size]] + rest)[1..] == rest;
    } else if sentences != [] {
      assert Concat([sentences]) == sentences + Concat([sentences][1..]);
    }
  }

  lemma {:induction false} GroupCount(sentences: seq<string>, size: nat, k: nat)
    requires size >= 1 && k * size < |sentences| <= (k + 1) * size
    ensures |Groups(sentences, size)| == k + 1
  {
    if k == 0 {
      assert |sentences| <= size;
    } else {
      assert (k - 1) * size + size == k * size && k * size + size == (k + 1) * size;
      MoreThanOne(k, size);
      GroupCount(sentences[size..], size, k - 1);
    }
  }

  lemma MoreThanOne(k: nat, size: nat)
    requires k >= 1
    ensures k * size >= size
  {
    assert k * size == size + (k - 1) * size;
  }

  /** From three sentences on there are three to five groups: one each up to five sentences, then three or four. */
  lemma ThreeToFiveGroups(sentences: seq<string>)
    requires |sentences| >= 3
    ensures
      var n, count := |sentences|, |Groups(sentences, GroupSize(|sentences|))|;
      && 3 <= count <= 5
      && count == (if n <= 5 then n else if n % 3 == 0 then 3 else 4)
  {
    var n := |sentences|;
    var size := GroupSize(n);
    if n <= 5 {
      GroupCount(sentences, 1, n - 1);
    } else if n % 3 == 0 {
      GroupCount(sentences, size, 2);
    } else {
      GroupCount(sentences, size, 3);
    }
  }

  function Joined(t: Texts, title: string, groups: seq<seq<string>>): seq<Piece> {
    if groups == [] then []
    else
      var text := t.join(groups[0]);
      (if text == "" then [] else [Piece(title, text)]) + Joined(t, title, groups[1..])
  }

  ghost predicate NonEmptyTexts(texts: seq<string>) {
    forall i :: 0 <= i < |texts| ==> texts[i] != ""
  }

  /** Joining some non-empty sentences gives a non-empty text. */
  ghost predicate JoinsNonEmpty(t: Texts) {
    forall g: seq<string> :: g != [] && NonEmptyTexts(g) ==> t.join(g) != ""
  }

  lemma {:induction false} GroupsAreNonEmptyTexts(sentences: seq<string>, size: nat)
    requires size >= 1 && NonEmptyTexts(sentences)
    ensures forall g :: g in Groups(sentences, size) ==> g != [] && NonEmptyTexts(g)
  {
    if |sentences| > size {
      GroupsAreNonEmptyTexts(sentences[size..], size);
    }
  }

  lemma {:induction false} JoinedCount(t: Texts, title: string, groups: seq<seq<string>>)
    requires JoinsNonEmpty(t) && forall g :: g in groups ==> g != [] && NonEmptyTexts(g)
    ensures |Joined(t, title, groups)| == |groups|
    ensures forall i :: 0 <= i < |groups| ==> Joined(t, title, groups)[i] == Piece(title, t.join(groups[i]))
  {
    if groups != [] {
      assert groups[0] in groups && forall g :: g in groups[1..] ==> g in groups;
      JoinedCount(t, title, groups[1..]);
    }
  }

  // ---------- chunk_markdown ----------

  /** The pieces after each tier; a tier only acts when the one before left fewer than three. */
  function AfterTier2(t: Texts, sections: seq<Section>): seq<Piece> {
    var pieces := Tier1(t, sections);
    if |pieces| < 3 then Tier2(t, |pieces|, pieces) else pieces
  }

  function FinalPieces(t: Texts, sections: seq<Section>, document: string, text: string): seq<Piece> {
    var pieces := AfterTier2(t, sections);
    var sentences := t.sentences(text);
    if |pieces| < 3 && |sentences| >= 3
    then Joined(t, if sections != [] then sections[0].title else document, Groups(sentences, GroupSize(|sentences|)))
    else pieces
  }

  function Numbered(document: string, pieces: seq<Piece>): (chunks: seq<Chunk>)
    ensures |chunks| == |pieces|
    ensures forall i :: 0 <= i < |pieces| ==> chunks[i] == Chunk(document, pieces[i].section, i, pieces[i].text)
  {
    if pieces == [] then []
    else
      var n := |pieces| - 1;
      Numbered(document, pieces[..n]) + [Chunk(document, pieces[n].section, n, pieces[n].text)]
  }

  function ChunkMarkdown(t: Texts, sections: seq<Section>, document: string, text: string): Result {
    var pieces := FinalPieces(t, sections, document, text);
    if |pieces| < 3 then TooFew(|pieces|) else Chunks(Numbered(document, pieces))
  }

  method CollectPieces(t: Texts, sections: seq<Section>) returns (pieces: seq<Piece>)
    ensures pieces == Tier1(t, sections)
  {
    pieces := [];
    for i := 0 to |sections|
      invariant pieces == Tier1(t, sections[..i])
    {
      assert sections[..i + 1][..i] == sections[..i];
      pieces := pieces + Titled(sections[i].title, SectionPieces(t, sections[i].body));
    }
    assert sections[..|sections|] == sections;
  }

  method ExpandPieces(t: Texts, pieces: seq<Piece>) returns (expanded: seq<Piece>)
    ensures expanded == Tier2(t, |pieces|, pieces)
  {
    expanded := [];
    for i := 0 to |pieces|
      invariant expanded == Tier2(t, |pieces|, pieces[..i])
    {
      assert pieces[..i + 1][..i] == pieces[..i];
      var p := pieces[i];
      var sentences := t.sentences(p.text);
      if |sentences| > 1 && |pieces| + |sentences| - 1 >= 3 {
        expanded := expanded + Titled(p.section, sentences);
      } else {
        expanded := expanded + [p];
      }
    }
    assert pieces[..|pieces|] == pieces;
  }

  lemma NextGroup(t: Texts, title: string, sentences: seq<string>, size: nat, i: nat, end: nat)
    requires i < |sentences| && size >= 1 && end == (if i + size <= |sentences| then i + size else |sentences|)
    ensures
      var text := t.join(sentences[i..end]);
      Joined(t, title, Groups(sentences[i..], size))
      == (if text == "" then [] else [Piece(title, text)]) + Joined(t, title, Groups(sentences[end..], size))
  {
    var rest := sentences[i..];
    if |rest| <= size {
      assert sentences[i..end] == rest && sentences[end..] == [];
      var one := [rest];
      assert one[1..] == [];
    } else {
      assert rest[..size] == sentences[i..end] && rest[size..] == sentences[end..];
      var later := Groups(rest[size..], size);
      assert ([rest[..size]] + later)[1..] == later;
    }
  }

  /** The stepped loop over the sentences. */
  method GroupSentences(t: Texts, title: string, sentences: seq<string>) returns (pieces: seq<Piece>)
    requires |sentences| >= 3
    ensures pieces == Joined(t, title, Groups(sentences, GroupSize(|sentences|)))
  {
    var n := |sentences|;
    var size := GroupSize(n);
    pieces := [];
    var i := 0;
    ghost var all := Joined(t, title, Groups(sentences, size));
    assert sentences[0..] == sentences;
    while i < n
      invariant 0 <= i <= n
      invariant pieces + Joined(t, title, Groups(sentences[i..], size)) == all
    {
      var end := if i + size <= n then i + size else n;
      var text := t.join(sentences[i..end]);
      NextGroup(t, title, sentences, size, i, end);
      ghost var later := Joined(t, title, Groups(sentences[end..], size));
      if text != "" {
        assert pieces + ([Piece(title, text)] + later) == (pieces + [Piece(title, text)]) + later;
        pieces := pieces + [Piece(title, text)];
      } else {
        assert [] + later == later;
      }
      i := end;
    }
    assert sentences[n..] == [];
  }

  /** chunk_markdown, after the headings have been found. */
  method ChunkDocument(t: Texts, sections: seq<Section>, document: string, text: string) returns (result: Result)
    ensures result == ChunkMarkdown(t, sections, document, text)
  {
    var pieces := CollectPieces(t, sections);
    if |pieces| < 3 {
      pieces := ExpandPieces(t, pieces);
    }
    if |pieces| < 3 {
      var sentences := t.sentences(text);
      if |sentences| >= 3 {
        var title := if sections != [] then sections[0].title else document;
        pieces := GroupSentences(t, title, sentences);
      }
    }
    if |pieces| < 3 {
      return TooFew(|pieces|);
    }
    result := Chunks(Numbered(document, pieces));
  }

  // ---------- what the result is ----------

  /** A result has at least three chunks, numbered from zero without gaps. */
  lemma ChunksAreNumbered(t: Texts, sections: seq<Section>, document: string, text: string)
    ensures
      var result := ChunkMarkdown(t, sections, document, text);
      result.Chunks? ==>
        |result.chunks| >= 3
        && forall i :: 0 <= i < |result.chunks| ==> result.chunks[i].index == i && result.chunks[i].document == document
  {
  }

  /**
   Chunking fails exactly when splitting leaves fewer than three pieces and the document has fewer than three
   sentences.
   */
  lemma ChunkingFailsExactly(t: Texts, sections: seq<Section>, document: string, text: string)
    requires JoinsNonEmpty(t) && NonEmptyTexts(t.sentences(text))
    ensures ChunkMarkdown(t, sections, document, text).TooFew? <==>
              |AfterTier2(t, sections)| < 3 && |t.sentences(text)| < 3
  {
    var sentences := t.sentences(text);
    if |sentences| >= 3 {
      var groups := Groups(sentences, GroupSize(|sentences|));
      ThreeToFiveGroups(sentences);
      GroupsAreNonEmptyTexts(sentences, GroupSize(|sentences|));
      JoinedCount(t, if sections != [] then sections[0].title else document, groups);
    }
  }

  lemma {:induction false} Tier2Count(t: Texts, total: nat, pieces: seq<Piece>)
    ensures |Tier2(t, total, pieces)| >= |pieces|
    ensures (exists p :: p in pieces && Splits(t, total, p)) && |pieces| >= 1 ==>
              exists p :: && p in pieces && Splits(t, total, p)
                          && |Tier2(t, total, pieces)| >= |pieces| + |t.sentences(p.text)| - 1
  {
    if pieces != [] {
      var rest, last := pieces[..|pieces| - 1], pieces[|pieces| - 1];
      Tier2Count(t, total, rest);
      assert pieces == rest + [last];
      if Splits(t, total, last) {
        assert |Tier2(t, total, pieces)| >= |pieces| + |t.sentences(last.text)| - 1;
      } else if exists p :: p in rest && Splits(t, total, p) {
        var p :| p in rest && Splits(t, total, p) && |Tier2(t, total, rest)| >= |rest| + |t.sentences(p.text)| - 1;
        assert p in pieces;
      }
    }
  }

  /** The second tier suffices exactly when one of the pieces is worth splitting: it never splits in vain. */
  lemma SecondTierSufficesExactly(t: Texts, pieces: seq<Piece>)
    requires |pieces| < 3
    ensures |Tier2(t, |pieces|, pieces)| >= 3 <==> exists p :: p in pieces && Splits(t, |pieces|, p)
  {
    Tier2Count(t, |pieces|, pieces);
    if !(exists p :: p in pieces && Splits(t, |pieces|, p)) {
      NothingSplit(t, |pieces|, pieces);
    }
  }

  lemma {:induction false} NothingSplit(t: Texts, total: nat, pieces: seq<Piece>)
    requires forall p :: p in pieces ==> !Splits(t, total, p)
    ensures Tier2(t, total, pieces) == pieces
  {
    if pieces != [] {
      var rest, last := pieces[..|pieces| - 1], pieces[|pieces| - 1];
      assert pieces == rest + [last];
      NothingSplit(t, total, rest);
      assert Tier2(t, total, pieces) == rest + [last];
    }
  }

  // ---------- which texts the chunks carry ----------

  /** The texts of one section: its paragraphs, or its whole body when it has none but is not empty. */
  ghost predicate TextsOf(t: Texts, s: Section, pieces: seq<Piece>) {
    if s.body == "" then pieces == []
    else if t.paragraphs(s.body) == [] then pieces == [Piece(s.title, s.body)]
    else
      && |pieces| == |t.paragraphs(s.body)|
      && forall i :: 0 <= i < |pieces| ==> pieces[i] == Piece(s.title, t.paragraphs(s.body)[i])
  }

  /** The pieces of a document are those of its sections, one section after the other. */
  lemma SectionsInTurn(t: Texts, before: seq<Section>, s: Section) returns (pieces: seq<Piece>)
    ensures Tier1(t, []) == [] && TextsOf(t, s, pieces)
    ensures Tier1(t, before + [s]) == Tier1(t, before) + pieces
  {
    pieces := Titled(s.title, SectionPieces(t, s.body));
    assert (before + [s])[..|before|] == before;
  }

  /** One piece in the second tier: its sentences when there are several and they make up for what is missing. */
  ghost predicate SentencesOf(t: Texts, total: nat, p: Piece, pieces: seq<Piece>) {
    var sentences := t.sentences(p.text);
    if |sentences| >= 2 && total + |sentences| >= 4 then
      |pieces| == |sentences| && forall i :: 0 <= i < |pieces| ==> pieces[i] == Piece(p.section, sentences[i])
    else pieces == [p]
  }

  lemma PiecesInTurn(t: Texts, total: nat, before: seq<Piece>, p: Piece) returns (pieces: seq<Piece>)
    ensures Tier2(t, total, []) == [] && SentencesOf(t, total, p, pieces)
    ensures Tier2(t, total, before + [p]) == Tier2(t, total, before) + pieces
  {
    pieces := if Splits(t, total, p) then Titled(p.section, t.sentences(p.text)) else [p];
    assert (before + [p])[..|before|] == before;
  }

  /** The sentences from `from` on, as many as there are up to `size`. */
  function Slice(sentences: seq<string>, from: nat, size: nat): seq<string>
    requires from <= |sentences|
  {
    if from + size <= |sentences| then sentences[from..from + size] else sentences[from..]
  }

  lemma {:induction false} GroupAt(sentences: seq<string>, size: nat, i: nat, from: nat)
    requires size >= 1 && i < |Groups(sentences, size)| && from == i * size
    ensures from <= |sentences| && Groups(sentences, size)[i] == Slice(sentences, from, size)
    decreases i
  {
    if i > 0 {
      assert from == (i - 1) * size + size;
      GroupAt(sentences[size..], size, i - 1, from - size);
      SliceAfter(sentences, size, from);
    }
  }

  lemma SliceAfter(sentences: seq<string>, size: nat, from: nat)
    requires 1 <= size <= from <= |sentences|
    ensures Slice(sentences[size..], from - size, size) == Slice(sentences, from, size)
  {
  }

  /** The chunks carry these pieces in order, or are refused with their number when there are fewer than three. */
  predicate Carries(result: Result, document: string, pieces: seq<Piece>) {
    if |pieces| < 3 then result == TooFew(|pieces|)
    else
      && result.Chunks? && |result.chunks| == |pieces|
      && forall i :: 0 <= i < |pieces| ==>
           result.chunks[i] == Chunk(document, pieces[i].section, i, pieces[i].text)
  }

  /** Each piece is a third of the sentences, rounded down and at least one, in turn, under the first title. */
  ghost predicate InThirds(t: Texts, sentences: seq<string>, title: string, pieces: seq<Piece>) {
    var size := if |sentences| >= 6 then |sentences| / 3 else 1;
    forall i :: 0 <= i < |pieces| ==>
      i * size <= |sentences| && pieces[i] == Piece(title, t.join(Slice(sentences, i * size, size)))
  }

  lemma GroupsAreThirds(t: Texts, sentences: seq<string>, title: string)
    requires JoinsNonEmpty(t) && NonEmptyTexts(sentences) && |sentences| >= 3
    ensures InThirds(t, sentences, title, Joined(t, title, Groups(sentences, GroupSize(|sentences|))))
  {
    var size := GroupSize(|sentences|);
    var groups := Groups(sentences, size);
    GroupsAreNonEmptyTexts(sentences, size);
    JoinedCount(t, title, groups);
    forall i | 0 <= i < |groups|
      ensures i * size <= |sentences| && groups[i] == Slice(sentences, i * size, size)
    {
      GroupAt(sentences, size, i, i * size);
    }
  }

  /**
   A tier acts only when the one before left fewer than three pieces: first the paragraphs of the sections,
   then the sentences of these pieces, and at last thirds of all sentences, if there are three.
   */
  lemma TiersInTurn(t: Texts, sections: seq<Section>, document: string, text: string)
    requires JoinsNonEmpty(t) && NonEmptyTexts(t.sentences(text))
    ensures
      var result := ChunkMarkdown(t, sections, document, text);
      var first := Tier1(t, sections);
      var second := Tier2(t, |first|, first);
      if |first| >= 3 then Carries(result, document, first)
      else if |second| >= 3 || |t.sentences(text)| < 3 then Carries(result, document, second)
      else exists pieces ::
             && |pieces| >= 3 && Carries(result, document, pieces)
             && InThirds(t, t.sentences(text), if sections != [] then sections[0].title else document, pieces)
  {
    var sentences := t.sentences(text);
    if |sentences| >= 3 {
      var title := if sections != [] then sections[0].title else document;
      ChunkingFailsExactly(t, sections, document, text);
      GroupsAreThirds(t, sentences, title);
    }
  }
}
