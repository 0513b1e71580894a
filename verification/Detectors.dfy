/** The two detectors of crowded citations, and decluttering against them. Both read the memo up to its
    first list of sources, cut it anew, and count: sentences that name three sources or more, paragraphs
    that mention one source three times or more. */
module Detectors {
  import opened TextUtil
  import opened Declutter
  import opened DeclutterTheorems

  /** A stretch of the memo. `ends`: the cut falls right behind it. `prose`: it is part of a paragraph, not
      a heading. */
  datatype Piece = Piece(tokens: Sentence, ends: bool, prose: bool)

  /** What the cuts leave, `open` being the part already read. */
  function Units(pieces: seq<Piece>, open: Sentence): seq<Sentence>
    decreases |pieces|
  {
    if pieces == [] then [open]
    else if pieces[0].ends then [open + pieces[0].tokens] + Units(pieces[1..], [])
    else Units(pieces[1..], open + pieces[0].tokens)
  }

  function BeforeLists(sections: seq<Section>): seq<Section> {
    if sections == [] || Protected(sections[0].title) then [] else [sections[0]] + BeforeLists(sections[1..])
  }

  /* ------------------------------------------------------------------ sentences */

  /** Inside a paragraph every sentence but the last ends in punctuation. */
  function SentencePieces(sentences: seq<Sentence>, closed: bool): seq<Piece> {
    if sentences == [] then []
    else [Piece(sentences[0], closed || |sentences| > 1, true)] + SentencePieces(sentences[1..], closed)
  }

  function BlockSentences(blocks: seq<Block>): seq<Piece> {
    if blocks == [] then []
    else SentencePieces(blocks[0].sentences, blocks[0].closed) + BlockSentences(blocks[1..])
  }

  function SectionSentences(sections: seq<Section>): seq<Piece> {
    if sections == [] then []
    else [Piece(sections[0].head, sections[0].closed, false)] + BlockSentences(sections[0].blocks)
         + SectionSentences(sections[1..])
  }

  function SentenceStream(m: Memo): seq<Piece> {
    BlockSentences(m.preamble) + SectionSentences(BeforeLists(m.sections))
  }

  function MemoSentences(m: Memo): seq<Sentence> {
    Units(SentenceStream(m), [])
  }

  function Stacked(units: seq<Sentence>): nat {
    if units == [] then 0 else (if Sources(Listed(units[0])) >= 3 then 1 else 0) + Stacked(units[1..])
  }

  function Stacking(m: Memo): nat {
    Stacked(MemoSentences(m))
  }

  /* ------------------------------------------------------------------ paragraphs */

  function Whole(sentences: seq<Sentence>): Sentence {
    if sentences == [] then [] else sentences[0] + Whole(sentences[1..])
  }

  function BlockParagraphs(blocks: seq<Block>): seq<Piece> {
    if blocks == [] then []
    else [Piece(Whole(blocks[0].sentences), blocks[0].gap, blocks[0].sentences != [])] + BlockParagraphs(blocks[1..])
  }

  function SectionParagraphs(sections: seq<Section>): seq<Piece> {
    if sections == [] then []
    else [Piece(sections[0].head, sections[0].gap, false)] + BlockParagraphs(sections[0].blocks)
         + SectionParagraphs(sections[1..])
  }

  function ParagraphStream(m: Memo): seq<Piece> {
    BlockParagraphs(m.preamble) + SectionParagraphs(BeforeLists(m.sections))
  }

  function MemoParagraphs(m: Memo): seq<Sentence> {
    Units(ParagraphStream(m), [])
  }

  predicate Dominated(cites: seq<Cite>) {
    exists i :: 0 <= i < |cites| && Numbers(cites)[cites[i].n] >= 3
  }

  /** `brief`: the paragraph has fewer than 50 characters. */
  function Saturated(units: seq<Sentence>, brief: Sentence -> bool): nat {
    if units == [] then 0
    else (if !brief(units[0]) && Dominated(Listed(units[0])) then 1 else 0) + Saturated(units[1..], brief)
  }

  function Saturation(m: Memo, brief: Sentence -> bool): nat {
    Saturated(MemoParagraphs(m), brief)
  }

  /* ------------------------------------------------------------------ the loops of the program */

  method DetectStacking(m: Memo) returns (count: nat)
    ensures count == Stacking(m)
  {
    var sentences := MemoSentences(m);
    count := 0;
    for i := 0 to |sentences|
      invariant count + Stacked(sentences[i..]) == Stacked(sentences)
    {
      assert sentences[i..][1..] == sentences[i + 1..];
      var cites, cited: seq<nat> := Listed(sentences[i]), [];
      for j := 0 to |cites|
        invariant Distinct(cites[j..], cited) == Distinct(cites, [])
      {
        assert cites[j..][1..] == cites[j + 1..];
        if cites[j].n !in cited {
          cited := cited + [cites[j].n];
        }
      }
      if |cited| >= 3 {
        count := count + 1;
      }
    }
  }

  method CountSources(cites: seq<Cite>) returns (counts: multiset<nat>)
    ensures counts == Numbers(cites)
  {
    counts := multiset{};
    for i := 0 to |cites|
      invariant counts + Numbers(cites[i..]) == Numbers(cites)
    {
      assert cites[i..][1..] == cites[i + 1..];
      counts := counts + multiset{cites[i].n};
    }
  }

  method FindDominated(cites: seq<Cite>) returns (found: bool)
    ensures found == Dominated(cites)
  {
    var counts := CountSources(cites);
    found := false;
    for j := 0 to |cites|
      invariant !found && forall k :: 0 <= k < j ==> Numbers(cites)[cites[k].n] < 3
    {
      if counts[cites[j].n] >= 3 {
        return true;
      }
    }
  }

  method DetectSaturation(m: Memo, brief: Sentence -> bool) returns (count: nat)
    ensures count == Saturation(m, brief)
  {
    var paragraphs := MemoParagraphs(m);
    count := 0;
    for i := 0 to |paragraphs|
      invariant count + Saturated(paragraphs[i..], brief) == Saturated(paragraphs, brief)
    {
      assert paragraphs[i..][1..] == paragraphs[i + 1..];
      if brief(paragraphs[i]) {
        continue;
      }
      var found := FindDominated(Listed(paragraphs[i]));
      if found {
        count := count + 1;
      }
    }
  }

  /* ------------------------------------------------------------------ what is read */

  /** Alone, the sentences of a paragraph are read as they are, closed or not. */
  lemma {:induction false} SentencesReadBack(sentences: seq<Sentence>, closed: bool)
    requires sentences != []
    ensures Units(SentencePieces(sentences, closed), []) == sentences + if closed then [[]] else []
  {
    var pieces := SentencePieces(sentences, closed);
    assert pieces[1..] == SentencePieces(sentences[1..], closed);
    assert [] + sentences[0] == sentences[0];
    if |sentences| == 1 {
      assert sentences[1..] == [] && sentences == [sentences[0]];
    } else {
      SentencesReadBack(sentences[1..], closed);
      assert sentences == [sentences[0]] + sentences[1..];
    }
  }

  function Long(units: seq<Sentence>, brief: Sentence -> bool): nat {
    if units == [] then 0 else (if brief(units[0]) then 0 else 1) + Long(units[1..], brief)
  }

  /** Brief paragraphs are never counted, however often they mention a source. */
  lemma {:induction false} BriefNeverCounts(m: Memo, brief: Sentence -> bool)
    ensures Saturation(m, brief) <= Long(MemoParagraphs(m), brief)
  {
    SaturatedAreLong(MemoParagraphs(m), brief);
  }

  lemma {:induction false} SaturatedAreLong(units: seq<Sentence>, brief: Sentence -> bool)
    ensures Saturated(units, brief) <= Long(units, brief)
  {
    if units == [] {
    } else {
      SaturatedAreLong(units[1..], brief);
    }
  }

  /* ------------------------------------------------------------------ sealed streams */

  /** No cut leaves two pieces of prose in one unit. `busy`: the unit already holds one. */
  predicate Sealed(pieces: seq<Piece>, busy: bool) {
    pieces == [] ||
    (!(busy && pieces[0].prose) && Sealed(pieces[1..], !pieces[0].ends && (busy || pieces[0].prose)))
  }

  /** No two sentences are read as one. */
  predicate SealedSentences(m: Memo) {
    Sealed(SentenceStream(m), false)
  }

  /** No two paragraphs are read as one. */
  predicate SealedParagraphs(m: Memo) {
    Sealed(ParagraphStream(m), false)
  }

  /** Every piece is low, and what is not prose carries no marker. */
  ghost predicate Mild(pieces: seq<Piece>, low: seq<Cite> -> bool) {
    pieces == [] ||
    (low(Listed(pieces[0].tokens)) && (pieces[0].prose || Listed(pieces[0].tokens) == []) && Mild(pieces[1..], low))
  }

  ghost predicate AllLow(units: seq<Sentence>, low: seq<Cite> -> bool) {
    units == [] || (low(Listed(units[0])) && AllLow(units[1..], low))
  }

  lemma {:induction false} AllLowHead(unit: Sentence, rest: seq<Sentence>, low: seq<Cite> -> bool)
    ensures AllLow([unit] + rest, low) <==> low(Listed(unit)) && AllLow(rest, low)
  {
    assert ([unit] + rest)[1..] == rest;
  }

  /** Where the stream is sealed, what is low piece by piece is low unit by unit. */
  lemma {:induction false} SealedLow(pieces: seq<Piece>, open: Sentence, busy: bool, low: seq<Cite> -> bool)
    requires Mild(pieces, low) && Sealed(pieces, busy) && low([])
    requires low(Listed(open)) && (busy || Listed(open) == [])
    ensures AllLow(Units(pieces, open), low)
    decreases |pieces|
  {
    if pieces == [] {
      AllLowHead(open, [], low);
      assert [open] + [] == [open];
    } else {
      var joined := open + pieces[0].tokens;
      ListedConcat(open, pieces[0].tokens);
      assert Listed(joined) == if pieces[0].prose then Listed(pieces[0].tokens) else Listed(open);
      if pieces[0].ends {
        SealedLow(pieces[1..], [], false, low);
        AllLowHead(joined, Units(pieces[1..], []), low);
      } else {
        SealedLow(pieces[1..], joined, busy || pieces[0].prose, low);
      }
    }
  }

  lemma {:induction false} MildConcat(a: seq<Piece>, b: seq<Piece>, low: seq<Cite> -> bool)
    requires Mild(a, low) && Mild(b, low)
    ensures Mild(a + b, low)
  {
    if a == [] {
      assert a + b == b;
    } else {
      assert (a + b)[1..] == a[1..] + b;
      MildConcat(a[1..], b, low);
    }
  }

  lemma {:induction false} MildHead(p: Piece, rest: seq<Piece>, low: seq<Cite> -> bool)
    requires low(Listed(p.tokens)) && (p.prose || Listed(p.tokens) == []) && Mild(rest, low)
    ensures Mild([p] + rest, low)
  {
    assert ([p] + rest)[1..] == rest;
  }

  /* ------------------------------------------------------------------ what decluttering leaves is mild */

  /** Headings before the lists carry no marker. */
  predicate PlainHeads(sections: seq<Section>) {
    sections == [] || (Listed(sections[0].head) == [] && PlainHeads(sections[1..]))
  }

  ghost function FewSourcesTest(): seq<Cite> -> bool {
    cites => Sources(cites) <= 2
  }

  ghost function FewMentionsTest(): seq<Cite> -> bool {
    cites => !Dominated(cites)
  }

  lemma {:induction false} UnstackedPieces(sentences: seq<Sentence>, closed: bool, d: nat)
    requires Unstacked(sentences, d) && d <= 2
    ensures Mild(SentencePieces(sentences, closed), FewSourcesTest())
  {
    if sentences == [] {
    } else {
      UnstackedPieces(sentences[1..], closed, d);
      MildHead(SentencePieces(sentences, closed)[0], SentencePieces(sentences[1..], closed), FewSourcesTest());
    }
  }

  lemma {:induction false} WholeMentions(sentences: seq<Sentence>)
    ensures Mentions(Whole(sentences)) == AllMentions(sentences)
  {
    if sentences == [] {
    } else {
      WholeMentions(sentences[1..]);
      MentionsConcat(sentences[0], Whole(sentences[1..]));
    }
  }

  lemma {:induction false} CompliantPieces(blocks: seq<Block>, d: nat, p: nat)
    requires CompliantBlocks(blocks, d, p) && d <= 2 && p <= 2
    ensures Mild(BlockSentences(blocks), FewSourcesTest())
    ensures Mild(BlockParagraphs(blocks), FewMentionsTest())
  {
    if blocks == [] {
    } else {
      var b := blocks[0];
      CompliantPieces(blocks[1..], d, p);
      UnstackedPieces(b.sentences, b.closed, d);
      MildConcat(SentencePieces(b.sentences, b.closed), BlockSentences(blocks[1..]), FewSourcesTest());
      WholeMentions(b.sentences);
      MentionsListed(Whole(b.sentences));
      MildHead(Piece(Whole(b.sentences), b.gap, b.sentences != []), BlockParagraphs(blocks[1..]), FewMentionsTest());
    }
  }

  lemma {:induction false} CompliantSectionPieces(sections: seq<Section>, d: nat, p: nat)
    requires CompliantSections(sections, d, p) && PlainHeads(BeforeLists(sections)) && d <= 2 && p <= 2
    ensures Mild(SectionSentences(BeforeLists(sections)), FewSourcesTest())
    ensures Mild(SectionParagraphs(BeforeLists(sections)), FewMentionsTest())
  {
    if sections == [] || Protected(sections[0].title) {
    } else {
      var s, rest := sections[0], BeforeLists(sections[1..]);
      assert BeforeLists(sections)[1..] == rest;
      CompliantSectionPieces(sections[1..], d, p);
      CompliantPieces(s.blocks, d, p);
      var head, opening := Piece(s.head, s.closed, false), Piece(s.head, s.gap, false);
      MildHead(head, BlockSentences(s.blocks), FewSourcesTest());
      MildConcat([head] + BlockSentences(s.blocks), SectionSentences(rest), FewSourcesTest());
      MildHead(opening, BlockParagraphs(s.blocks), FewMentionsTest());
      MildConcat([opening] + BlockParagraphs(s.blocks), SectionParagraphs(rest), FewMentionsTest());
    }
  }

  lemma {:induction false} LowNotStacked(units: seq<Sentence>)
    requires AllLow(units, FewSourcesTest())
    ensures Stacked(units) == 0
  {
    if units == [] {
    } else {
      LowNotStacked(units[1..]);
    }
  }

  lemma {:induction false} LowNotSaturated(units: seq<Sentence>, brief: Sentence -> bool)
    requires AllLow(units, FewMentionsTest())
    ensures Saturated(units, brief) == 0
  {
    if units == [] {
    } else {
      LowNotSaturated(units[1..], brief);
    }
  }

  lemma {:induction false} CompliantSilent(m: Memo, d: nat, p: nat, brief: Sentence -> bool)
    requires CompliantMemo(m, d, p) && PlainHeads(BeforeLists(m.sections)) && d <= 2 && p <= 2
    ensures SealedSentences(m) ==> Stacking(m) == 0
    ensures SealedParagraphs(m) ==> Saturation(m, brief) == 0
  {
    var before := BeforeLists(m.sections);
    CompliantPieces(m.preamble, d, p);
    CompliantSectionPieces(m.sections, d, p);
    MildConcat(BlockSentences(m.preamble), SectionSentences(before), FewSourcesTest());
    MildConcat(BlockParagraphs(m.preamble), SectionParagraphs(before), FewMentionsTest());
    if SealedSentences(m) {
      SealedLow(SentenceStream(m), [], false, FewSourcesTest());
      LowNotStacked(MemoSentences(m));
    }
    if SealedParagraphs(m) {
      SealedLow(ParagraphStream(m), [], false, FewMentionsTest());
      LowNotSaturated(MemoParagraphs(m), brief);
    }
  }
}
