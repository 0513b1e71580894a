/** Exactly which memos decluttering silences: it depends on how the text is cut, not on its markers. */
module DetectorShapes {
  import opened TextUtil
  import opened Declutter
  import opened DeclutterTheorems
  import opened Detectors

  /* ------------------------------------------------------------------ memos of one shape */

  predicate AlikeBlocks(a: seq<Block>, b: seq<Block>) {
    && |a| == |b|
    && (a == [] ||
        (a[0].closed == b[0].closed && a[0].gap == b[0].gap && |a[0].sentences| == |b[0].sentences|
         && AlikeBlocks(a[1..], b[1..])))
  }

  predicate AlikeSections(a: seq<Section>, b: seq<Section>) {
    && |a| == |b|
    && (a == [] ||
        (a[0].title == b[0].title && a[0].head == b[0].head && a[0].closed == b[0].closed && a[0].gap == b[0].gap
         && AlikeBlocks(a[0].blocks, b[0].blocks) && AlikeSections(a[1..], b[1..])))
  }

  /** The same headings, and as many sentences in paragraphs that end alike. */
  predicate Alike(a: Memo, b: Memo) {
    AlikeBlocks(a.preamble, b.preamble) && AlikeSections(a.sections, b.sections)
  }

  /** The same cuts and the same kinds of pieces. */
  predicate SameCuts(a: seq<Piece>, b: seq<Piece>) {
    && |a| == |b|
    && (a == [] || (a[0].ends == b[0].ends && a[0].prose == b[0].prose && SameCuts(a[1..], b[1..])))
  }

  lemma {:induction false} SameCutsConcat(a: seq<Piece>, b: seq<Piece>, c: seq<Piece>, d: seq<Piece>)
    requires SameCuts(a, b) && SameCuts(c, d)
    ensures SameCuts(a + c, b + d)
  {
    if a == [] {
      assert a + c == c && b + d == d;
    } else {
      assert (a + c)[1..] == a[1..] + c && (b + d)[1..] == b[1..] + d;
      SameCutsConcat(a[1..], b[1..], c, d);
    }
  }

  lemma {:induction false} SameCutsHead(p: Piece, q: Piece, a: seq<Piece>, b: seq<Piece>)
    requires p.ends == q.ends && p.prose == q.prose && SameCuts(a, b)
    ensures SameCuts([p] + a, [q] + b)
  {
    assert ([p] + a)[1..] == a && ([q] + b)[1..] == b;
  }

  lemma {:induction false} SameCutsSealed(a: seq<Piece>, b: seq<Piece>, busy: bool)
    requires SameCuts(a, b)
    ensures Sealed(a, busy) <==> Sealed(b, busy)
  {
    if a == [] {
    } else {
      SameCutsSealed(a[1..], b[1..], !a[0].ends && (busy || a[0].prose));
    }
  }

  lemma {:induction false} AlikeSentenceCuts(a: seq<Sentence>, b: seq<Sentence>, closed: bool)
    requires |a| == |b|
    ensures SameCuts(SentencePieces(a, closed), SentencePieces(b, closed))
  {
    if a == [] {
    } else {
      AlikeSentenceCuts(a[1..], b[1..], closed);
      SameCutsHead(SentencePieces(a, closed)[0], SentencePieces(b, closed)[0],
                   SentencePieces(a[1..], closed), SentencePieces(b[1..], closed));
    }
  }

  lemma {:induction false} AlikeBlockCuts(a: seq<Block>, b: seq<Block>)
    requires AlikeBlocks(a, b)
    ensures SameCuts(BlockSentences(a), BlockSentences(b)) && SameCuts(BlockParagraphs(a), BlockParagraphs(b))
  {
    if a == [] {
    } else {
      AlikeBlockCuts(a[1..], b[1..]);
      AlikeSentenceCuts(a[0].sentences, b[0].sentences, a[0].closed);
      SameCutsConcat(SentencePieces(a[0].sentences, a[0].closed), SentencePieces(b[0].sentences, b[0].closed),
                     BlockSentences(a[1..]), BlockSentences(b[1..]));
      SameCutsHead(BlockParagraphs(a)[0], BlockParagraphs(b)[0], BlockParagraphs(a[1..]), BlockParagraphs(b[1..]));
    }
  }

  lemma {:induction false} AlikeBefore(a: seq<Section>, b: seq<Section>)
    requires AlikeSections(a, b)
    ensures AlikeSections(BeforeLists(a), BeforeLists(b))
    ensures PlainHeads(BeforeLists(a)) <==> PlainHeads(BeforeLists(b))
  {
    if a == [] || Protected(a[0].title) {
    } else {
      AlikeBefore(a[1..], b[1..]);
      assert BeforeLists(a)[1..] == BeforeLists(a[1..]) && BeforeLists(b)[1..] == BeforeLists(b[1..]);
    }
  }

  lemma {:induction false} AlikeSectionCuts(a: seq<Section>, b: seq<Section>)
    requires AlikeSections(a, b)
    ensures SameCuts(SectionSentences(a), SectionSentences(b)) && SameCuts(SectionParagraphs(a), SectionParagraphs(b))
  {
    if a == [] {
    } else {
      AlikeSectionCuts(a[1..], b[1..]);
      AlikeBlockCuts(a[0].blocks, b[0].blocks);
      var p, q := Piece(a[0].head, a[0].closed, false), Piece(b[0].head, b[0].closed, false);
      SameCutsHead(p, q, BlockSentences(a[0].blocks), BlockSentences(b[0].blocks));
      SameCutsConcat([p] + BlockSentences(a[0].blocks), [q] + BlockSentences(b[0].blocks),
                     SectionSentences(a[1..]), SectionSentences(b[1..]));
      var r, s := Piece(a[0].head, a[0].gap, false), Piece(b[0].head, b[0].gap, false);
      SameCutsHead(r, s, BlockParagraphs(a[0].blocks), BlockParagraphs(b[0].blocks));
      SameCutsConcat([r] + BlockParagraphs(a[0].blocks), [s] + BlockParagraphs(b[0].blocks),
                     SectionParagraphs(a[1..]), SectionParagraphs(b[1..]));
    }
  }

  /** Whether sentences or paragraphs are read as one is a matter of shape. */
  lemma {:induction false} AlikeSealed(a: Memo, b: Memo)
    requires Alike(a, b)
    ensures SealedSentences(a) <==> SealedSentences(b)
    ensures SealedParagraphs(a) <==> SealedParagraphs(b)
    ensures PlainHeads(BeforeLists(a.sections)) <==> PlainHeads(BeforeLists(b.sections))
  {
    var before, before' := BeforeLists(a.sections), BeforeLists(b.sections);
    AlikeBlockCuts(a.preamble, b.preamble);
    AlikeBefore(a.sections, b.sections);
    AlikeSectionCuts(before, before');
    SameCutsConcat(BlockSentences(a.preamble), BlockSentences(b.preamble),
                   SectionSentences(before), SectionSentences(before'));
    SameCutsConcat(BlockParagraphs(a.preamble), BlockParagraphs(b.preamble),
                   SectionParagraphs(before), SectionParagraphs(before'));
    SameCutsSealed(SentenceStream(a), SentenceStream(b), false);
    SameCutsSealed(ParagraphStream(a), ParagraphStream(b), false);
  }

  lemma {:induction false} SameBlocksAlike(a: seq<Block>, b: seq<Block>)
    requires SameBlocks(a, b)
    ensures AlikeBlocks(a, b)
  {
    if a == [] {
    } else {
      SameBlocksAlike(a[1..], b[1..]);
    }
  }

  lemma {:induction false} AlikeSelf(a: seq<Block>)
    ensures AlikeBlocks(a, a)
  {
    if a == [] {
    } else {
      AlikeSelf(a[1..]);
    }
  }

  lemma {:induction false} SameSectionsAlike(a: seq<Section>, b: seq<Section>)
    requires SameSections(a, b)
    ensures AlikeSections(a, b)
  {
    if a == [] {
    } else {
      SameSectionsAlike(a[1..], b[1..]);
      if Protected(a[0].title) {
        AlikeSelf(a[0].blocks);
      } else {
        SameBlocksAlike(a[0].blocks, b[0].blocks);
      }
    }
  }

  /** Decluttering keeps the shape. */
  lemma {:induction false} DeclutterKeepsShape(m: Memo, d: nat, p: nat)
    ensures Alike(m, DeclutterCitations(m, d, p).out)
  {
    DeclutterFrame(m, d, p);
    var out := DeclutterCitations(m, d, p).out;
    SameBlocksAlike(m.preamble, out.preamble);
    SameSectionsAlike(m.sections, out.sections);
  }

  /* ------------------------------------------------------------------ sealed memos fall silent */

  lemma {:induction false} SealedSilent(m: Memo, d: nat, p: nat, brief: Sentence -> bool)
    requires SolidMemo(m) && PlainHeads(BeforeLists(m.sections)) && d <= 2 && p <= 2
    ensures var out := DeclutterCitations(m, d, p).out;
            && (SealedSentences(m) ==> Stacking(out) == 0) && (SealedParagraphs(m) ==> Saturation(out, brief) == 0)
  {
    DeclutterFixpointIff(m, d, p);
    DeclutterKeepsShape(m, d, p);
    AlikeSealed(m, DeclutterCitations(m, d, p).out);
    CompliantSilent(DeclutterCitations(m, d, p).out, d, p, brief);
  }

  /* ------------------------------------------------------------------ a crowded memo of any shape */

  /** Two mentions of source 0 and one of source `n`, or one mention of `n` and of `n + 1`. */
  function Crowd(first: bool, n: nat): seq<Cite> {
    if first then [Cite(0, ""), Cite(0, ""), Cite(n, "")] else [Cite(n, ""), Cite(n + 1, "")]
  }

  /** Every sentence with one marker; the first one of a paragraph mentions source 0 twice. */
  function FillSentences(count: nat, first: bool, n: nat): seq<Sentence> {
    if count == 0 then [] else [[Marker(Crowd(first, n))]] + FillSentences(count - 1, false, n + 2)
  }

  function FillBlocks(blocks: seq<Block>, n: nat): seq<Block> {
    if blocks == [] then []
    else
      var count := |blocks[0].sentences|;
      [blocks[0].(sentences := FillSentences(count, true, n))] + FillBlocks(blocks[1..], n + 2 * count)
  }

  function BlocksSize(blocks: seq<Block>): nat {
    if blocks == [] then 0 else 2 * |blocks[0].sentences| + BlocksSize(blocks[1..])
  }

  function FillSections(sections: seq<Section>, n: nat): seq<Section> {
    if sections == [] then []
    else
      [sections[0].(blocks := FillBlocks(sections[0].blocks, n))]
      + FillSections(sections[1..], n + BlocksSize(sections[0].blocks))
  }

  /** The memo with the markers of every sentence replaced: all sources but 0 are different. */
  function Fill(m: Memo): Memo {
    Memo(FillBlocks(m.preamble, 1), FillSections(m.sections, 1 + BlocksSize(m.preamble)))
  }

  lemma {:induction false} FillSentencesSize(count: nat, first: bool, n: nat)
    ensures |FillSentences(count, first, n)| == count
  {
    if count == 0 {
    } else {
      FillSentencesSize(count - 1, false, n + 2);
    }
  }

  lemma {:induction false} FillBlocksAlike(blocks: seq<Block>, n: nat)
    ensures AlikeBlocks(blocks, FillBlocks(blocks, n))
  {
    if blocks == [] {
    } else {
      var count := |blocks[0].sentences|;
      FillSentencesSize(count, true, n);
      FillBlocksAlike(blocks[1..], n + 2 * count);
      assert FillBlocks(blocks, n)[1..] == FillBlocks(blocks[1..], n + 2 * count);
    }
  }

  lemma {:induction false} FillSectionsAlike(sections: seq<Section>, n: nat)
    ensures AlikeSections(sections, FillSections(sections, n))
  {
    if sections == [] {
    } else {
      var next := n + BlocksSize(sections[0].blocks);
      FillBlocksAlike(sections[0].blocks, n);
      FillSectionsAlike(sections[1..], next);
      assert FillSections(sections, n)[1..] == FillSections(sections[1..], next);
    }
  }

  lemma {:induction false} CiteCounts(a: Cite, rest: seq<Cite>, known: seq<nat>)
    ensures Distinct([a] + rest, known) == Distinct(rest, if a.n in known then known else known + [a.n])
    ensures Numbers([a] + rest) == multiset{a.n} + Numbers(rest)
  {
    assert ([a] + rest)[1..] == rest;
  }

  lemma {:induction false} FirstCrowd(n: nat)
    requires n >= 1
    ensures Numbers(Crowd(true, n)) == multiset{0, 0, n} && Sources(Crowd(true, n)) == 2
  {
    var z, a := Cite(0, ""), Cite(n, "");
    assert Crowd(true, n) == [z] + ([z] + ([a] + []));
    CiteCounts(z, [z] + ([a] + []), []);
    CiteCounts(z, [a] + [], [] + [0]);
    CiteCounts(a, [], [] + [0]);
  }

  lemma {:induction false} NextCrowd(n: nat)
    ensures Numbers(Crowd(false, n)) == multiset{n, n + 1} && Sources(Crowd(false, n)) == 2
  {
    var a, b := Cite(n, ""), Cite(n + 1, "");
    assert Crowd(false, n) == [a] + ([b] + []);
    CiteCounts(a, [b] + [], []);
    CiteCounts(b, [], [] + [n]);
  }

  /** What one marker of the filling mentions. */
  lemma {:induction false} CrowdCounts(first: bool, n: nat)
    requires n >= 1
    ensures Numbers(Crowd(first, n)) == if first then multiset{0, 0, n} else multiset{n, n + 1}
    ensures Sources(Crowd(first, n)) == 2
  {
    if first {
      FirstCrowd(n);
    } else {
      NextCrowd(n);
    }
  }

  lemma {:induction false} OneMarker(cites: seq<Cite>)
    ensures Listed([Marker(cites)]) == cites && Mentions([Marker(cites)]) == Numbers(cites)
    ensures Solid([Marker(cites)]) <==> cites != []
  {
    OneToken(Marker(cites));
    assert [Marker(cites)][1..] == [];
  }

  lemma {:induction false} FillSentencesHead(count: nat, first: bool, n: nat)
    requires count > 0
    ensures var sentences := FillSentences(count, first, n);
            sentences != [] && sentences[0] == [Marker(Crowd(first, n))]
            && sentences[1..] == FillSentences(count - 1, false, n + 2)
  {
  }

  lemma {:induction false} FillUnstacked(count: nat, first: bool, n: nat)
    requires n >= 1
    ensures Unstacked(FillSentences(count, first, n), 2) && SolidSentences(FillSentences(count, first, n))
  {
    if count == 0 {
    } else {
      FillUnstacked(count - 1, false, n + 2);
      FillSentencesHead(count, first, n);
      OneMarker(Crowd(first, n));
      CrowdCounts(first, n);
    }
  }

  /** How often the filling of a paragraph from number `n` on may mention source `x`. */
  function FillLimit(first: bool, n: nat, x: nat): nat {
    if x == 0 then (if first then 2 else 0) else if x < n then 0 else 1
  }

  lemma {:induction false} FillMentionsHead(count: nat, first: bool, n: nat)
    requires count > 0
    ensures AllMentions(FillSentences(count, first, n)) ==
            Numbers(Crowd(first, n)) + AllMentions(FillSentences(count - 1, false, n + 2))
  {
    FillSentencesHead(count, first, n);
    OneMarker(Crowd(first, n));
  }

  /** How often one marker of the filling mentions source `x`. */
  function CrowdHits(first: bool, n: nat, x: nat): nat {
    if x == n then 1 else if first then (if x == 0 then 2 else 0) else if x == n + 1 then 1 else 0
  }

  lemma {:induction false} CrowdAt(first: bool, n: nat, x: nat)
    requires n >= 1
    ensures Numbers(Crowd(first, n))[x] == CrowdHits(first, n, x)
  {
    CrowdCounts(first, n);
  }

  lemma {:induction false} FillMentionsAt(count: nat, first: bool, n: nat, x: nat)
    requires n >= 1 && count > 0
    ensures AllMentions(FillSentences(count, first, n))[x] ==
            CrowdHits(first, n, x) + AllMentions(FillSentences(count - 1, false, n + 2))[x]
  {
    FillMentionsHead(count, first, n);
    CrowdAt(first, n, x);
  }

  lemma {:induction false} LimitStep(first: bool, n: nat, x: nat)
    requires n >= 1
    ensures CrowdHits(first, n, x) + FillLimit(false, n + 2, x) <= FillLimit(first, n, x)
  {
  }

  lemma {:induction false} FillMentions(count: nat, first: bool, n: nat, x: nat)
    requires n >= 1
    ensures AllMentions(FillSentences(count, first, n))[x] <= FillLimit(first, n, x)
  {
    if count == 0 {
    } else {
      FillMentionsAt(count, first, n, x);
      LimitStep(first, n, x);
      FillMentions(count - 1, false, n + 2, x);
    }
  }

  /** The first sentence mentions source 0 twice, the others do not. */
  lemma {:induction false} FillDoubles(count: nat, n: nat)
    requires n >= 1 && count > 0
    ensures AllMentions(FillSentences(count, true, n))[0] == 2
  {
    FillMentionsAt(count, true, n, 0);
    FillMentions(count - 1, false, n + 2, 0);
  }

  lemma {:induction false} FillSentencesComply(count: nat, n: nat)
    requires n >= 1
    ensures
      var sentences := FillSentences(count, true, n);
      Unstacked(sentences, 2) && SolidSentences(sentences) && forall x: nat :: AllMentions(sentences)[x] <= 2
  {
    FillUnstacked(count, true, n);
    forall x: nat ensures AllMentions(FillSentences(count, true, n))[x] <= 2 {
      FillMentions(count, true, n, x);
    }
  }

  lemma {:induction false} FillBlocksComply(blocks: seq<Block>, n: nat)
    requires n >= 1
    ensures CompliantBlocks(FillBlocks(blocks, n), 2, 2) && SolidBlocks(FillBlocks(blocks, n))
  {
    if blocks == [] {
    } else {
      var count := |blocks[0].sentences|;
      FillSentencesComply(count, n);
      FillBlocksComply(blocks[1..], n + 2 * count);
      var filled := FillBlocks(blocks, n);
      assert filled[0].sentences == FillSentences(count, true, n);
      assert filled[1..] == FillBlocks(blocks[1..], n + 2 * count);
    }
  }

  lemma {:induction false} FillSectionsComply(sections: seq<Section>, n: nat)
    requires n >= 1
    ensures CompliantSections(FillSections(sections, n), 2, 2) && SolidSections(FillSections(sections, n))
  {
    if sections == [] {
    } else {
      var next := n + BlocksSize(sections[0].blocks);
      FillBlocksComply(sections[0].blocks, n);
      FillSectionsComply(sections[1..], next);
      assert FillSections(sections, n)[1..] == FillSections(sections[1..], next);
    }
  }

  /** The filled memo has the shape of the given one, and decluttering finds nothing to trim in it. */
  lemma {:induction false} FillFacts(m: Memo)
    ensures Alike(m, Fill(m)) && SolidMemo(Fill(m)) && DeclutterCitations(Fill(m), 2, 2).out == Fill(m)
  {
    FillBlocksAlike(m.preamble, 1);
    FillSectionsAlike(m.sections, 1 + BlocksSize(m.preamble));
    FillBlocksComply(m.preamble, 1);
    FillSectionsComply(m.sections, 1 + BlocksSize(m.preamble));
    DeclutterFixpointIff(Fill(m), 2, 2);
  }

  /* ------------------------------------------------------------------ sentences read as one */

  /** From number `n` to number `end`, the prose of the stream is the filling. */
  ghost predicate Rising(pieces: seq<Piece>, n: nat, end: nat) {
    if pieces == [] then n == end
    else if !pieces[0].prose then Rising(pieces[1..], n, end)
    else
      (exists first: bool :: pieces[0].tokens == [Marker(Crowd(first, n))]) && Rising(pieces[1..], n + 2, end)
  }

  lemma {:induction false} RisingConcat(a: seq<Piece>, b: seq<Piece>, n: nat, k: nat, end: nat)
    requires Rising(a, n, k) && Rising(b, k, end)
    ensures Rising(a + b, n, end)
    decreases |a|
  {
    if a == [] {
      assert a + b == b;
    } else {
      assert (a + b)[1..] == a[1..] + b;
      RisingConcat(a[1..], b, if a[0].prose then n + 2 else n, k, end);
    }
  }

  lemma {:induction false} RisingSentences(count: nat, first: bool, n: nat, closed: bool)
    ensures Rising(SentencePieces(FillSentences(count, first, n), closed), n, n + 2 * count)
  {
    if count == 0 {
    } else {
      RisingSentences(count - 1, false, n + 2, closed);
      FillSentencesHead(count, first, n);
      var pieces := SentencePieces(FillSentences(count, first, n), closed);
      assert pieces[1..] == SentencePieces(FillSentences(count - 1, false, n + 2), closed);
      assert pieces[0].tokens == [Marker(Crowd(first, n))];
    }
  }

  lemma {:induction false} RisingBlocks(blocks: seq<Block>, n: nat)
    ensures Rising(BlockSentences(FillBlocks(blocks, n)), n, n + BlocksSize(blocks))
  {
    if blocks == [] {
    } else {
      var count := |blocks[0].sentences|;
      var rest := FillBlocks(blocks[1..], n + 2 * count);
      RisingSentences(count, true, n, blocks[0].closed);
      RisingBlocks(blocks[1..], n + 2 * count);
      assert FillBlocks(blocks, n)[1..] == rest;
      RisingConcat(SentencePieces(FillSentences(count, true, n), blocks[0].closed), BlockSentences(rest),
                   n, n + 2 * count, n + BlocksSize(blocks));
    }
  }

  lemma {:induction false} RisingSections(sections: seq<Section>, n: nat) returns (end: nat)
    ensures Rising(SectionSentences(BeforeLists(FillSections(sections, n))), n, end)
  {
    if sections == [] || Protected(sections[0].title) {
      end := n;
    } else {
      var next := n + BlocksSize(sections[0].blocks);
      end := RisingSections(sections[1..], next);
      RisingBlocks(sections[0].blocks, n);
      var filled := FillSections(sections, n);
      var head, body := Piece(filled[0].head, filled[0].closed, false), BlockSentences(filled[0].blocks);
      var rest := BeforeLists(FillSections(sections[1..], next));
      assert filled[1..] == FillSections(sections[1..], next);
      assert BeforeLists(filled)[1..] == rest;
      assert ([head] + body)[1..] == body;
      RisingConcat([head] + body, SectionSentences(rest), n, next, end);
    }
  }

  lemma {:induction false} RisingMemo(m: Memo) returns (end: nat)
    ensures Rising(SentenceStream(Fill(m)), 1, end)
  {
    var next := 1 + BlocksSize(m.preamble);
    RisingBlocks(m.preamble, 1);
    end := RisingSections(m.sections, next);
    RisingConcat(BlockSentences(Fill(m).preamble), SectionSentences(BeforeLists(Fill(m).sections)), 1, next, end);
  }

  lemma {:induction false} ThreeNamed(cites: seq<Cite>, a: nat, b: nat, c: nat)
    requires a in Numbers(cites) && b in Numbers(cites) && c in Numbers(cites) && a != b && b != c && a != c
    ensures Sources(cites) >= 3
  {
    DistinctFacts(cites, []);
    assert NoDup([c]) && [b, c][1..] == [c] && [a, b, c][1..] == [b, c];
    Pigeonhole([a, b, c], Distinct(cites, []));
  }

  /** Joining text keeps the sources named. */
  lemma {:induction false} JoinedNumbers(a: Sentence, b: Sentence)
    ensures Numbers(Listed(a + b)) == Numbers(Listed(a)) + Numbers(Listed(b))
  {
    ListedConcat(a, b);
    NumbersConcat(Listed(a), Listed(b));
  }

  lemma {:induction false} StackedHead(unit: Sentence, rest: seq<Sentence>)
    ensures Stacked([unit] + rest) == (if Sources(Listed(unit)) >= 3 then 1 else 0) + Stacked(rest)
  {
    assert ([unit] + rest)[1..] == rest;
  }

  /** Text that names three sources stacks, whatever it is joined to. */
  lemma {:induction false} CrowdStacks(pieces: seq<Piece>, open: Sentence, a: nat, b: nat, c: nat)
    requires a != b && b != c && a != c
    requires var named := Numbers(Listed(open)); a in named && b in named && c in named
    ensures Stacked(Units(pieces, open)) >= 1
    decreases |pieces|
  {
    if pieces == [] {
      ThreeNamed(Listed(open), a, b, c);
      StackedHead(open, []);
      assert [open] + [] == [open];
    } else {
      var joined := open + pieces[0].tokens;
      JoinedNumbers(open, pieces[0].tokens);
      if pieces[0].ends {
        ThreeNamed(Listed(joined), a, b, c);
        StackedHead(joined, Units(pieces[1..], []));
      } else {
        CrowdStacks(pieces[1..], joined, a, b, c);
      }
    }
  }

  /** Two sources below `n` are named. */
  ghost predicate TwoBelow(open: Sentence, n: nat) {
    exists a, b :: 0 <= a < b < n && a in Numbers(Listed(open)) && b in Numbers(Listed(open))
  }

  lemma {:induction false} CrowdBelow(first: bool, n: nat)
    requires n >= 1
    ensures n in Numbers(Crowd(first, n)) && TwoBelow([Marker(Crowd(first, n))], n + 2)
  {
    OneMarker(Crowd(first, n));
    CrowdCounts(first, n);
    var a := if first then 0 else n;
    var b := if first then n else n + 1;
    assert a in Numbers(Crowd(first, n)) && b in Numbers(Crowd(first, n));
  }

  lemma {:induction false} JoinedBelow(a: Sentence, b: Sentence, n: nat, m: nat)
    requires TwoBelow(a, n) || TwoBelow(b, n)
    requires n <= m
    ensures TwoBelow(a + b, m)
  {
    JoinedNumbers(a, b);
    if TwoBelow(a, n) {
      var x, y :| 0 <= x < y < n && x in Numbers(Listed(a)) && y in Numbers(Listed(a));
      assert x in Numbers(Listed(a + b)) && y in Numbers(Listed(a + b));
    } else {
      var x, y :| 0 <= x < y < n && x in Numbers(Listed(b)) && y in Numbers(Listed(b));
      assert x in Numbers(Listed(a + b)) && y in Numbers(Listed(a + b));
    }
  }

  /** Where two sentences of the filling are read as one, they stack. */
  lemma {:induction false} UnsealedStacks(pieces: seq<Piece>, open: Sentence, busy: bool, n: nat, end: nat)
    requires Rising(pieces, n, end) && n >= 1 && !Sealed(pieces, busy)
    requires busy ==> TwoBelow(open, n)
    ensures Stacked(Units(pieces, open)) >= 1
    decreases |pieces|
  {
    var p := pieces[0];
    var joined := open + p.tokens;
    if p.prose {
      var first :| p.tokens == [Marker(Crowd(first, n))];
      OneMarker(Crowd(first, n));
      CrowdBelow(first, n);
    }
    if busy && p.prose {
      var a, b :| 0 <= a < b < n && a in Numbers(Listed(open)) && b in Numbers(Listed(open));
      JoinedNumbers(open, p.tokens);
      CrowdStacksHere(pieces, open, a, b, n);
    } else {
      var next := if p.prose then n + 2 else n;
      if p.ends {
        UnsealedStacks(pieces[1..], [], false, next, end);
        StackedHead(joined, Units(pieces[1..], []));
      } else {
        if busy || p.prose {
          JoinedBelow(open, p.tokens, next, next);
        }
        UnsealedStacks(pieces[1..], joined, busy || p.prose, next, end);
      }
    }
  }

  lemma {:induction false} CrowdStacksHere(pieces: seq<Piece>, open: Sentence, a: nat, b: nat, c: nat)
    requires pieces != [] && a != b && b != c && a != c
    requires var named := Numbers(Listed(open + pieces[0].tokens)); a in named && b in named && c in named
    ensures Stacked(Units(pieces, open)) >= 1
  {
    var joined := open + pieces[0].tokens;
    if pieces[0].ends {
      ThreeNamed(Listed(joined), a, b, c);
      StackedHead(joined, Units(pieces[1..], []));
    } else {
      CrowdStacks(pieces[1..], joined, a, b, c);
    }
  }

  /** Whatever the markers, decluttering leaves no stack: exactly when no two sentences are read as one. */
  lemma {:induction false} StackingSilentIff(m: Memo)
    requires PlainHeads(BeforeLists(m.sections))
    ensures (forall m' :: Alike(m, m') && SolidMemo(m') ==> Stacking(DeclutterCitations(m', 2, 2).out) == 0)
       <==> SealedSentences(m)
  {
    if SealedSentences(m) {
      forall m' | Alike(m, m') && SolidMemo(m') ensures Stacking(DeclutterCitations(m', 2, 2).out) == 0 {
        AlikeSealed(m, m');
        SealedSilent(m', 2, 2, _ => false);
      }
    } else {
      FillFacts(m);
      AlikeSealed(m, Fill(m));
      var end := RisingMemo(m);
      UnsealedStacks(SentenceStream(Fill(m)), [], false, 1, end);
    }
  }

  /* ------------------------------------------------------------------ paragraphs read as one */

  /** All prose of the stream mentions source 0 twice. */
  predicate Doubled(pieces: seq<Piece>) {
    pieces == [] ||
    ((pieces[0].prose ==> Numbers(Listed(pieces[0].tokens))[0] == 2) && Doubled(pieces[1..]))
  }

  lemma {:induction false} DoubledConcat(a: seq<Piece>, b: seq<Piece>)
    requires Doubled(a) && Doubled(b)
    ensures Doubled(a + b)
  {
    if a == [] {
      assert a + b == b;
    } else {
      assert (a + b)[1..] == a[1..] + b;
      DoubledConcat(a[1..], b);
    }
  }

  lemma {:induction false} DoubledBlocks(blocks: seq<Block>, n: nat)
    requires n >= 1
    ensures Doubled(BlockParagraphs(FillBlocks(blocks, n)))
  {
    if blocks == [] {
    } else {
      var count := |blocks[0].sentences|;
      var filled := FillBlocks(blocks, n);
      DoubledBlocks(blocks[1..], n + 2 * count);
      assert filled[1..] == FillBlocks(blocks[1..], n + 2 * count);
      assert BlockParagraphs(filled)[1..] == BlockParagraphs(filled[1..]);
      if count > 0 {
        FillDoubles(count, n);
        WholeMentions(FillSentences(count, true, n));
        MentionsListed(Whole(FillSentences(count, true, n)));
      }
    }
  }

  lemma {:induction false} DoubledSections(sections: seq<Section>, n: nat)
    requires n >= 1
    ensures Doubled(SectionParagraphs(BeforeLists(FillSections(sections, n))))
  {
    if sections == [] || Protected(sections[0].title) {
    } else {
      var next := n + BlocksSize(sections[0].blocks);
      DoubledSections(sections[1..], next);
      DoubledBlocks(sections[0].blocks, n);
      var filled := FillSections(sections, n);
      var head, body := Piece(filled[0].head, filled[0].gap, false), BlockParagraphs(filled[0].blocks);
      var rest := BeforeLists(FillSections(sections[1..], next));
      assert filled[1..] == FillSections(sections[1..], next);
      assert BeforeLists(filled)[1..] == rest;
      assert ([head] + body)[1..] == body;
      DoubledConcat([head] + body, SectionParagraphs(rest));
    }
  }

  lemma {:induction false} DoubledMemo(m: Memo)
    ensures Doubled(ParagraphStream(Fill(m)))
  {
    DoubledBlocks(m.preamble, 1);
    DoubledSections(m.sections, 1 + BlocksSize(m.preamble));
    DoubledConcat(BlockParagraphs(Fill(m).preamble), SectionParagraphs(BeforeLists(Fill(m).sections)));
  }

  lemma {:induction false} CiteIndex(cites: seq<Cite>, x: nat) returns (i: nat)
    requires x in Numbers(cites)
    ensures i < |cites| && cites[i].n == x
  {
    if cites[0].n == x {
      i := 0;
    } else {
      i := CiteIndex(cites[1..], x);
      i := i + 1;
    }
  }

  lemma {:induction false} ThreeDominate(cites: seq<Cite>, x: nat)
    requires Numbers(cites)[x] >= 3
    ensures Dominated(cites)
  {
    var i := CiteIndex(cites, x);
    assert Numbers(cites)[cites[i].n] >= 3;
  }

  /** No paragraph counts as short. */
  ghost function Never(): Sentence -> bool {
    s => false
  }

  lemma {:induction false} SaturatedHead(unit: Sentence, rest: seq<Sentence>)
    ensures Saturated([unit] + rest, Never()) == (if Dominated(Listed(unit)) then 1 else 0) + Saturated(rest, Never())
  {
    assert ([unit] + rest)[1..] == rest;
  }

  lemma {:induction false} ThreeSaturate(pieces: seq<Piece>, open: Sentence)
    requires Numbers(Listed(open))[0] >= 3
    ensures Saturated(Units(pieces, open), Never()) >= 1
    decreases |pieces|
  {
    if pieces == [] {
      ThreeDominate(Listed(open), 0);
      SaturatedHead(open, []);
      assert [open] + [] == [open];
    } else {
      var joined := open + pieces[0].tokens;
      JoinedNumbers(open, pieces[0].tokens);
      if pieces[0].ends {
        ThreeDominate(Listed(joined), 0);
        SaturatedHead(joined, Units(pieces[1..], []));
      } else {
        ThreeSaturate(pieces[1..], joined);
      }
    }
  }

  /** Where two paragraphs of the filling are read as one, source 0 saturates them. */
  lemma {:induction false} UnsealedSaturates(pieces: seq<Piece>, open: Sentence, busy: bool)
    requires Doubled(pieces) && !Sealed(pieces, busy)
    requires busy ==> Numbers(Listed(open))[0] >= 2
    ensures Saturated(Units(pieces, open), Never()) >= 1
    decreases |pieces|
  {
    var p := pieces[0];
    var joined := open + p.tokens;
    JoinedNumbers(open, p.tokens);
    if p.ends {
      SaturatedHead(joined, Units(pieces[1..], []));
      if busy && p.prose {
        ThreeDominate(Listed(joined), 0);
      } else {
        UnsealedSaturates(pieces[1..], [], false);
      }
    } else if busy && p.prose {
      ThreeSaturate(pieces[1..], joined);
    } else {
      UnsealedSaturates(pieces[1..], joined, busy || p.prose);
    }
  }

  /** Whatever the markers, and whichever paragraphs are too short to count, decluttering leaves no
      saturated paragraph: exactly when no two paragraphs are read as one. */
  lemma {:induction false} SaturationSilentIff(m: Memo)
    requires PlainHeads(BeforeLists(m.sections))
    ensures (forall m', brief :: Alike(m, m') && SolidMemo(m') ==>
              Saturation(DeclutterCitations(m', 2, 2).out, brief) == 0)
       <==> SealedParagraphs(m)
  {
    if SealedParagraphs(m) {
      forall m', brief | Alike(m, m') && SolidMemo(m')
        ensures Saturation(DeclutterCitations(m', 2, 2).out, brief) == 0
      {
        AlikeSealed(m, m');
        SealedSilent(m', 2, 2, brief);
      }
    } else {
      FillFacts(m);
      AlikeSealed(m, Fill(m));
      DoubledMemo(m);
      UnsealedSaturates(ParagraphStream(Fill(m)), [], false);
      assert Saturation(DeclutterCitations(Fill(m), 2, 2).out, Never()) != 0;
    }
  }

  /* ------------------------------------------------------------------ tidy memos, and an untidy one */

  /** Paragraphs that end with sentence punctuation and a blank line. */
  predicate NeatBlocks(blocks: seq<Block>) {
    blocks == [] || (blocks[0].closed && blocks[0].gap && NeatBlocks(blocks[1..]))
  }

  predicate NeatSections(sections: seq<Section>) {
    sections == [] || (NeatBlocks(sections[0].blocks) && NeatSections(sections[1..]))
  }

  predicate Neat(m: Memo) {
    NeatBlocks(m.preamble) && NeatSections(BeforeLists(m.sections))
  }

  /** Every piece of prose ends at a cut. */
  predicate CutProse(pieces: seq<Piece>) {
    pieces == [] || ((pieces[0].prose ==> pieces[0].ends) && CutProse(pieces[1..]))
  }

  lemma {:induction false} CutProseSealed(pieces: seq<Piece>)
    requires CutProse(pieces)
    ensures Sealed(pieces, false)
  {
    if pieces == [] {
    } else {
      CutProseSealed(pieces[1..]);
    }
  }

  lemma {:induction false} CutProseConcat(a: seq<Piece>, b: seq<Piece>)
    requires CutProse(a) && CutProse(b)
    ensures CutProse(a + b)
  {
    if a == [] {
      assert a + b == b;
    } else {
      assert (a + b)[1..] == a[1..] + b;
      CutProseConcat(a[1..], b);
    }
  }

  lemma {:induction false} ClosedSentences(sentences: seq<Sentence>)
    ensures CutProse(SentencePieces(sentences, true))
  {
    if sentences == [] {
    } else {
      ClosedSentences(sentences[1..]);
      assert SentencePieces(sentences, true)[1..] == SentencePieces(sentences[1..], true);
    }
  }

  lemma {:induction false} NeatBlocksCut(blocks: seq<Block>)
    requires NeatBlocks(blocks)
    ensures CutProse(BlockSentences(blocks)) && CutProse(BlockParagraphs(blocks))
  {
    if blocks == [] {
    } else {
      NeatBlocksCut(blocks[1..]);
      ClosedSentences(blocks[0].sentences);
      CutProseConcat(SentencePieces(blocks[0].sentences, true), BlockSentences(blocks[1..]));
      assert BlockParagraphs(blocks)[1..] == BlockParagraphs(blocks[1..]);
    }
  }

  lemma {:induction false} NeatSectionsCut(sections: seq<Section>)
    requires NeatSections(sections)
    ensures CutProse(SectionSentences(sections)) && CutProse(SectionParagraphs(sections))
  {
    if sections == [] {
    } else {
      var s := sections[0];
      NeatSectionsCut(sections[1..]);
      NeatBlocksCut(s.blocks);
      var head, opening := Piece(s.head, s.closed, false), Piece(s.head, s.gap, false);
      assert ([head] + BlockSentences(s.blocks))[1..] == BlockSentences(s.blocks);
      assert ([opening] + BlockParagraphs(s.blocks))[1..] == BlockParagraphs(s.blocks);
      CutProseConcat([head] + BlockSentences(s.blocks), SectionSentences(sections[1..]));
      CutProseConcat([opening] + BlockParagraphs(s.blocks), SectionParagraphs(sections[1..]));
    }
  }

  lemma {:induction false} NeatSealed(m: Memo)
    requires Neat(m)
    ensures SealedSentences(m) && SealedParagraphs(m)
  {
    NeatBlocksCut(m.preamble);
    NeatSectionsCut(BeforeLists(m.sections));
    CutProseConcat(BlockSentences(m.preamble), SectionSentences(BeforeLists(m.sections)));
    CutProseConcat(BlockParagraphs(m.preamble), SectionParagraphs(BeforeLists(m.sections)));
    CutProseSealed(SentenceStream(m));
    CutProseSealed(ParagraphStream(m));
  }

  /** In particular, decluttering at two sources a sentence and two mentions a paragraph silences both
      detectors where every paragraph ends in punctuation and a blank line. */
  lemma {:induction false} DeclutterSilencesDetectors(m: Memo, d: nat, p: nat, brief: Sentence -> bool)
    requires SolidMemo(m) && Neat(m) && PlainHeads(BeforeLists(m.sections)) && d <= 2 && p <= 2
    ensures var out := DeclutterCitations(m, d, p).out; Stacking(out) == 0 && Saturation(out, brief) == 0
  {
    NeatSealed(m);
    SealedSilent(m, d, p, brief);
  }

  lemma {:induction false} ThreeSources(a: Cite, b: Cite, c: Cite)
    requires a.n != b.n && b.n != c.n && a.n != c.n
    ensures Sources([a, b]) == 2 && Sources([c]) == 1 && Sources([a, b, c]) == 3
    ensures forall n :: Numbers([a, b])[n] <= 2 && Numbers([c])[n] <= 2
  {
    assert [a, b] == [a] + ([b] + []) && [c] == [c] + [] && [a, b, c] == [a] + ([b] + ([c] + []));
    CiteCounts(a, [b] + [], []);
    CiteCounts(b, [], [] + [a.n]);
    CiteCounts(c, [], []);
    CiteCounts(a, [b] + ([c] + []), []);
    CiteCounts(b, [c] + [], [] + [a.n]);
    CiteCounts(c, [], [] + [a.n] + [b.n]);
  }

  /** A paragraph without final punctuation runs into the next one: the pair still counts as a stack
      after decluttering, which sees nothing to trim. */
  lemma {:induction false} OpenParagraphStillStacks(a: Cite, b: Cite, c: Cite)
    requires a.n != b.n && b.n != c.n && a.n != c.n
    ensures
      var first := Block([[Marker([a, b])]], false, true);
      var second := Block([[Marker([c])]], true, true);
      var m := Memo([first, second], []);
      !SealedSentences(m) && DeclutterCitations(m, 2, 2).out == m && Stacking(m) == 1
  {
    var s, t: Sentence := [Marker([a, b])], [Marker([c])];
    var first, second := Block([s], false, true), Block([t], true, true);
    var m := Memo([first, second], []);
    ThreeSources(a, b, c);
    OneToken(Marker([a, b]));
    OneToken(Marker([c]));
    SingleCompliant(first, 2, 2);
    SingleCompliant(second, 2, 2);
    PairCompliant(first, second, 2, 2);
    DeclutterFixpointIff(m, 2, 2);
    TwoUnits(s, t);
    ListedConcat(s, t);
    assert [a, b] + [c] == [a, b, c];
    OneStack(s + t);
  }

  lemma {:induction false} PairCompliant(first: Block, second: Block, d: nat, p: nat)
    requires Compliant(first, d, p) && Compliant(second, d, p)
    requires SolidSentences(first.sentences) && SolidSentences(second.sentences)
    ensures CompliantBlocks([first, second], d, p) && SolidBlocks([first, second])
  {
    assert [first, second][1..] == [second] && [second][1..] == [];
  }

  lemma {:induction false} OneStack(s: Sentence)
    requires Sources(Listed(s)) == 3
    ensures Stacked([s, []]) == 1
  {
    var tail: seq<Sentence> := [[]];
    assert [s, []][1..] == tail && tail[1..] == [];
    assert Stacked(tail) == 0;
  }

  lemma {:induction false} OnePiece(s: Sentence, closed: bool, rest: seq<Block>)
    ensures BlockSentences([Block([s], closed, true)] + rest) == [Piece(s, closed, true)] + BlockSentences(rest)
  {
    var blocks := [Block([s], closed, true)] + rest;
    assert [s][1..] == [] && blocks[1..] == rest;
    assert SentencePieces([s], closed) == [Piece(s, closed, true)] + [];
  }

  lemma {:induction false} TwoUnits(s: Sentence, t: Sentence)
    ensures
      var m := Memo([Block([s], false, true), Block([t], true, true)], []);
      MemoSentences(m) == [s + t, []] && !SealedSentences(m)
  {
    var blocks := [Block([s], false, true), Block([t], true, true)];
    OnePiece(t, true, []);
    OnePiece(s, false, [Block([t], true, true)] + []);
    assert blocks == [Block([s], false, true)] + ([Block([t], true, true)] + []);
    var first, second := Piece(s, false, true), Piece(t, true, true);
    assert SentenceStream(Memo(blocks, [])) == [first] + [second];
    assert ([first] + [second])[1..] == [second] && [second][1..] == [];
    assert !Sealed([second], true);
    assert [] + s == s;
    var last: seq<Sentence> := [[]];
    assert Units([], []) == last;
    assert Units([second], s) == [s + t] + last;
    assert [s + t] + last == [s + t, []];
  }

  lemma {:induction false} SingleCompliant(b: Block, d: nat, p: nat)
    requires |b.sentences| == 1 && Sources(Listed(b.sentences[0])) <= d
    requires forall n :: Numbers(Listed(b.sentences[0]))[n] <= p
    requires Solid(b.sentences[0])
    ensures Compliant(b, d, p) && SolidSentences(b.sentences)
  {
    assert b.sentences[1..] == [];
    MentionsListed(b.sentences[0]);
  }
}
