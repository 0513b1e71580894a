/** Trimming stacked and repeated citation markers from the prose of a memo. */
module Declutter {
  import opened TextUtil

  datatype Cite = Cite(n: nat, tier: string)
  datatype Token = Text(text: string) | Marker(cites: seq<Cite>)
  type Sentence = seq<Token>

  /** A paragraph. `closed`: it ends with sentence punctuation. `gap`: a blank line follows it. */
  datatype Block = Block(sentences: seq<Sentence>, closed: bool, gap: bool)

  /** `head` is the heading line, with `closed` and `gap` as for a block. */
  datatype Section = Section(title: string, head: Sentence, closed: bool, gap: bool, blocks: seq<Block>)
  datatype Memo = Memo(preamble: seq<Block>, sections: seq<Section>)

  /* ------------------------------------------------------------------ counting */

  function Numbers(cites: seq<Cite>): multiset<nat> {
    if cites == [] then multiset{} else multiset{cites[0].n} + Numbers(cites[1..])
  }

  /** How often each source is mentioned. */
  function Mentions(s: Sentence): multiset<nat> {
    if s == [] then multiset{}
    else if s[0].Text? then Mentions(s[1..])
    else Numbers(s[0].cites) + Mentions(s[1..])
  }

  function AllMentions(sentences: seq<Sentence>): multiset<nat> {
    if sentences == [] then multiset{} else Mentions(sentences[0]) + AllMentions(sentences[1..])
  }

  function Listed(s: Sentence): seq<Cite> {
    if s == [] then []
    else if s[0].Text? then Listed(s[1..])
    else s[0].cites + Listed(s[1..])
  }

  /** The distinct numbers in order of first mention, after those in `known`. */
  function Distinct(cites: seq<Cite>, known: seq<nat>): seq<nat> {
    if cites == [] then known
    else Distinct(cites[1..], if cites[0].n in known then known else known + [cites[0].n])
  }

  function Allowed(s: Sentence, d: nat): seq<nat> {
    var all := Distinct(Listed(s), []);
    if |all| <= d then all else all[..d]
  }

  /* ------------------------------------------------------------------ trimming */

  datatype Kept = Kept(cites: seq<Cite>, seen: multiset<nat>)

  /** Keep the allowed numbers that the paragraph has seen fewer than `p` times. */
  function Keep(cites: seq<Cite>, allowed: seq<nat>, p: nat, seen: multiset<nat>): Kept {
    if cites == [] then Kept([], seen)
    else if cites[0].n in allowed && seen[cites[0].n] < p then
      var rest := Keep(cites[1..], allowed, p, seen + multiset{cites[0].n});
      Kept([cites[0]] + rest.cites, rest.seen)
    else Keep(cites[1..], allowed, p, seen)
  }

  datatype Trimmed = Trimmed(s: Sentence, seen: multiset<nat>, changed: nat)

  /** An emptied marker is dropped; a marker that lost a number counts as changed. */
  function TrimToken(t: Token, allowed: seq<nat>, p: nat, seen: multiset<nat>): Trimmed {
    if t.Text? then Trimmed([t], seen, 0)
    else
      var kept := Keep(t.cites, allowed, p, seen);
      Trimmed(if kept.cites == [] then [] else [Marker(kept.cites)], kept.seen,
              if |kept.cites| != |t.cites| then 1 else 0)
  }

  function TrimSentence(s: Sentence, allowed: seq<nat>, p: nat, seen: multiset<nat>): Trimmed {
    if s == [] then Trimmed([], seen, 0)
    else
      var head := TrimToken(s[0], allowed, p, seen);
      var rest := TrimSentence(s[1..], allowed, p, head.seen);
      Trimmed(head.s + rest.s, rest.seen, head.changed + rest.changed)
  }

  datatype Tidied<T> = Tidied(out: T, changed: nat)

  function TrimSentences(sentences: seq<Sentence>, d: nat, p: nat, seen: multiset<nat>): Tidied<seq<Sentence>> {
    if sentences == [] then Tidied([], 0)
    else
      var head := TrimSentence(sentences[0], Allowed(sentences[0], d), p, seen);
      var rest := TrimSentences(sentences[1..], d, p, head.seen);
      Tidied([head.s] + rest.out, head.changed + rest.changed)
  }

  /** Each paragraph starts counting afresh. */
  function TrimBlock(b: Block, d: nat, p: nat): Tidied<Block> {
    var t := TrimSentences(b.sentences, d, p, multiset{});
    Tidied(b.(sentences := t.out), t.changed)
  }

  function TrimBlocks(blocks: seq<Block>, d: nat, p: nat): Tidied<seq<Block>> {
    if blocks == [] then Tidied([], 0)
    else
      var head, rest := TrimBlock(blocks[0], d, p), TrimBlocks(blocks[1..], d, p);
      Tidied([head.out] + rest.out, head.changed + rest.changed)
  }

  predicate Protected(title: string) {
    var t := Lower(title);
    t == "source quality" || t == "references" || t == "core references"
  }

  function TrimSection(s: Section, d: nat, p: nat): Tidied<Section> {
    if Protected(s.title) then Tidied(s, 0)
    else
      var t := TrimBlocks(s.blocks, d, p);
      Tidied(s.(blocks := t.out), t.changed)
  }

  function TrimSections(sections: seq<Section>, d: nat, p: nat): Tidied<seq<Section>> {
    if sections == [] then Tidied([], 0)
    else
      var head, rest := TrimSection(sections[0], d, p), TrimSections(sections[1..], d, p);
      Tidied([head.out] + rest.out, head.changed + rest.changed)
  }

  function DeclutterCitations(m: Memo, d: nat, p: nat): Tidied<Memo> {
    var preamble, sections := TrimBlocks(m.preamble, d, p), TrimSections(m.sections, d, p);
    Tidied(Memo(preamble.out, sections.out), preamble.changed + sections.changed)
  }

  /* ------------------------------------------------------------------ the loops of the program */

  method KeepCites(cites: seq<Cite>, allowed: seq<nat>, p: nat, seen: multiset<nat>) returns (kept: Kept)
    ensures kept == Keep(cites, allowed, p, seen)
  {
    var list: seq<Cite>, now: multiset<nat> := [], seen;
    for i := 0 to |cites|
      invariant
        var rest := Keep(cites[i..], allowed, p, now);
        Kept(list + rest.cites, rest.seen) == Keep(cites, allowed, p, seen)
    {
      var c := cites[i];
      assert cites[i..][1..] == cites[i + 1..];
      if c.n !in allowed {
        continue;
      }
      if now[c.n] >= p {
        continue;
      }
      now := now + multiset{c.n};
      list := list + [c];
    }
    kept := Kept(list, now);
  }

  method AllowedNumbers(s: Sentence, d: nat) returns (allowed: seq<nat>)
    ensures allowed == Allowed(s, d)
  {
    var cites, all: seq<nat> := Listed(s), [];
    for i := 0 to |cites|
      invariant Distinct(cites[i..], all) == Distinct(cites, [])
    {
      assert cites[i..][1..] == cites[i + 1..];
      if cites[i].n !in all {
        all := all + [cites[i].n];
      }
    }
    allowed := if |all| <= d then all else all[..d];
  }

  /** The substitution on one token of a sentence. */
  method DeclutterToken(t: Token, allowed: seq<nat>, p: nat, seen: multiset<nat>) returns (r: Trimmed)
    ensures r == TrimToken(t, allowed, p, seen)
  {
    if t.Text? {
      return Trimmed([t], seen, 0);
    }
    var kept := KeepCites(t.cites, allowed, p, seen);
    var changed := if |kept.cites| != |t.cites| then 1 else 0;
    if kept.cites == [] {
      return Trimmed([], kept.seen, changed);
    }
    r := Trimmed([Marker(kept.cites)], kept.seen, changed);
  }

  method DeclutterSentence(s: Sentence, d: nat, p: nat, seen: multiset<nat>) returns (r: Trimmed)
    ensures r == TrimSentence(s, Allowed(s, d), p, seen)
  {
    var allowed := AllowedNumbers(s, d);
    var out: Sentence, now: multiset<nat>, changed: nat := [], seen, 0;
    for i := 0 to |s|
      invariant
        var rest := TrimSentence(s[i..], allowed, p, now);
        Trimmed(out + rest.s, rest.seen, changed + rest.changed) == TrimSentence(s, allowed, p, seen)
    {
      assert s[i..][1..] == s[i + 1..];
      var head := DeclutterToken(s[i], allowed, p, now);
      out, now, changed := out + head.s, head.seen, changed + head.changed;
    }
    r := Trimmed(out, now, changed);
  }

  method DeclutterBlock(b: Block, d: nat, p: nat) returns (out: Block, changed: nat)
    ensures out == TrimBlock(b, d, p).out && changed == TrimBlock(b, d, p).changed
  {
    var sentences: seq<Sentence>, seen: multiset<nat> := [], multiset{};
    changed := 0;
    for i := 0 to |b.sentences|
      invariant
        var rest := TrimSentences(b.sentences[i..], d, p, seen);
        var all := TrimSentences(b.sentences, d, p, multiset{});
        sentences + rest.out == all.out && changed + rest.changed == all.changed
    {
      assert b.sentences[i..][1..] == b.sentences[i + 1..];
      var head := DeclutterSentence(b.sentences[i], d, p, seen);
      sentences, seen, changed := sentences + [head.s], head.seen, changed + head.changed;
    }
    out := b.(sentences := sentences);
  }

  method DeclutterBlocks(blocks: seq<Block>, d: nat, p: nat) returns (out: seq<Block>, changed: nat)
    ensures out == TrimBlocks(blocks, d, p).out && changed == TrimBlocks(blocks, d, p).changed
  {
    out, changed := [], 0;
    for i := 0 to |blocks|
      invariant
        var rest := TrimBlocks(blocks[i..], d, p);
        out + rest.out == TrimBlocks(blocks, d, p).out && changed + rest.changed == TrimBlocks(blocks, d, p).changed
    {
      assert blocks[i..][1..] == blocks[i + 1..];
      var b, more := DeclutterBlock(blocks[i], d, p);
      out, changed := out + [b], changed + more;
    }
  }

  method DeclutterSection(s: Section, d: nat, p: nat) returns (out: Section, changed: nat)
    ensures out == TrimSection(s, d, p).out && changed == TrimSection(s, d, p).changed
  {
    if Protected(s.title) {
      return s, 0;
    }
    var cleaned;
    cleaned, changed := DeclutterBlocks(s.blocks, d, p);
    out := s.(blocks := cleaned);
  }

  method DeclutterMemo(m: Memo, d: nat, p: nat) returns (out: Memo, changed: nat)
    ensures out == DeclutterCitations(m, d, p).out && changed == DeclutterCitations(m, d, p).changed
  {
    var preamble, total := DeclutterBlocks(m.preamble, d, p);
    changed := total;
    var sections: seq<Section> := [];
    var i := 0;
    while i < |m.sections|
      invariant i <= |m.sections|
      invariant
        var rest := TrimSections(m.sections[i..], d, p);
        var all := TrimSections(m.sections, d, p);
        sections + rest.out == all.out && changed + rest.changed == total + all.changed
    {
      assert m.sections[i..][1..] == m.sections[i + 1..];
      var s, more := DeclutterSection(m.sections[i], d, p);
      sections, changed := sections + [s], changed + more;
      i := i + 1;
    }
    out := Memo(preamble, sections);
  }
}
