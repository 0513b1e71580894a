/** What decluttering guarantees: the bounds, what survives, when nothing changes, and the detectors. */
module DeclutterTheorems {
  import Common
  import opened TextUtil
  import opened Declutter

  /** Mentions a paragraph may still take after `k`. */
  function Room(p: nat, k: nat): nat {
    if k < p then p - k else 0
  }

  /* ------------------------------------------------------------------ different sources */

  predicate NoDup(a: seq<nat>) {
    a == [] || (a[0] !in a[1..] && NoDup(a[1..]))
  }

  lemma {:induction false} NoDupSnoc(a: seq<nat>, x: nat)
    requires NoDup(a) && x !in a
    ensures NoDup(a + [x])
  {
    if a == [] {
      assert ([] + [x])[1..] == [];
    } else {
      NoDupSnoc(a[1..], x);
      assert (a + [x])[1..] == a[1..] + [x];
    }
  }

  lemma {:induction false} DistinctFacts(cites: seq<Cite>, known: seq<nat>)
    requires NoDup(known)
    ensures NoDup(Distinct(cites, known))
    ensures forall n :: n in Distinct(cites, known) <==> n in known || n in Numbers(cites)
    decreases |cites|
  {
    if cites == [] {
    } else {
      var n := cites[0].n;
      if n in known {
        DistinctFacts(cites[1..], known);
      } else {
        NoDupSnoc(known, n);
        DistinctFacts(cites[1..], known + [n]);
      }
    }
  }

  function Without(b: seq<nat>, x: nat): seq<nat> {
    if b == [] then [] else if b[0] == x then b[1..] else [b[0]] + Without(b[1..], x)
  }

  lemma {:induction false} WithoutFacts(b: seq<nat>, x: nat)
    requires x in b
    ensures |Without(b, x)| == |b| - 1
    ensures forall y :: y in b && y != x ==> y in Without(b, x)
  {
    if b[0] != x {
      WithoutFacts(b[1..], x);
    }
  }

  lemma {:induction false} Pigeonhole(a: seq<nat>, b: seq<nat>)
    requires NoDup(a) && forall x :: x in a ==> x in b
    ensures |a| <= |b|
    decreases |a|
  {
    if a == [] {
    } else {
      WithoutFacts(b, a[0]);
      Pigeonhole(a[1..], Without(b, a[0]));
    }
  }

  /** How many different sources. */
  function Sources(cites: seq<Cite>): nat {
    |Distinct(cites, [])|
  }

  lemma {:induction false} NumbersConcat(a: seq<Cite>, b: seq<Cite>)
    ensures Numbers(a + b) == Numbers(a) + Numbers(b)
  {
    if a == [] {
      assert a + b == b;
    } else {
      assert (a + b)[1..] == a[1..] + b;
      NumbersConcat(a[1..], b);
    }
  }

  lemma {:induction false} MentionsListed(s: Sentence)
    ensures Mentions(s) == Numbers(Listed(s))
  {
    if s == [] {
    } else {
      MentionsListed(s[1..]);
      if s[0].Marker? {
        NumbersConcat(s[0].cites, Listed(s[1..]));
      }
    }
  }

  lemma {:induction false} ListedConcat(a: Sentence, b: Sentence)
    ensures Listed(a + b) == Listed(a) + Listed(b)
  {
    if a == [] {
      assert a + b == b;
    } else {
      assert (a + b)[1..] == a[1..] + b;
      ListedConcat(a[1..], b);
    }
  }

  lemma {:induction false} MentionsConcat(a: Sentence, b: Sentence)
    ensures Mentions(a + b) == Mentions(a) + Mentions(b)
  {
    if a == [] {
      assert a + b == b;
    } else {
      assert (a + b)[1..] == a[1..] + b;
      MentionsConcat(a[1..], b);
    }
  }

  lemma {:induction false} AllowedFacts(s: Sentence, d: nat)
    ensures |Allowed(s, d)| <= d
    ensures Sources(Listed(s)) <= d <==> forall n :: n in Mentions(s) ==> n in Allowed(s, d)
  {
    var all := Distinct(Listed(s), []);
    DistinctFacts(Listed(s), []);
    MentionsListed(s);
    if forall n :: n in Mentions(s) ==> n in Allowed(s, d) {
      Pigeonhole(all, Allowed(s, d));
    }
  }

  /** Reading on from what is known. */
  lemma {:induction false} DistinctConcat(a: seq<Cite>, b: seq<Cite>, known: seq<nat>)
    ensures Distinct(a + b, known) == Distinct(b, Distinct(a, known))
    ensures known <= Distinct(a, known)
    decreases |a|
  {
    if a == [] {
      assert a + b == b;
    } else {
      assert (a + b)[1..] == a[1..] + b;
      DistinctConcat(a[1..], b, if a[0].n in known then known else known + [a[0].n]);
    }
  }

  lemma {:induction false} NoDupAt(a: seq<nat>, i: nat, j: nat)
    requires NoDup(a) && i < |a| && j < |a| && a[i] == a[j]
    ensures i == j
  {
    if i > 0 && j > 0 {
      NoDupAt(a[1..], i - 1, j - 1);
    }
  }

  /** The numbers a sentence may keep are the first ones it names: a number, at its first mention, is allowed
      exactly when fewer than `d` different ones come before it. */
  lemma {:induction false} AllowedIff(s: Sentence, d: nat, i: nat)
    requires i < |Listed(s)| && forall k :: 0 <= k < i ==> Listed(s)[k].n != Listed(s)[i].n
    ensures Listed(s)[i].n in Allowed(s, d) <==> Sources(Listed(s)[..i]) < d
  {
    var cites := Listed(s);
    var n, before := cites[i].n, Distinct(cites[..i], []);
    var all := Distinct(cites, []);
    DistinctFacts(cites[..i], []);
    DistinctFacts(cites, []);
    NotBefore(cites[..i], n);
    assert n !in before;
    assert cites == cites[..i] + cites[i..] && cites[i..][0] == cites[i];
    DistinctConcat(cites[..i], cites[i..], []);
    DistinctConcat(cites[i..][1..], [], before + [n]);
    assert before + [n] <= all && all[|before|] == n;
    if n in Allowed(s, d) && |all| > d {
      var j :| 0 <= j < d && all[j] == n;
      NoDupAt(all, j, |before|);
    }
    assert |before| < d ==> |all| <= d || all[..d][|before|] == n;
  }

  lemma {:induction false} NotBefore(cites: seq<Cite>, n: nat)
    requires forall k :: 0 <= k < |cites| ==> cites[k].n != n
    ensures n !in Numbers(cites)
  {
    if cites == [] {
    } else {
      NotBefore(cites[1..], n);
    }
  }

  lemma {:induction false} FewSources(cites: seq<Cite>, allowed: seq<nat>)
    requires forall n :: n in Numbers(cites) ==> n in allowed
    ensures Sources(cites) <= |allowed|
  {
    DistinctFacts(cites, []);
    Pigeonhole(Distinct(cites, []), allowed);
  }

  /* ------------------------------------------------------------------ exactly what survives */

  lemma {:induction false} KeepExact(cites: seq<Cite>, allowed: seq<nat>, p: nat, seen: multiset<nat>, n: nat)
    ensures
      var r := Keep(cites, allowed, p, seen);
      && r.seen[n] == seen[n] + Numbers(r.cites)[n]
      && Numbers(r.cites)[n] == if n in allowed then Common.Min(Room(p, seen[n]), Numbers(cites)[n]) else 0
  {
    if cites == [] {
    } else {
      var c := cites[0].n;
      if c in allowed && seen[c] < p {
        var rest := Keep(cites[1..], allowed, p, seen + multiset{c});
        KeepExact(cites[1..], allowed, p, seen + multiset{c}, n);
        assert ([cites[0]] + rest.cites)[1..] == rest.cites;
      } else {
        KeepExact(cites[1..], allowed, p, seen, n);
      }
    }
  }

  lemma {:induction false} OneToken(t: Token)
    ensures Mentions([t]) == if t.Marker? then Numbers(t.cites) else multiset{}
    ensures Listed([t]) == if t.Marker? then t.cites else []
  {
    assert [t][1..] == [];
  }

  /** Of `m` mentions of source `n`, how many stay when the paragraph has seen it `k` times. */
  function Stay(allowed: seq<nat>, p: nat, n: nat, k: nat, m: nat): nat {
    if n in allowed then Common.Min(Room(p, k), m) else 0
  }

  lemma {:induction false} StayShared(allowed: seq<nat>, p: nat, n: nat, k: nat, m: nat, more: nat)
    ensures var first := Stay(allowed, p, n, k, m);
            first + Stay(allowed, p, n, k + first, more) == Stay(allowed, p, n, k, m + more)
  {
  }

  function TokenMentions(t: Token): multiset<nat> {
    if t.Marker? then Numbers(t.cites) else multiset{}
  }

  /** What is left of `m` mentions of source `n`, and how it is counted. */
  predicate Exact(r: Trimmed, allowed: seq<nat>, p: nat, seen: multiset<nat>, n: nat, m: nat) {
    r.seen[n] == seen[n] + Mentions(r.s)[n] && Mentions(r.s)[n] == Stay(allowed, p, n, seen[n], m)
  }

  lemma {:induction false} TokenExact(t: Token, allowed: seq<nat>, p: nat, seen: multiset<nat>, n: nat)
    ensures Exact(TrimToken(t, allowed, p, seen), allowed, p, seen, n, TokenMentions(t)[n])
  {
    if t.Marker? {
      var kept := Keep(t.cites, allowed, p, seen);
      KeepExact(t.cites, allowed, p, seen, n);
      OneToken(Marker(kept.cites));
    } else {
      OneToken(t);
    }
  }

  lemma {:induction false} ExactChain(head: Trimmed, rest: Trimmed, allowed: seq<nat>, p: nat, seen: multiset<nat>,
                                      n: nat, m: nat, more: nat)
    requires Exact(head, allowed, p, seen, n, m) && Exact(rest, allowed, p, head.seen, n, more)
    ensures Exact(Trimmed(head.s + rest.s, rest.seen, head.changed + rest.changed), allowed, p, seen, n, m + more)
  {
    MentionsConcat(head.s, rest.s);
    StayShared(allowed, p, n, seen[n], m, more);
  }

  lemma {:induction false} SentenceExact(s: Sentence, allowed: seq<nat>, p: nat, seen: multiset<nat>, n: nat)
    ensures Exact(TrimSentence(s, allowed, p, seen), allowed, p, seen, n, Mentions(s)[n])
  {
    if s == [] {
    } else {
      var head := TrimToken(s[0], allowed, p, seen);
      var rest := TrimSentence(s[1..], allowed, p, head.seen);
      TokenExact(s[0], allowed, p, seen, n);
      SentenceExact(s[1..], allowed, p, head.seen, n);
      ExactChain(head, rest, allowed, p, seen, n, TokenMentions(s[0])[n], Mentions(s[1..])[n]);
    }
  }

  /** Mentions of `n` in the sentences where it is among the first `d` sources. */
  function Granted(sentences: seq<Sentence>, d: nat, n: nat): nat {
    if sentences == [] then 0
    else (if n in Allowed(sentences[0], d) then Mentions(sentences[0])[n] else 0) + Granted(sentences[1..], d, n)
  }

  /** Of each source a paragraph keeps as many mentions as it was granted, up to the room left. */
  lemma {:induction false} SentencesExact(sentences: seq<Sentence>, d: nat, p: nat, seen: multiset<nat>, n: nat)
    ensures
      AllMentions(TrimSentences(sentences, d, p, seen).out)[n] == Common.Min(Room(p, seen[n]), Granted(sentences, d, n))
  {
    if sentences == [] {
    } else {
      var head := TrimSentence(sentences[0], Allowed(sentences[0], d), p, seen);
      var rest := TrimSentences(sentences[1..], d, p, head.seen);
      SentenceExact(sentences[0], Allowed(sentences[0], d), p, seen, n);
      SentencesExact(sentences[1..], d, p, head.seen, n);
      assert ([head.s] + rest.out)[1..] == rest.out;
    }
  }

  predicate Unstacked(sentences: seq<Sentence>, d: nat) {
    sentences == [] || (Sources(Listed(sentences[0])) <= d && Unstacked(sentences[1..], d))
  }

  lemma {:induction false} TrimmedUnstacked(sentences: seq<Sentence>, d: nat, p: nat, seen: multiset<nat>)
    ensures Unstacked(TrimSentences(sentences, d, p, seen).out, d)
  {
    if sentences == [] {
    } else {
      var allowed := Allowed(sentences[0], d);
      var head := TrimSentence(sentences[0], allowed, p, seen);
      var rest := TrimSentences(sentences[1..], d, p, head.seen);
      forall n | n in Mentions(head.s) ensures n in allowed {
        SentenceExact(sentences[0], allowed, p, seen, n);
      }
      MentionsListed(head.s);
      FewSources(Listed(head.s), allowed);
      AllowedFacts(sentences[0], d);
      TrimmedUnstacked(sentences[1..], d, p, head.seen);
      assert ([head.s] + rest.out)[1..] == rest.out;
    }
  }

  /** A paragraph that needs no trimming: few sources a sentence, few mentions a source. */
  ghost predicate Compliant(b: Block, d: nat, p: nat) {
    Unstacked(b.sentences, d) && forall n :: AllMentions(b.sentences)[n] <= p
  }

  /** After trimming, every sentence names at most `d` sources and the paragraph mentions each source
      at most `p` times; of each source exactly the granted mentions up to `p` are left. */
  lemma {:induction false} TrimmedBlock(b: Block, d: nat, p: nat)
    ensures Compliant(TrimBlock(b, d, p).out, d, p)
    ensures forall n: nat ::
              AllMentions(TrimBlock(b, d, p).out.sentences)[n] == Common.Min(p, Granted(b.sentences, d, n))
  {
    TrimmedUnstacked(b.sentences, d, p, multiset{});
    forall n: nat
      ensures AllMentions(TrimBlock(b, d, p).out.sentences)[n] == Common.Min(p, Granted(b.sentences, d, n))
    {
      SentencesExact(b.sentences, d, p, multiset{}, n);
    }
  }

  /* ------------------------------------------------------------------ when nothing changes */

  /** Every marker carries a number. */
  predicate Solid(s: Sentence) {
    s == [] || ((s[0].Marker? ==> s[0].cites != []) && Solid(s[1..]))
  }

  predicate SolidSentences(sentences: seq<Sentence>) {
    sentences == [] || (Solid(sentences[0]) && SolidSentences(sentences[1..]))
  }

  predicate SolidBlocks(blocks: seq<Block>) {
    blocks == [] || (SolidSentences(blocks[0].sentences) && SolidBlocks(blocks[1..]))
  }

  lemma {:induction false} NumbersSize(cites: seq<Cite>)
    ensures |Numbers(cites)| == |cites|
  {
    if cites == [] {
    } else {
      NumbersSize(cites[1..]);
    }
  }

  lemma {:induction false} KeepWhole(cites: seq<Cite>, allowed: seq<nat>, p: nat, seen: multiset<nat>)
    ensures var r := Keep(cites, allowed, p, seen); |r.cites| <= |cites| && (|r.cites| == |cites| ==> r.cites == cites)
  {
    if cites == [] {
    } else {
      var c := cites[0].n;
      if c in allowed && seen[c] < p {
        KeepWhole(cites[1..], allowed, p, seen + multiset{c});
      } else {
        KeepWhole(cites[1..], allowed, p, seen);
      }
    }
  }

  lemma {:induction false} SolidConcat(a: Sentence, b: Sentence)
    requires Solid(a) && Solid(b)
    ensures Solid(a + b)
  {
    if a == [] {
      assert a + b == b;
    } else {
      assert (a + b)[1..] == a[1..] + b;
      SolidConcat(a[1..], b);
    }
  }

  lemma {:induction false} TokenWhole(t: Token, allowed: seq<nat>, p: nat, seen: multiset<nat>)
    requires t.Marker? ==> t.cites != []
    ensures
      var r := TrimToken(t, allowed, p, seen);
      && Solid(r.s)
      && |Listed(r.s)| <= |Listed([t])|
      && (r.changed == 0 <==> |Listed(r.s)| == |Listed([t])|)
      && (r.changed == 0 ==> r.s == [t])
  {
    OneToken(t);
    assert [t][1..] == [];
    if t.Marker? {
      var kept := Keep(t.cites, allowed, p, seen).cites;
      KeepWhole(t.cites, allowed, p, seen);
      OneToken(Marker(kept));
      assert [Marker(kept)][1..] == [];
    }
  }

  lemma {:induction false} SentenceWhole(s: Sentence, allowed: seq<nat>, p: nat, seen: multiset<nat>)
    requires Solid(s)
    ensures
      var r := TrimSentence(s, allowed, p, seen);
      && Solid(r.s)
      && |Listed(r.s)| <= |Listed(s)|
      && (r.changed == 0 <==> |Listed(r.s)| == |Listed(s)|)
      && (r.changed == 0 ==> r.s == s)
  {
    if s == [] {
    } else {
      var head := TrimToken(s[0], allowed, p, seen);
      var rest := TrimSentence(s[1..], allowed, p, head.seen);
      TokenWhole(s[0], allowed, p, seen);
      SentenceWhole(s[1..], allowed, p, head.seen);
      SolidConcat(head.s, rest.s);
      ListedConcat(head.s, rest.s);
      ListedConcat([s[0]], s[1..]);
      assert s == [s[0]] + s[1..];
    }
  }

  function Size(sentences: seq<Sentence>): nat {
    if sentences == [] then 0 else |Listed(sentences[0])| + Size(sentences[1..])
  }

  lemma {:induction false} SentencesWhole(sentences: seq<Sentence>, d: nat, p: nat, seen: multiset<nat>)
    requires SolidSentences(sentences)
    ensures
      var r := TrimSentences(sentences, d, p, seen);
      && SolidSentences(r.out)
      && Size(r.out) <= Size(sentences)
      && (r.changed == 0 <==> Size(r.out) == Size(sentences))
      && (r.changed == 0 ==> r.out == sentences)
  {
    if sentences == [] {
    } else {
      var head := TrimSentence(sentences[0], Allowed(sentences[0], d), p, seen);
      var rest := TrimSentences(sentences[1..], d, p, head.seen);
      SentenceWhole(sentences[0], Allowed(sentences[0], d), p, seen);
      SentencesWhole(sentences[1..], d, p, head.seen);
      assert ([head.s] + rest.out)[1..] == rest.out;
    }
  }

  lemma {:induction false} MentionsSize(sentences: seq<Sentence>)
    ensures |AllMentions(sentences)| == Size(sentences)
  {
    if sentences == [] {
    } else {
      MentionsListed(sentences[0]);
      NumbersSize(Listed(sentences[0]));
      MentionsSize(sentences[1..]);
    }
  }

  lemma {:induction false} UnstackedGrants(sentences: seq<Sentence>, d: nat, n: nat)
    requires Unstacked(sentences, d)
    ensures Granted(sentences, d, n) == AllMentions(sentences)[n]
  {
    if sentences == [] {
    } else {
      AllowedFacts(sentences[0], d);
      UnstackedGrants(sentences[1..], d, n);
    }
  }

  /** A paragraph is left alone exactly when it complies, and then nothing is counted as changed. */
  lemma {:induction false} BlockFixpointIff(b: Block, d: nat, p: nat)
    requires SolidSentences(b.sentences)
    ensures var r := TrimBlock(b, d, p); (r.out == b <==> Compliant(b, d, p)) && (r.changed == 0 <==> r.out == b)
  {
    var r := TrimBlock(b, d, p);
    TrimmedBlock(b, d, p);
    SentencesWhole(b.sentences, d, p, multiset{});
    if Compliant(b, d, p) {
      forall n: nat ensures AllMentions(r.out.sentences)[n] == AllMentions(b.sentences)[n] {
        UnstackedGrants(b.sentences, d, n);
      }
      assert AllMentions(r.out.sentences) == AllMentions(b.sentences);
      MentionsSize(b.sentences);
      MentionsSize(r.out.sentences);
    }
  }

  ghost predicate CompliantBlocks(blocks: seq<Block>, d: nat, p: nat) {
    blocks == [] || (Compliant(blocks[0], d, p) && CompliantBlocks(blocks[1..], d, p))
  }

  lemma {:induction false} BlocksFixpointIff(blocks: seq<Block>, d: nat, p: nat)
    requires SolidBlocks(blocks)
    ensures
      var r := TrimBlocks(blocks, d, p);
      && (r.out == blocks <==> CompliantBlocks(blocks, d, p)) && (r.changed == 0 <==> r.out == blocks)
      && CompliantBlocks(r.out, d, p) && SolidBlocks(r.out)
  {
    if blocks == [] {
    } else {
      var head, rest := TrimBlock(blocks[0], d, p), TrimBlocks(blocks[1..], d, p);
      BlockFixpointIff(blocks[0], d, p);
      BlocksFixpointIff(blocks[1..], d, p);
      TrimmedBlock(blocks[0], d, p);
      SentencesWhole(blocks[0].sentences, d, p, multiset{});
      var out := TrimBlocks(blocks, d, p).out;
      assert out[0] == head.out && out[1..] == rest.out;
      assert blocks == [blocks[0]] + blocks[1..];
    }
  }

  predicate SolidSections(sections: seq<Section>) {
    sections == [] ||
    ((Protected(sections[0].title) || SolidBlocks(sections[0].blocks)) && SolidSections(sections[1..]))
  }

  /** The sections that list the sources, in any letter case. */
  predicate ListsSources(title: string) {
    Lower(title) in {"source quality", "references", "core references"}
  }

  ghost predicate CompliantSections(sections: seq<Section>, d: nat, p: nat) {
    sections == [] ||
    ((ListsSources(sections[0].title) || CompliantBlocks(sections[0].blocks, d, p))
     && CompliantSections(sections[1..], d, p))
  }

  lemma {:induction false} SectionsFixpointIff(sections: seq<Section>, d: nat, p: nat)
    requires SolidSections(sections)
    ensures
      var r := TrimSections(sections, d, p);
      && (r.out == sections <==> CompliantSections(sections, d, p)) && (r.changed == 0 <==> r.out == sections)
      && CompliantSections(r.out, d, p) && SolidSections(r.out)
  {
    if sections == [] {
    } else {
      var head, rest := TrimSection(sections[0], d, p), TrimSections(sections[1..], d, p);
      if !Protected(sections[0].title) {
        BlocksFixpointIff(sections[0].blocks, d, p);
      }
      SectionsFixpointIff(sections[1..], d, p);
      var out := TrimSections(sections, d, p).out;
      assert out[0] == head.out && out[1..] == rest.out;
      assert sections == [sections[0]] + sections[1..];
    }
  }

  predicate SolidMemo(m: Memo) {
    SolidBlocks(m.preamble) && SolidSections(m.sections)
  }

  ghost predicate CompliantMemo(m: Memo, d: nat, p: nat) {
    CompliantBlocks(m.preamble, d, p) && CompliantSections(m.sections, d, p)
  }

  /** The output complies; the memo is unchanged exactly when it complied, exactly when the reported
      number of changes is 0; so a second pass changes nothing. */
  lemma {:induction false} DeclutterFixpointIff(m: Memo, d: nat, p: nat)
    requires SolidMemo(m)
    ensures
      var r := DeclutterCitations(m, d, p);
      && CompliantMemo(r.out, d, p)
      && (r.out == m <==> CompliantMemo(m, d, p))
      && (r.changed == 0 <==> r.out == m)
      && DeclutterCitations(r.out, d, p).out == r.out
      && DeclutterCitations(r.out, d, p).changed == 0
  {
    var out := DeclutterCitations(m, d, p).out;
    BlocksFixpointIff(m.preamble, d, p);
    SectionsFixpointIff(m.sections, d, p);
    BlocksFixpointIff(out.preamble, d, p);
    SectionsFixpointIff(out.sections, d, p);
  }

  /* ------------------------------------------------------------------ what is never touched */

  function Prose(s: Sentence): seq<string> {
    if s == [] then [] else if s[0].Text? then [s[0].text] + Prose(s[1..]) else Prose(s[1..])
  }

  lemma {:induction false} ProseConcat(a: Sentence, b: Sentence)
    ensures Prose(a + b) == Prose(a) + Prose(b)
  {
    if a == [] {
      assert a + b == b;
    } else {
      assert (a + b)[1..] == a[1..] + b;
      ProseConcat(a[1..], b);
    }
  }

  lemma {:induction false} TrimKeepsProse(s: Sentence, allowed: seq<nat>, p: nat, seen: multiset<nat>)
    ensures Prose(TrimSentence(s, allowed, p, seen).s) == Prose(s)
  {
    if s == [] {
    } else {
      var head := TrimToken(s[0], allowed, p, seen);
      TrimKeepsProse(s[1..], allowed, p, head.seen);
      ProseConcat(head.s, TrimSentence(s[1..], allowed, p, head.seen).s);
      OneProse(s[0], allowed, p, seen);
    }
  }

  lemma {:induction false} OneProse(t: Token, allowed: seq<nat>, p: nat, seen: multiset<nat>)
    ensures Prose(TrimToken(t, allowed, p, seen).s) == if t.Text? then [t.text] else []
  {
    var r := TrimToken(t, allowed, p, seen).s;
    if r != [] {
      assert r[1..] == [];
    }
  }

  predicate SameProse(a: seq<Sentence>, b: seq<Sentence>) {
    |a| == |b| && (a == [] || (Prose(a[0]) == Prose(b[0]) && SameProse(a[1..], b[1..])))
  }

  predicate SameBlocks(a: seq<Block>, b: seq<Block>) {
    && |a| == |b|
    && (a == [] ||
        (a[0].closed == b[0].closed && a[0].gap == b[0].gap && SameProse(a[0].sentences, b[0].sentences)
         && SameBlocks(a[1..], b[1..])))
  }

  /** Same heading, and the same body when the section lists the sources. */
  predicate SameSection(a: Section, b: Section) {
    && a.title == b.title && a.head == b.head && a.closed == b.closed && a.gap == b.gap
    && (if ListsSources(a.title) then a == b else SameBlocks(a.blocks, b.blocks))
  }

  predicate SameSections(a: seq<Section>, b: seq<Section>) {
    |a| == |b| && (a == [] || (SameSection(a[0], b[0]) && SameSections(a[1..], b[1..])))
  }

  lemma {:induction false} SentencesFrame(sentences: seq<Sentence>, d: nat, p: nat, seen: multiset<nat>)
    ensures SameProse(sentences, TrimSentences(sentences, d, p, seen).out)
  {
    if sentences == [] {
    } else {
      var head := TrimSentence(sentences[0], Allowed(sentences[0], d), p, seen);
      var rest := TrimSentences(sentences[1..], d, p, head.seen);
      TrimKeepsProse(sentences[0], Allowed(sentences[0], d), p, seen);
      SentencesFrame(sentences[1..], d, p, head.seen);
      assert ([head.s] + rest.out)[1..] == rest.out;
    }
  }

  lemma {:induction false} BlocksFrame(blocks: seq<Block>, d: nat, p: nat)
    ensures SameBlocks(blocks, TrimBlocks(blocks, d, p).out)
  {
    if blocks == [] {
    } else {
      SentencesFrame(blocks[0].sentences, d, p, multiset{});
      BlocksFrame(blocks[1..], d, p);
      var out, rest := TrimBlocks(blocks, d, p).out, TrimBlocks(blocks[1..], d, p).out;
      assert out[0] == TrimBlock(blocks[0], d, p).out && out[1..] == rest;
    }
  }

  lemma {:induction false} SectionsFrame(sections: seq<Section>, d: nat, p: nat)
    ensures SameSections(sections, TrimSections(sections, d, p).out)
  {
    if sections == [] {
    } else {
      BlocksFrame(sections[0].blocks, d, p);
      SectionsFrame(sections[1..], d, p);
      var out, rest := TrimSections(sections, d, p).out, TrimSections(sections[1..], d, p).out;
      assert out[0] == TrimSection(sections[0], d, p).out && out[1..] == rest;
    }
  }

  /** Headings, the sections that list the sources, and every word of the prose stay. */
  lemma {:induction false} DeclutterFrame(m: Memo, d: nat, p: nat)
    ensures
      var out := DeclutterCitations(m, d, p).out;
      SameBlocks(m.preamble, out.preamble) && SameSections(m.sections, out.sections)
  {
    BlocksFrame(m.preamble, d, p);
    SectionsFrame(m.sections, d, p);
  }

  /* ------------------------------------------------------------------ what is reported */

  function Markers(s: Sentence): nat {
    if s == [] then 0 else (if s[0].Marker? then 1 else 0) + Markers(s[1..])
  }

  function SentenceMarkers(sentences: seq<Sentence>): nat {
    if sentences == [] then 0 else Markers(sentences[0]) + SentenceMarkers(sentences[1..])
  }

  function BlockMarkers(blocks: seq<Block>): nat {
    if blocks == [] then 0 else SentenceMarkers(blocks[0].sentences) + BlockMarkers(blocks[1..])
  }

  function SectionMarkers(sections: seq<Section>): nat {
    if sections == [] then 0
    else if ListsSources(sections[0].title) then SectionMarkers(sections[1..])
    else BlockMarkers(sections[0].blocks) + SectionMarkers(sections[1..])
  }

  lemma {:induction false} SentenceChanges(s: Sentence, allowed: seq<nat>, p: nat, seen: multiset<nat>)
    ensures TrimSentence(s, allowed, p, seen).changed <= Markers(s)
  {
    if s == [] {
    } else {
      SentenceChanges(s[1..], allowed, p, TrimToken(s[0], allowed, p, seen).seen);
    }
  }

  lemma {:induction false} SentencesChanges(sentences: seq<Sentence>, d: nat, p: nat, seen: multiset<nat>)
    ensures TrimSentences(sentences, d, p, seen).changed <= SentenceMarkers(sentences)
  {
    if sentences == [] {
    } else {
      var allowed := Allowed(sentences[0], d);
      SentenceChanges(sentences[0], allowed, p, seen);
      SentencesChanges(sentences[1..], d, p, TrimSentence(sentences[0], allowed, p, seen).seen);
    }
  }

  lemma {:induction false} BlocksChanges(blocks: seq<Block>, d: nat, p: nat)
    ensures TrimBlocks(blocks, d, p).changed <= BlockMarkers(blocks)
  {
    if blocks == [] {
    } else {
      SentencesChanges(blocks[0].sentences, d, p, multiset{});
      BlocksChanges(blocks[1..], d, p);
    }
  }

  lemma {:induction false} SectionsChanges(sections: seq<Section>, d: nat, p: nat)
    ensures TrimSections(sections, d, p).changed <= SectionMarkers(sections)
  {
    if sections == [] {
    } else {
      BlocksChanges(sections[0].blocks, d, p);
      SectionsChanges(sections[1..], d, p);
    }
  }

  /** At most as many changes are reported as there are markers outside the lists of sources. */
  lemma {:induction false} ReportsMarkers(m: Memo, d: nat, p: nat)
    ensures DeclutterCitations(m, d, p).changed <= BlockMarkers(m.preamble) + SectionMarkers(m.sections)
  {
    BlocksChanges(m.preamble, d, p);
    SectionsChanges(m.sections, d, p);
  }
}
