/** Which saved answer and which saved sources the active record of a chain carries. */
module KnowledgeAnswers {
  import opened Common
  import opened Knowledge
  import opened KnowledgeChains

  /* ------------------------------------------------------------------ merged citations */

  /** The k-th new citation has a key no known and no earlier new citation has. */
  predicate Unheard(known: seq<Citation>, more: seq<Citation>, k: nat)
    requires k < |more|
  {
    more[k].key != "" && !HasKey(known, more[k].key) && !HasKey(more[..k], more[k].key)
  }

  /** The citations of `more` from place k on that bring an unheard key. */
  function News(known: seq<Citation>, more: seq<Citation>, k: nat): seq<Citation>
    requires k <= |more|
    decreases |more| - k
  {
    if k == |more| then []
    else if Unheard(known, more, k) then [more[k]] + News(known, more, k + 1)
    else News(known, more, k + 1)
  }

  lemma {:induction false} HasKeyConcat(a: seq<Citation>, b: seq<Citation>, key: string)
    ensures HasKey(a + b, key) <==> HasKey(a, key) || HasKey(b, key)
  {
    if a == [] {
      assert a + b == b;
    } else {
      assert (a + b)[1..] == a[1..] + b;
      HasKeyConcat(a[1..], b, key);
    }
  }

  lemma {:induction false} HasKeyTake(more: seq<Citation>, k: nat, key: string)
    requires k < |more|
    ensures HasKey(more[..k + 1], key) <==> HasKey(more[..k], key) || more[k].key == key
  {
    assert more[..k + 1] == more[..k] + [more[k]];
    HasKeyConcat(more[..k], [more[k]], key);
    assert [more[k]][1..] == [];
  }

  /** Every key is there: those known, and the new ones read so far unless blank. */
  predicate Gathered(known: seq<Citation>, more: seq<Citation>, all: seq<Citation>, key: string) {
    HasKey(all, key) <==> HasKey(known, key) || (key != "" && HasKey(more, key))
  }

  ghost predicate AllGathered(known: seq<Citation>, more: seq<Citation>, all: seq<Citation>) {
    forall key :: Gathered(known, more, all, key)
  }

  function Add(all: seq<Citation>, c: Citation): seq<Citation> {
    if c.key != "" && !HasKey(all, c.key) then all + [c] else all
  }

  lemma {:induction false} GatheredStep(known: seq<Citation>, more: seq<Citation>, k: nat, all: seq<Citation>)
    requires k < |more| && AllGathered(known, more[..k], all)
    ensures AllGathered(known, more[..k + 1], Add(all, more[k]))
    ensures Add(all, more[k]) == all + if Unheard(known, more, k) then [more[k]] else []
  {
    var read, next := more[..k + 1], Add(all, more[k]);
    assert Gathered(known, more[..k], all, more[k].key);
    forall key ensures Gathered(known, read, next, key) {
      assert Gathered(known, more[..k], all, key);
      HasKeyTake(more, k, key);
      HasKeyConcat(all, [more[k]], key);
      assert [more[k]][1..] == [];
    }
  }

  lemma {:induction false} AddStep(all: seq<Citation>, more: seq<Citation>, k: nat)
    requires k < |more|
    ensures AddCitations(all, more[k..]) == AddCitations(Add(all, more[k]), more[k + 1..])
  {
    var rest := more[k..];
    assert rest[0] == more[k] && rest[1..] == more[k + 1..];
  }

  lemma {:induction false} NewsStep(known: seq<Citation>, more: seq<Citation>, k: nat, all: seq<Citation>,
                                    next: seq<Citation>)
    requires k < |more| && next == all + if Unheard(known, more, k) then [more[k]] else []
    ensures next + News(known, more, k + 1) == all + News(known, more, k)
  {
  }

  lemma {:induction false} AddsTheNews(known: seq<Citation>, more: seq<Citation>, k: nat, all: seq<Citation>)
    requires k <= |more| && AllGathered(known, more[..k], all)
    ensures AddCitations(all, more[k..]) == all + News(known, more, k)
    ensures AllGathered(known, more, AddCitations(all, more[k..]))
    decreases |more| - k
  {
    if k == |more| {
      assert more[..k] == more;
    } else {
      GatheredStep(known, more, k, all);
      AddStep(all, more, k);
      NewsStep(known, more, k, all, Add(all, more[k]));
      AddsTheNews(known, more, k + 1, Add(all, more[k]));
    }
  }

  /** Merging keeps the prior citations and adds, in order, the first new one of each key that is neither
      blank nor already there, up to 28 in all; what is not cut off holds every key of both. */
  lemma {:induction false} MergeCitationsExact(prior: seq<Citation>, latest: seq<Citation>)
    ensures
      var all, merged := prior + News(prior, latest, 0), MergeCitations(prior, latest);
      && (|all| <= 28 ==> merged == all)
      && (|all| > 28 ==> merged == all[..28])
      && (forall key :: HasKey(merged, key) ==> HasKey(prior, key) || (key != "" && HasKey(latest, key)))
      && (|merged| < 28 ==> AllGathered(prior, latest, merged))
  {
    assert AllGathered(prior, latest[..0], prior);
    AddsTheNews(prior, latest, 0, prior);
    assert latest[0..] == latest;
    var all, merged := AddCitations(prior, latest), MergeCitations(prior, latest);
    forall key | HasKey(merged, key) ensures HasKey(prior, key) || (key != "" && HasKey(latest, key)) {
      if |all| > MAX_CITATIONS {
        assert all == merged + all[MAX_CITATIONS..];
        HasKeyConcat(merged, all[MAX_CITATIONS..], key);
      }
      assert Gathered(prior, latest, all, key);
    }
  }

  /* ------------------------------------------------------------------ records and what was saved for them */

  /** The records handed to the saves of a run, in order: one for each record of the history. */
  function Saved(ops: seq<Op>): seq<Record> {
    if ops == [] then []
    else (if ops[0].SaveOp? then [ops[0].latest] else []) + Saved(ops[1..])
  }

  /** A record is the one saved for it, or that one merged onto the record before it in the chain. */
  predicate Built(h: History, saved: seq<Record>, i: nat)
    requires Shape(h) && |saved| == |h.links| && i < |h.links|
  {
    var link, r := h.links[i], h.records[i];
    && r.id == saved[i].id
    && (link.pos == 0 ==> r.answer == saved[i].answer && r.depth == saved[i].depth && r.citations == saved[i].citations)
    && (link.pos > 0 ==>
          && link.prev < i
          && var merged := Merge(h.records[link.prev], saved[i]);
             r.answer == merged.answer && r.depth == merged.depth && r.citations == merged.citations)
  }

  predicate AllBuilt(h: History, saved: seq<Record>) {
    Shape(h) && |saved| == |h.links| && forall i :: 0 <= i < |h.links| ==> Built(h, saved, i)
  }

  function Also(saved: seq<Record>, op: Op): seq<Record> {
    if op.SaveOp? then saved + [op.latest] else saved
  }

  lemma {:induction false} OldBuilt(h: History, saved: seq<Record>, op: Op, i: nat)
    requires Shape(h) && |saved| == |h.links| && i < |h.links| && Built(h, saved, i)
    ensures var n := Step(h, op); |Also(saved, op)| == |n.links| && i < |n.links| && Built(n, Also(saved, op), i)
  {
    StepKin(h, op, i);
    if h.links[i].pos > 0 {
      StepKin(h, op, h.links[i].prev);
    }
  }

  lemma {:induction false} NewBuilt(h: History, saved: seq<Record>, op: Op)
    requires Shape(h) && |saved| == |h.links| && op.SaveOp?
    ensures
      var n := Step(h, op);
      |n.links| == |h.links| + 1 == |Also(saved, op)| && Built(n, Also(saved, op), |h.links|)
  {
    var at := Find(h.records, op.priorId);
    if at < |h.records| {
      StepKin(h, op, at);
    }
  }

  lemma {:induction false} StepBuilt(h: History, saved: seq<Record>, op: Op)
    requires AllBuilt(h, saved)
    ensures AllBuilt(Step(h, op), Also(saved, op))
  {
    var n := Step(h, op);
    assert |n.links| == |Also(saved, op)|;
    forall i | 0 <= i < |n.links| ensures Built(n, Also(saved, op), i) {
      if i < |h.links| {
        OldBuilt(h, saved, op, i);
      } else {
        NewBuilt(h, saved, op);
      }
    }
  }

  lemma {:induction false} SavedHead(saved: seq<Record>, ops: seq<Op>)
    requires ops != []
    ensures Also(saved, ops[0]) + Saved(ops[1..]) == saved + Saved(ops)
  {
  }

  lemma {:induction false} RunBuilt(h: History, saved: seq<Record>, ops: seq<Op>)
    requires AllBuilt(h, saved)
    ensures AllBuilt(Run(h, ops), saved + Saved(ops))
    decreases |ops|
  {
    if ops == [] {
      assert saved + [] == saved;
    } else {
      StepBuilt(h, saved, ops[0]);
      RunBuilt(Step(h, ops[0]), Also(saved, ops[0]), ops[1..]);
      SavedHead(saved, ops);
    }
  }

  /* ------------------------------------------------------------------ the deepest answer speaks */

  /** Record i is the k-th one or an earlier one of its chain. */
  predicate UpTo(h: History, k: nat, i: int) {
    0 <= i <= k < |h.links| && h.links[i].chain == h.links[k].chain
  }

  /** The record before the k-th in its chain has the same ones behind it. */
  lemma {:induction false} UpToStep(h: History, k: nat, i: int)
    requires AllInPlace(h) && AllOrdered(h) && k < |h.links| && h.links[k].pos > 0
    ensures h.links[k].prev < k && (UpTo(h, k, i) <==> i == k || UpTo(h, h.links[k].prev, i))
  {
    var prev := h.links[k].prev;
    assert InPlace(h, k);
    if i < k && UpTo(h, k, i) {
      assert Ordered(h, i, k);
      assert prev < i ==> Ordered(h, prev, i);
    }
  }

  lemma {:induction false} UpToFirst(h: History, k: nat, i: int)
    requires AllInPlace(h) && AllOrdered(h) && k < |h.links| && h.links[k].pos == 0
    ensures UpTo(h, k, i) <==> i == k
  {
    assert 0 <= i < k ==> Ordered(h, i, k);
  }

  /** The depth of the k-th record is the largest saved for its chain so far. */
  ghost predicate Deepest(h: History, saved: seq<Record>, k: nat)
    requires Shape(h) && |saved| == |h.links| && k < |h.links|
  {
    && (forall i :: UpTo(h, k, i) ==> saved[i].depth <= h.records[k].depth)
    && (exists i :: UpTo(h, k, i) && saved[i].depth == h.records[k].depth)
  }

  lemma {:induction false} DepthIsDeepest(h: History, saved: seq<Record>, k: nat)
    requires AllInPlace(h) && AllOrdered(h) && AllBuilt(h, saved) && k < |h.links|
    ensures Deepest(h, saved, k)
    decreases k
  {
    assert Built(h, saved, k) && UpTo(h, k, k);
    if h.links[k].pos == 0 {
      forall i | UpTo(h, k, i) ensures saved[i].depth <= h.records[k].depth {
        UpToFirst(h, k, i);
      }
    } else {
      var prev := h.links[k].prev;
      DepthIsDeepest(h, saved, prev);
      forall i | UpTo(h, k, i) ensures saved[i].depth <= h.records[k].depth {
        UpToStep(h, k, i);
      }
      var best :| UpTo(h, prev, best) && saved[best].depth == h.records[prev].depth;
      UpToStep(h, k, best);
    }
  }

  /** A saved answer that is not blank and, when saved, at least as deep as all of its chain before. */
  predicate Leads(h: History, saved: seq<Record>, i: int)
    requires |saved| == |h.links|
  {
    && 0 <= i < |h.links|
    && saved[i].answer != ""
    && forall j :: 0 <= j < i && UpTo(h, i, j) ==> saved[j].depth <= saved[i].depth
  }

  /** Of the saved answers that lead, the i-th is the last one up to the k-th record. */
  ghost predicate Speaks(h: History, saved: seq<Record>, k: nat, i: int)
    requires |saved| == |h.links|
  {
    UpTo(h, k, i) && Leads(h, saved, i) && forall j :: i < j && UpTo(h, k, j) ==> !Leads(h, saved, j)
  }

  /** The k-th record carries the answer that speaks; it is blank when none does. */
  ghost predicate Answers(h: History, saved: seq<Record>, k: nat)
    requires Shape(h) && |saved| == |h.links| && k < |h.links|
  {
    && (h.records[k].answer != "" ==> exists i :: Speaks(h, saved, k, i) && h.records[k].answer == saved[i].answer)
    && (h.records[k].answer == "" ==> forall i :: UpTo(h, k, i) ==> !Leads(h, saved, i))
  }

  lemma {:induction false} LeadsIff(h: History, saved: seq<Record>, k: nat)
    requires AllInPlace(h) && AllOrdered(h) && AllBuilt(h, saved) && k < |h.links| && h.links[k].pos > 0
    ensures h.links[k].prev < k
    ensures Leads(h, saved, k) <==> saved[k].answer != "" && saved[k].depth >= h.records[h.links[k].prev].depth
  {
    var prev := h.links[k].prev;
    UpToStep(h, k, k);
    DepthIsDeepest(h, saved, prev);
    var best :| UpTo(h, prev, best) && saved[best].depth == h.records[prev].depth;
    UpToStep(h, k, best);
    forall j | 0 <= j < k && UpTo(h, k, j) ensures saved[j].depth <= h.records[prev].depth {
      UpToStep(h, k, j);
    }
  }

  lemma {:induction false} StepSpeaks(h: History, saved: seq<Record>, k: nat, i: int)
    requires AllInPlace(h) && AllOrdered(h) && |saved| == |h.links| && k < |h.links| && h.links[k].pos > 0
    requires Speaks(h, saved, h.links[k].prev, i) && !Leads(h, saved, k)
    ensures Speaks(h, saved, k, i)
  {
    UpToStep(h, k, i);
    forall j | i < j && UpTo(h, k, j) ensures !Leads(h, saved, j) {
      UpToStep(h, k, j);
    }
  }

  lemma {:induction false} RecordAnswers(h: History, saved: seq<Record>, k: nat)
    requires AllInPlace(h) && AllOrdered(h) && AllBuilt(h, saved) && k < |h.links|
    ensures Answers(h, saved, k)
    decreases k
  {
    assert Built(h, saved, k) && UpTo(h, k, k);
    if h.links[k].pos == 0 {
      forall i ensures UpTo(h, k, i) <==> i == k {
        UpToFirst(h, k, i);
      }
      assert saved[k].answer != "" ==> Speaks(h, saved, k, k);
    } else {
      LeadsIff(h, saved, k);
      var prev := h.links[k].prev;
      if Leads(h, saved, k) {
        assert Speaks(h, saved, k, k);
      } else {
        RecordAnswers(h, saved, prev);
        if h.records[k].answer != "" {
          var i :| Speaks(h, saved, prev, i) && h.records[prev].answer == saved[i].answer;
          StepSpeaks(h, saved, k, i);
        } else {
          forall i | UpTo(h, k, i) ensures !Leads(h, saved, i) {
            UpToStep(h, k, i);
          }
        }
      }
    }
  }

  /** After any saves and reuses, the active record of a chain goes by the id saved last, has the largest
      depth saved for the chain, and carries the last answer that was not blank and, when saved, at least
      as deep as all before it. */
  lemma {:induction false} HeadSpeaks(ops: seq<Op>, c: nat)
    requires MintedOps(ops) && c < |Run(EMPTY, ops).heads|
    ensures
      var h, saved := Run(EMPTY, ops), Saved(ops);
      var head := h.heads[c];
      && |saved| == |h.links|
      && head < |h.links|
      && h.links[head].chain == c
      && h.records[head].id == saved[head].id
      && (forall i :: 0 <= i < |h.links| && h.links[i].chain == c ==> UpTo(h, head, i))
      && Deepest(h, saved, head)
      && Answers(h, saved, head)
  {
    var h, saved := Run(EMPTY, ops), Saved(ops);
    ChainsKept(ops);
    RunBuilt(EMPTY, [], ops);
    assert [] + saved == saved;
    assert Headed(h, c);
    var head := h.heads[c];
    assert Built(h, saved, head);
    DepthIsDeepest(h, saved, head);
    RecordAnswers(h, saved, head);
    forall i | 0 <= i < |h.links| && h.links[i].chain == c ensures UpTo(h, head, i) {
      assert head < i ==> Ordered(h, head, i);
    }
  }

  /** The i-th saved record is the latest of the deepest ones of its chain up to the k-th, and the k-th
      record answers with it. */
  ghost predicate LatestDeepest(h: History, saved: seq<Record>, k: nat, i: int)
    requires Shape(h) && |saved| == |h.links| && k < |h.links|
  {
    && UpTo(h, k, i)
    && h.records[k].depth == saved[i].depth
    && h.records[k].answer == saved[i].answer
    && forall j :: i < j && UpTo(h, k, j) ==> saved[j].depth < saved[i].depth
  }

  lemma {:induction false} SpeakerIsDeepest(h: History, saved: seq<Record>, k: nat)
    requires Shape(h) && |saved| == |h.links| && k < |h.links| && Deepest(h, saved, k) && Answers(h, saved, k)
    requires forall i :: 0 <= i < |saved| ==> saved[i].answer != ""
    ensures exists i :: LatestDeepest(h, saved, k, i)
  {
    var best :| UpTo(h, k, best) && saved[best].depth == h.records[k].depth;
    assert Leads(h, saved, best);
    var i :| Speaks(h, saved, k, i) && h.records[k].answer == saved[i].answer;
    assert best <= i;
    assert saved[i].depth == h.records[k].depth;
    forall j | i < j && UpTo(h, k, j) ensures saved[j].depth < saved[i].depth {
      assert !Leads(h, saved, j);
    }
    assert LatestDeepest(h, saved, k, i);
  }

  /** When no saved answer is blank, it is that of the latest of the deepest records saved for the chain. */
  lemma {:induction false} HeadIsDeepestAnswer(ops: seq<Op>, c: nat)
    requires MintedOps(ops) && c < |Run(EMPTY, ops).heads|
    requires forall i :: 0 <= i < |Saved(ops)| ==> Saved(ops)[i].answer != ""
    ensures
      var h, saved := Run(EMPTY, ops), Saved(ops);
      && |saved| == |h.links|
      && h.heads[c] < |h.links|
      && exists i :: LatestDeepest(h, saved, h.heads[c], i)
  {
    HeadSpeaks(ops, c);
    SpeakerIsDeepest(Run(EMPTY, ops), Saved(ops), Run(EMPTY, ops).heads[c]);
  }

  /** An answer once there is never blanked: no later record of the chain is without one. */
  lemma {:induction false} NeverBlanked(ops: seq<Op>, i: nat, j: nat)
    requires MintedOps(ops) && i <= j < |Run(EMPTY, ops).links|
    requires Run(EMPTY, ops).links[i].chain == Run(EMPTY, ops).links[j].chain
    ensures Run(EMPTY, ops).records[i].answer != "" ==> Run(EMPTY, ops).records[j].answer != ""
  {
    var h, saved := Run(EMPTY, ops), Saved(ops);
    ChainsKept(ops);
    RunBuilt(EMPTY, [], ops);
    assert [] + saved == saved;
    RecordAnswers(h, saved, i);
    RecordAnswers(h, saved, j);
    if h.records[i].answer != "" {
      var s :| Speaks(h, saved, i, s) && h.records[i].answer == saved[s].answer;
      assert UpTo(h, j, s);
    }
  }

  /* ------------------------------------------------------------------ the sources of a chain */

  /** The k-th record cites no other key than those saved for its chain, and all of them while it has room. */
  ghost predicate Sourced(h: History, saved: seq<Record>, k: nat)
    requires Shape(h) && |saved| == |h.links| && k < |h.links|
  {
    forall key :: key != "" ==>
      && (HasKey(h.records[k].citations, key) ==> exists i :: UpTo(h, k, i) && HasKey(saved[i].citations, key))
      && (|h.records[k].citations| < MAX_CITATIONS ==>
            forall i :: UpTo(h, k, i) && HasKey(saved[i].citations, key) ==> HasKey(h.records[k].citations, key))
  }

  lemma {:induction false} SourcedStep(h: History, saved: seq<Record>, k: nat, key: string)
    requires AllInPlace(h) && AllOrdered(h) && AllBuilt(h, saved) && k < |h.links| && h.links[k].pos > 0
    requires h.links[k].prev < k && Sourced(h, saved, h.links[k].prev) && key != ""
    ensures HasKey(h.records[k].citations, key) ==> exists i :: UpTo(h, k, i) && HasKey(saved[i].citations, key)
    ensures |h.records[k].citations| < MAX_CITATIONS ==>
              forall i :: UpTo(h, k, i) && HasKey(saved[i].citations, key) ==> HasKey(h.records[k].citations, key)
  {
    var prev := h.links[k].prev;
    var older, newer, merged := h.records[prev].citations, saved[k].citations, h.records[k].citations;
    assert Built(h, saved, k) && UpTo(h, k, k);
    assert merged == MergeCitations(older, newer);
    MergeCitationsExact(older, newer);
    if HasKey(merged, key) && !HasKey(newer, key) {
      var i :| UpTo(h, prev, i) && HasKey(saved[i].citations, key);
      UpToStep(h, k, i);
    }
    if |merged| < MAX_CITATIONS {
      assert Gathered(older, newer, merged, key);
      forall i | UpTo(h, k, i) && HasKey(saved[i].citations, key) ensures HasKey(merged, key) {
        UpToStep(h, k, i);
      }
    }
  }

  lemma {:induction false} RecordSourced(h: History, saved: seq<Record>, k: nat)
    requires AllInPlace(h) && AllOrdered(h) && AllBuilt(h, saved) && k < |h.links|
    ensures Sourced(h, saved, k)
    decreases k
  {
    assert Built(h, saved, k) && UpTo(h, k, k);
    if h.links[k].pos == 0 {
      forall key, i | key != "" && UpTo(h, k, i) && HasKey(saved[i].citations, key)
        ensures HasKey(h.records[k].citations, key)
      {
        UpToFirst(h, k, i);
      }
    } else {
      RecordSourced(h, saved, h.links[k].prev);
      forall key | key != ""
        ensures HasKey(h.records[k].citations, key) ==> exists i :: UpTo(h, k, i) && HasKey(saved[i].citations, key)
        ensures |h.records[k].citations| < MAX_CITATIONS ==>
                  forall i :: UpTo(h, k, i) && HasKey(saved[i].citations, key) ==> HasKey(h.records[k].citations, key)
      {
        SourcedStep(h, saved, k, key);
      }
    }
  }

  /** The active record of a chain cites only sources saved for the chain, and while it holds fewer than 28,
      every one of them. */
  lemma {:induction false} HeadSourced(ops: seq<Op>, c: nat)
    requires MintedOps(ops) && c < |Run(EMPTY, ops).heads|
    ensures
      var h, saved := Run(EMPTY, ops), Saved(ops);
      |saved| == |h.links| && h.heads[c] < |h.links| && Sourced(h, saved, h.heads[c])
  {
    var h, saved := Run(EMPTY, ops), Saved(ops);
    ChainsKept(ops);
    RunBuilt(EMPTY, [], ops);
    assert [] + saved == saved;
    assert Headed(h, c);
    RecordSourced(h, saved, h.heads[c]);
  }
}
