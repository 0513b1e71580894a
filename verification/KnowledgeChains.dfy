/** Chains of records over any sequence of saves and reuses. */
module KnowledgeChains {
  import opened Common
  import opened Knowledge

  /* ------------------------------------------------------------------ merging never loses ground */

  /** Best confidence for a key; below zero when no claim has it. */
  function Confidence(claims: seq<Claim>, key: string): real {
    if claims == [] then -1.0
    else
      var rest := Confidence(claims[1..], key);
      if claims[0].key == key && claims[0].confidence > rest then claims[0].confidence else rest
  }

  function Larger(a: real, b: real): real {
    if a > b then a else b
  }

  function Of(c: Claim, key: string): real {
    if c.key == key then c.confidence else -1.0
  }

  predicate Sane(claims: seq<Claim>) {
    claims == [] || (claims[0].confidence >= 0.0 && Sane(claims[1..]))
  }

  lemma {:induction false} PutClaimExact(claims: seq<Claim>, c: Claim, key: string)
    requires Sane(claims) && c.confidence >= 0.0
    ensures Confidence(PutClaim(claims, c), key) == Larger(Confidence(claims, key), Of(c, key))
    ensures Sane(PutClaim(claims, c)) && |claims| <= |PutClaim(claims, c)| <= |claims| + 1
  {
    if claims == [] {
      assert [c][1..] == [];
    } else if claims[0].key == c.key {
      ConfidenceLeast(claims[1..], key);
      assert ([c] + claims[1..])[1..] == claims[1..];
    } else {
      var rest := PutClaim(claims[1..], c);
      PutClaimExact(claims[1..], c, key);
      assert ([claims[0]] + rest)[1..] == rest;
    }
  }

  lemma {:induction false} PutClaimsExact(claims: seq<Claim>, more: seq<Claim>, key: string)
    requires Sane(claims) && Sane(more)
    ensures Confidence(PutClaims(claims, more), key) == Larger(Confidence(claims, key), Confidence(more, key))
    ensures Sane(PutClaims(claims, more)) && |claims| <= |PutClaims(claims, more)| <= |claims| + |more|
    decreases |more|
  {
    ConfidenceLeast(claims, key);
    if more != [] {
      ConfidenceLeast(more[1..], key);
      PutClaimExact(claims, more[0], key);
      PutClaimsExact(PutClaim(claims, more[0]), more[1..], key);
    }
  }

  lemma {:induction false} ConfidenceLeast(claims: seq<Claim>, key: string)
    ensures Confidence(claims, key) >= -1.0
  {
    if claims == [] {
    } else {
      ConfidenceLeast(claims[1..], key);
    }
  }

  /** The first claims keep their places and never lose confidence. */
  lemma {:induction false} PutClaimPrefix(claims: seq<Claim>, c: Claim, n: nat, key: string)
    requires n <= |claims|
    ensures n <= |PutClaim(claims, c)|
    ensures Confidence(PutClaim(claims, c)[..n], key) >= Confidence(claims[..n], key)
  {
    if n > 0 {
      var put := PutClaim(claims, c);
      assert claims[..n][1..] == claims[1..][..n - 1];
      if claims[0].key == c.key {
        assert put[1..] == claims[1..];
      } else {
        PutClaimPrefix(claims[1..], c, n - 1, key);
        assert put[1..] == PutClaim(claims[1..], c);
      }
      assert put[..n][1..] == put[1..][..n - 1];
    }
  }

  lemma {:induction false} PutClaimsPrefix(claims: seq<Claim>, more: seq<Claim>, n: nat, key: string)
    requires n <= |claims|
    ensures n <= |PutClaims(claims, more)|
    ensures Confidence(PutClaims(claims, more)[..n], key) >= Confidence(claims[..n], key)
    decreases |more|
  {
    if more == [] {
    } else {
      PutClaimPrefix(claims, more[0], n, key);
      PutClaimsPrefix(PutClaim(claims, more[0]), more[1..], n, key);
    }
  }

  lemma {:induction false} ConfidencePrefix(claims: seq<Claim>, n: nat, key: string)
    requires n <= |claims|
    ensures Confidence(claims[..n], key) <= Confidence(claims, key)
  {
    if n > 0 {
      assert claims[..n][1..] == claims[1..][..n - 1];
      ConfidencePrefix(claims[1..], n - 1, key);
    } else {
      ConfidenceLeast(claims, key);
    }
  }

  lemma {:induction false} SanePrefix(claims: seq<Claim>, n: nat)
    requires n <= |claims| && Sane(claims)
    ensures Sane(claims[..n])
  {
    if n > 0 {
      assert claims[..n][1..] == claims[1..][..n - 1];
      SanePrefix(claims[1..], n - 1);
    }
  }

  /** Merged claims: never less sure of a key than before, and, when nothing is cut off, exactly as sure
      as the surer of the two records. */
  lemma {:induction false} MergeClaimsKeep(prior: seq<Claim>, latest: seq<Claim>, key: string)
    requires |prior| <= MAX_CLAIMS && Sane(prior) && Sane(latest)
    ensures
      var merged := MergeClaims(prior, latest);
      && Confidence(merged, key) >= Confidence(prior, key)
      && |merged| <= 16 && Sane(merged)
      && (|PutClaims(PutClaims([], prior), latest)| <= 16 ==>
            Confidence(merged, key) == Larger(Confidence(prior, key), Confidence(latest, key)))
  {
    var first := PutClaims([], prior);
    var all := PutClaims(first, latest);
    PutClaimsExact([], prior, key);
    PutClaimsExact(first, latest, key);
    ConfidenceLeast(prior, key);
    if |all| > MAX_CLAIMS {
      PutClaimsPrefix(first, latest, |first|, key);
      assert first[..|first|] == first;
      assert all[..MAX_CLAIMS][..|first|] == all[..|first|];
      ConfidencePrefix(all[..MAX_CLAIMS], |first|, key);
      SanePrefix(all, MAX_CLAIMS);
    }
  }

  predicate UniqueSlots(slots: seq<Slot>) {
    slots == [] || (Rank(slots[1..], slots[0].id) < 0 && UniqueSlots(slots[1..]))
  }

  lemma {:induction false} SetSlotExact(slots: seq<Slot>, s: Slot, id: string)
    requires UniqueSlots(slots)
    ensures Rank(SetSlot(slots, s), id) == if id == s.id then RankOf(s.coverage) else Rank(slots, id)
  {
    if slots == [] {
      assert [s][1..] == [];
    } else if slots[0].id == s.id {
      assert ([s] + slots[1..])[1..] == slots[1..];
    } else {
      var rest := SetSlot(slots[1..], s);
      SetSlotExact(slots[1..], s, id);
      assert ([slots[0]] + rest)[1..] == rest;
    }
  }

  lemma {:induction false} SetSlotUnique(slots: seq<Slot>, s: Slot)
    requires UniqueSlots(slots)
    ensures UniqueSlots(SetSlot(slots, s))
  {
    if slots == [] {
      assert [s][1..] == [];
    } else if slots[0].id == s.id {
      assert ([s] + slots[1..])[1..] == slots[1..];
    } else {
      var rest := SetSlot(slots[1..], s);
      SetSlotUnique(slots[1..], s);
      SetSlotExact(slots[1..], s, slots[0].id);
      assert ([slots[0]] + rest)[1..] == rest;
    }
  }

  lemma {:induction false} SetSlotsExact(slots: seq<Slot>, more: seq<Slot>, id: string)
    requires UniqueSlots(slots)
    ensures Rank(SetSlots(slots, more), id) == if Rank(more, id) >= 0 then Rank(more, id) else Rank(slots, id)
    ensures UniqueSlots(SetSlots(slots, more))
    decreases |more|
  {
    if more == [] {
    } else {
      SetSlotExact(slots, more[0], id);
      SetSlotUnique(slots, more[0]);
      SetSlotsExact(SetSlot(slots, more[0]), more[1..], id);
    }
  }

  /** The best rank any entry gives an id. */
  function Best(slots: seq<Slot>, id: string): int {
    if slots == [] then -1
    else
      var rest := Best(slots[1..], id);
      if slots[0].id == id && RankOf(slots[0].coverage) > rest then RankOf(slots[0].coverage) else rest
  }

  lemma {:induction false} BestLeast(slots: seq<Slot>, id: string)
    ensures Best(slots, id) >= -1 && Rank(slots, id) >= -1
  {
    if slots == [] {
    } else {
      BestLeast(slots[1..], id);
    }
  }

  lemma {:induction false} RaiseSlotsExact(slots: seq<Slot>, more: seq<Slot>, id: string)
    requires UniqueSlots(slots)
    ensures Rank(RaiseSlots(slots, more), id) ==
            if Best(more, id) > Rank(slots, id) then Best(more, id) else Rank(slots, id)
    decreases |more|
  {
    BestLeast(slots, id);
    if more != [] {
      var s := more[0];
      if RankOf(s.coverage) >= Rank(slots, s.id) {
        SetSlotExact(slots, s, id);
        SetSlotUnique(slots, s);
        RaiseSlotsExact(SetSlot(slots, s), more[1..], id);
      } else {
        RaiseSlotsExact(slots, more[1..], id);
      }
    }
  }

  /** Merged slots: each id stands at the better of its prior rank and the best new one. */
  lemma {:induction false} MergeSlotsExact(prior: seq<Slot>, latest: seq<Slot>, id: string)
    ensures Rank(MergeSlots(prior, latest), id) ==
            if Best(latest, id) > Rank(prior, id) then Best(latest, id) else Rank(prior, id)
  {
    SetSlotsExact([], prior, id);
    BestLeast(prior, id);
    RaiseSlotsExact(SetSlots([], prior), latest, id);
  }

  /** What a list of slots says of an id; of several entries the last one speaks. */
  function Last(slots: seq<Slot>, id: string): Option<Coverage> {
    if slots == [] then None
    else if Last(slots[1..], id).Some? then Last(slots[1..], id)
    else if slots[0].id == id then Some(slots[0].coverage)
    else None
  }

  lemma {:induction false} RankIsLast(slots: seq<Slot>, id: string)
    ensures Rank(slots, id) == if Last(slots, id).Some? then RankOf(Last(slots, id).value) else -1
  {
    if slots == [] {
    } else {
      RankIsLast(slots[1..], id);
    }
  }

  lemma {:induction false} BestIsAny(slots: seq<Slot>, id: string)
    ensures Best(slots, id) >= 3 <==> Slot(id, Covered) in slots
    ensures Best(slots, id) == 2 <==> Slot(id, Covered) !in slots && Slot(id, Weak) in slots
    ensures Best(slots, id) >= 0 <==> exists s :: s in slots && s.id == id
  {
    if slots == [] {
    } else {
      BestIsAny(slots[1..], id);
      assert slots == [slots[0]] + slots[1..];
      assert slots[0] in slots;
    }
  }

  /** A merged slot is covered when it was, or when any new entry says so; weak when it is not covered and
      was weak or a new entry says so; and known when either record knows it. */
  lemma {:induction false} MergedCoverage(prior: seq<Slot>, latest: seq<Slot>, id: string)
    ensures
      var was, now := Last(prior, id), Last(MergeSlots(prior, latest), id);
      && (now == Some(Covered) <==> was == Some(Covered) || Slot(id, Covered) in latest)
      && (now == Some(Weak) <==> now != Some(Covered) && (was == Some(Weak) || Slot(id, Weak) in latest))
      && (now.Some? <==> was.Some? || exists s :: s in latest && s.id == id)
  {
    RankIsLast(prior, id);
    RankIsLast(MergeSlots(prior, latest), id);
    BestIsAny(latest, id);
    MergeSlotsExact(prior, latest, id);
  }

  lemma {:induction false} AddCitationsPrefix(known: seq<Citation>, more: seq<Citation>)
    ensures known <= AddCitations(known, more)
    decreases |more|
  {
    if more == [] {
    } else {
      var next := if more[0].key != "" && !HasKey(known, more[0].key) then known + [more[0]] else known;
      AddCitationsPrefix(next, more[1..]);
    }
  }

  /* ------------------------------------------------------------------ one record to the next */

  predicate Bounded(r: Record) {
    |r.citations| <= MAX_CITATIONS && |r.claims| <= MAX_CLAIMS && Sane(r.claims)
  }

  /** A record as it comes from a report. */
  predicate Minted(r: Record) {
    Bounded(r) && r.version == 1 && r.reuse == 0 && r.status == Active
  }

  /** Depth, slot ranks and claim confidence do not fall, and the older citations stay in front. */
  ghost predicate Grows(a: Record, b: Record) {
    && a.depth <= b.depth
    && a.citations <= b.citations
    && (forall id :: Rank(a.slots, id) <= Rank(b.slots, id))
    && (forall key :: Confidence(a.claims, key) <= Confidence(b.claims, key))
  }

  lemma {:induction false} MergeGrows(prior: Record, latest: Record)
    requires Bounded(prior) && Bounded(latest)
    ensures Grows(prior, Merge(prior, latest)) && Bounded(Merge(prior, latest))
  {
    var merged := Merge(prior, latest);
    AddCitationsPrefix(prior.citations, latest.citations);
    forall id ensures Rank(prior.slots, id) <= Rank(merged.slots, id) {
      MergeSlotsExact(prior.slots, latest.slots, id);
    }
    forall key ensures Confidence(prior.claims, key) <= Confidence(merged.claims, key) {
      MergeClaimsKeep(prior.claims, latest.claims, key);
    }
    MergeClaimsKeep(prior.claims, latest.claims, "");
  }

  lemma {:induction false} GrowsTransitive(a: Record, b: Record, c: Record)
    requires Grows(a, b) && Grows(b, c)
    ensures Grows(a, c)
  {
  }

  /* ------------------------------------------------------------------ the records as chains */

  /** Place of a record: its chain, its position there and the index of the record before it. */
  datatype Link = Link(chain: nat, pos: nat, prev: nat)

  /** `heads`: for each chain, the index of its latest record. `hits`: reuses that met an active record. */
  datatype History = History(records: seq<Record>, links: seq<Link>, heads: seq<nat>, hits: nat)

  datatype Op = SaveOp(latest: Record, priorId: Option<string>) | ReuseOp(id: string)

  predicate Shape(h: History) {
    |h.links| == |h.records| && forall i :: 0 <= i < |h.links| ==> h.links[i].chain < |h.heads|
  }

  function Step(h: History, op: Op): (n: History)
    requires Shape(h)
    ensures Shape(n)
  {
    match op
    case SaveOp(latest, priorId) =>
      var at := Find(h.records, priorId);
      var records := Save(h.records, latest, priorId);
      if at == |h.records| then
        History(records, h.links + [Link(|h.heads|, 0, at)], h.heads + [at], h.hits)
      else
        var before := h.links[at];
        History(records, h.links + [Link(before.chain, before.pos + 1, at)],
                h.heads[before.chain := |h.records|], h.hits)
    case ReuseOp(id) =>
      var hit := id != "" && Find(h.records, Some(id)) < |h.records|;
      History(MarkReused(h.records, id), h.links, h.heads, if hit then h.hits + 1 else h.hits)
  }

  function Run(h: History, ops: seq<Op>): (n: History)
    requires Shape(h)
    ensures Shape(n)
    decreases |ops|
  {
    if ops == [] then h else Run(Step(h, ops[0]), ops[1..])
  }

  const EMPTY := History([], [], [], 0)

  predicate MintedOps(ops: seq<Op>) {
    ops == [] || ((ops[0].SaveOp? ==> Minted(ops[0].latest)) && MintedOps(ops[1..]))
  }

  /** The version counts the position in the chain, and a record that is not the first of its chain has
      grown out of the record one position before it. */
  ghost predicate InPlace(h: History, i: nat)
    requires Shape(h) && i < |h.links|
  {
    var link := h.links[i];
    && h.records[i].version == link.pos + 1
    && Bounded(h.records[i])
    && (link.pos > 0 ==>
          && link.prev < i
          && h.links[link.prev].chain == link.chain
          && h.links[link.prev].pos == link.pos - 1
          && Grows(h.records[link.prev], h.records[i]))
  }

  /** Of two records of one chain the later one stands further on, and the earlier one is superseded. */
  predicate Ordered(h: History, i: nat, j: nat)
    requires Shape(h) && i < j < |h.links|
  {
    h.links[i].chain == h.links[j].chain ==>
      h.links[i].pos < h.links[j].pos && h.records[i].status == Superseded
  }

  /** The chain has an active record. */
  predicate Headed(h: History, c: nat)
    requires Shape(h) && c < |h.heads|
  {
    h.heads[c] < |h.links| && h.links[h.heads[c]].chain == c && h.records[h.heads[c]].status == Active
  }

  ghost predicate AllInPlace(h: History) {
    Shape(h) && forall i :: 0 <= i < |h.links| ==> InPlace(h, i)
  }

  ghost predicate AllOrdered(h: History) {
    Shape(h) && forall i, j :: 0 <= i < j < |h.links| ==> Ordered(h, i, j)
  }

  ghost predicate AllHeaded(h: History) {
    Shape(h) && forall c :: 0 <= c < |h.heads| ==> Headed(h, c)
  }

  ghost predicate Chained(h: History) {
    AllInPlace(h) && AllOrdered(h) && AllHeaded(h) && TotalReuse(h.records) == h.hits
  }

  /* ------------------------------------------------------------------ reuse is conserved */

  lemma {:induction false} ReuseConcat(a: seq<Record>, b: seq<Record>)
    ensures TotalReuse(a + b) == TotalReuse(a) + TotalReuse(b)
  {
    if a == [] {
      assert a + b == b;
    } else {
      assert (a + b)[1..] == a[1..] + b;
      ReuseConcat(a[1..], b);
    }
  }

  function Share(r: Record): nat {
    if r.status == Active then r.reuse else 0
  }

  lemma {:induction false} ReuseUpdate(records: seq<Record>, at: nat, r: Record)
    requires at < |records|
    ensures TotalReuse(records[at := r]) + Share(records[at]) == TotalReuse(records) + Share(r)
  {
    if at == 0 {
      assert records[0 := r][1..] == records[1..];
    } else {
      assert records[at := r][1..] == records[1..][at - 1 := r];
      ReuseUpdate(records[1..], at - 1, r);
    }
  }

  lemma {:induction false} SaveKeepsReuse(records: seq<Record>, latest: Record, priorId: Option<string>)
    requires Minted(latest)
    ensures TotalReuse(Save(records, latest, priorId)) == TotalReuse(records)
  {
    var at := Find(records, priorId);
    if at == |records| {
      ReuseConcat(records, [latest]);
      assert [latest][1..] == [];
    } else {
      var closed, merged := records[at].(status := Superseded), Merge(records[at], latest);
      ReuseUpdate(records, at, closed);
      ReuseConcat(records[at := closed], [merged]);
      assert [merged][1..] == [];
    }
  }

  lemma {:induction false} MarkCountsReuse(records: seq<Record>, id: string)
    ensures TotalReuse(MarkReused(records, id)) ==
            TotalReuse(records) + if id != "" && Find(records, Some(id)) < |records| then 1 else 0
  {
    var at := Find(records, Some(id));
    if id != "" && at < |records| {
      ReuseUpdate(records, at, records[at].(reuse := records[at].reuse + 1));
    }
  }

  /* ------------------------------------------------------------------ every step keeps the chains */

  /** The same record, up to status and reuse. */
  predicate Kin(a: Record, b: Record) {
    a == b.(status := a.status, reuse := a.reuse)
  }

  lemma {:induction false} KinGrows(a: Record, b: Record, a': Record, b': Record)
    requires Kin(a, a') && Kin(b, b') && Grows(a, b)
    ensures Grows(a', b')
  {
  }

  lemma {:induction false} StepKin(h: History, op: Op, i: nat)
    requires Shape(h) && i < |h.links|
    ensures var n := Step(h, op); |h.links| <= |n.links| && n.links[i] == h.links[i] && Kin(h.records[i], n.records[i])
  {
  }

  lemma {:induction false} OldInPlace(h: History, op: Op, i: nat)
    requires Shape(h) && i < |h.links| && InPlace(h, i)
    ensures i < |Step(h, op).links| && InPlace(Step(h, op), i)
  {
    var n, prev := Step(h, op), h.links[i].prev;
    StepKin(h, op, i);
    if h.links[i].pos > 0 {
      StepKin(h, op, prev);
      KinGrows(h.records[prev], h.records[i], n.records[prev], n.records[i]);
    }
  }

  lemma {:induction false} NewInPlace(h: History, latest: Record, priorId: Option<string>)
    requires Shape(h) && Minted(latest)
    requires var at := Find(h.records, priorId); at < |h.records| ==> InPlace(h, at)
    ensures var n := Step(h, SaveOp(latest, priorId)); |n.links| == |h.links| + 1 && InPlace(n, |h.links|)
  {
    var at, n := Find(h.records, priorId), Step(h, SaveOp(latest, priorId));
    if at < |h.records| {
      MergeGrows(h.records[at], latest);
      var merged := Merge(h.records[at], latest);
      assert n.records[|h.records|] == merged;
      StepKin(h, SaveOp(latest, priorId), at);
      KinGrows(h.records[at], merged, n.records[at], merged);
    }
  }

  lemma {:induction false} StepInPlace(h: History, op: Op)
    requires AllInPlace(h) && (op.SaveOp? ==> Minted(op.latest))
    ensures AllInPlace(Step(h, op))
  {
    var n := Step(h, op);
    forall i | 0 <= i < |n.links| ensures InPlace(n, i) {
      if i < |h.links| {
        OldInPlace(h, op, i);
      } else {
        NewInPlace(h, op.latest, op.priorId);
      }
    }
  }

  lemma {:induction false} HeadIsLast(h: History, at: nat)
    requires AllOrdered(h) && AllHeaded(h) && at < |h.links| && h.records[at].status == Active
    ensures h.heads[h.links[at].chain] == at
  {
    var head := h.heads[h.links[at].chain];
    assert Headed(h, h.links[at].chain);
    assert head < at ==> Ordered(h, head, at);
    assert at < head ==> Ordered(h, at, head);
  }

  lemma {:induction false} StepOrdered(h: History, op: Op)
    requires AllOrdered(h) && AllHeaded(h)
    ensures AllOrdered(Step(h, op))
  {
    var n := Step(h, op);
    forall i, j | 0 <= i < j < |n.links| ensures Ordered(n, i, j) {
      if j < |h.links| {
        assert Ordered(h, i, j);
      } else {
        var at := Find(h.records, op.priorId);
        if at < |h.links| && h.links[i].chain == h.links[at].chain && i != at {
          HeadIsLast(h, at);
          assert Headed(h, h.links[at].chain);
          assert i < at ==> Ordered(h, i, at);
          assert at < i ==> Ordered(h, at, i);
        }
      }
    }
  }

  lemma {:induction false} StepHeaded(h: History, op: Op)
    requires AllOrdered(h) && AllHeaded(h) && (op.SaveOp? ==> Minted(op.latest))
    ensures AllHeaded(Step(h, op))
  {
    var n := Step(h, op);
    forall c | 0 <= c < |n.heads| ensures Headed(n, c) {
      if c < |h.heads| {
        assert Headed(h, c);
        if op.SaveOp? {
          var at := Find(h.records, op.priorId);
          if at < |h.records| {
            HeadIsLast(h, at);
          }
        }
      }
    }
  }

  lemma {:induction false} StepChained(h: History, op: Op)
    requires Chained(h) && (op.SaveOp? ==> Minted(op.latest))
    ensures Chained(Step(h, op))
  {
    StepInPlace(h, op);
    StepOrdered(h, op);
    StepHeaded(h, op);
    match op
    case SaveOp(latest, priorId) => SaveKeepsReuse(h.records, latest, priorId);
    case ReuseOp(id) => MarkCountsReuse(h.records, id);
  }

  lemma {:induction false} RunChained(h: History, ops: seq<Op>)
    requires Chained(h) && MintedOps(ops)
    ensures Chained(Run(h, ops))
    decreases |ops|
  {
    if ops == [] {
    } else {
      StepChained(h, ops[0]);
      RunChained(Step(h, ops[0]), ops[1..]);
    }
  }

  /** After any sequence of saves and reuses each chain has exactly one active record, its head; versions
      equal chain positions; each record has grown out of the one before it; total reuse equals the hits. */
  lemma {:induction false} ChainsKept(ops: seq<Op>)
    requires MintedOps(ops)
    ensures Chained(Run(EMPTY, ops))
    ensures
      var h := Run(EMPTY, ops);
      forall i :: 0 <= i < |h.links| ==> (h.records[i].status == Active <==> h.heads[h.links[i].chain] == i)
  {
    RunChained(EMPTY, ops);
    var h := Run(EMPTY, ops);
    forall i | 0 <= i < |h.links| ensures h.records[i].status == Active <==> h.heads[h.links[i].chain] == i {
      assert Headed(h, h.links[i].chain);
      if h.records[i].status == Active {
        HeadIsLast(h, i);
      }
    }
  }

  /* ------------------------------------------------------------------ a chain only grows */

  /** Within a chain every later record has grown from every earlier one. */
  lemma {:induction false} ChainGrows(h: History, i: nat, j: nat)
    requires AllInPlace(h) && AllOrdered(h) && i < |h.links| && j < |h.links|
    requires h.links[i].chain == h.links[j].chain && h.links[i].pos <= h.links[j].pos
    ensures Grows(h.records[i], h.records[j]) && h.records[i].version <= h.records[j].version
    decreases j
  {
    assert InPlace(h, i) && InPlace(h, j);
    assert j < i ==> Ordered(h, j, i);
    if i < j {
      assert Ordered(h, i, j);
      ChainGrows(h, i, h.links[j].prev);
      GrowsTransitive(h.records[i], h.records[h.links[j].prev], h.records[j]);
    }
  }

  lemma {:induction false} RunKin(h: History, ops: seq<Op>, i: nat)
    requires Shape(h) && i < |h.links|
    ensures var n := Run(h, ops); i < |n.links| && n.links[i] == h.links[i] && Kin(h.records[i], n.records[i])
    decreases |ops|
  {
    if ops == [] {
    } else {
      StepKin(h, ops[0], i);
      RunKin(Step(h, ops[0]), ops[1..], i);
    }
  }

  lemma {:induction false} HeadFurthest(h: History, i: nat)
    requires AllOrdered(h) && AllHeaded(h) && i < |h.links|
    ensures var head := h.heads[h.links[i].chain]; head < |h.links| && h.links[i].pos <= h.links[head].pos
    ensures h.links[h.heads[h.links[i].chain]].chain == h.links[i].chain
  {
    var head := h.heads[h.links[i].chain];
    assert Headed(h, h.links[i].chain);
    assert i < head ==> Ordered(h, i, head);
    assert head < i ==> Ordered(h, head, i);
  }

  /** Whatever is saved later, the active record of a chain has at least the depth, slot ranks, claim
      confidence and version of the one active before, and its citations begin with that one's. */
  lemma {:induction false} HeadsOnlyGrow(h: History, ops: seq<Op>, i: nat)
    requires Chained(h) && MintedOps(ops) && i < |h.links|
    ensures
      var n := Run(h, ops);
      && i < |n.links|
      && n.links[i] == h.links[i]
      && n.heads[h.links[i].chain] < |n.records|
      && Grows(h.records[i], n.records[n.heads[h.links[i].chain]])
      && h.records[i].version <= n.records[n.heads[h.links[i].chain]].version
  {
    var n := Run(h, ops);
    RunChained(h, ops);
    RunKin(h, ops, i);
    HeadFurthest(n, i);
    var head := n.heads[n.links[i].chain];
    ChainGrows(n, i, head);
    KinGrows(n.records[i], n.records[head], h.records[i], n.records[head]);
  }

  /** A save extends a chain exactly when the prior id names an active record; a stale or superseded id
      starts a new chain at version 1. */
  lemma {:induction false} SaveExtendsIff(h: History, latest: Record, priorId: Option<string>)
    requires Shape(h) && Minted(latest)
    ensures
      var n := Step(h, SaveOp(latest, priorId));
      && (|n.heads| == |h.heads| <==> exists i :: 0 <= i < |h.records| && Names(h.records[i], priorId))
      && (|n.heads| != |h.heads| ==> |n.heads| == |h.heads| + 1 && n.records == h.records + [latest])
  {
    var at := Find(h.records, priorId);
    if at < |h.records| {
      assert Names(h.records[at], priorId);
    }
  }
}
