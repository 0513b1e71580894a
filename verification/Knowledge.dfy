/** The store of answered questions: each save of a better-covered answer supersedes the record it
    builds on and carries its sources, claims and slots forward. */
module Knowledge {
  import opened Common
  import opened Rounding

  const MAX_CITATIONS: nat := 28
  const MAX_CLAIMS: nat := 16

  /** `key` is the canonical source key; it may be blank. */
  datatype Citation = Citation(key: string, id: string)

  /** `key` is the slot the claim speaks to, or else the start of its text. */
  datatype Claim = Claim(key: string, confidence: real)

  datatype Coverage = Covered | Weak | Open | Unknown
  datatype Slot = Slot(id: string, coverage: Coverage)

  datatype Status = Active | Superseded

  datatype Record = Record(id: string, answer: string, depth: nat, version: nat, reuse: nat, status: Status,
                           citations: seq<Citation>, claims: seq<Claim>, slots: seq<Slot>)

  /* ------------------------------------------------------------------ merging the parts */

  predicate HasKey(citations: seq<Citation>, key: string) {
    citations != [] && (citations[0].key == key || HasKey(citations[1..], key))
  }

  function AddCitations(known: seq<Citation>, more: seq<Citation>): seq<Citation>
    decreases |more|
  {
    if more == [] then known
    else if more[0].key != "" && !HasKey(known, more[0].key) then AddCitations(known + [more[0]], more[1..])
    else AddCitations(known, more[1..])
  }

  function MergeCitations(prior: seq<Citation>, latest: seq<Citation>): seq<Citation> {
    var all := AddCitations(prior, latest);
    if |all| <= MAX_CITATIONS then all else all[..MAX_CITATIONS]
  }

  /** Claims by key, in order of first appearance; a claim gives way only to a more confident one. */
  function PutClaim(claims: seq<Claim>, c: Claim): seq<Claim> {
    if claims == [] then [c]
    else if claims[0].key == c.key then
      if c.confidence > claims[0].confidence then [c] + claims[1..] else claims
    else [claims[0]] + PutClaim(claims[1..], c)
  }

  function PutClaims(claims: seq<Claim>, more: seq<Claim>): seq<Claim>
    decreases |more|
  {
    if more == [] then claims else PutClaims(PutClaim(claims, more[0]), more[1..])
  }

  function MergeClaims(prior: seq<Claim>, latest: seq<Claim>): seq<Claim> {
    var all := PutClaims(PutClaims([], prior), latest);
    if |all| <= MAX_CLAIMS then all else all[..MAX_CLAIMS]
  }

  function RankOf(c: Coverage): nat {
    match c case Covered => 3 case Weak => 2 case Open => 1 case Unknown => 0
  }

  /** Rank of a slot id; of several entries the last one speaks. -1 when absent. */
  function Rank(slots: seq<Slot>, id: string): int {
    if slots == [] then -1
    else if Rank(slots[1..], id) >= 0 then Rank(slots[1..], id)
    else if slots[0].id == id then RankOf(slots[0].coverage)
    else -1
  }

  function SetSlot(slots: seq<Slot>, s: Slot): seq<Slot> {
    if slots == [] then [s]
    else if slots[0].id == s.id then [s] + slots[1..]
    else [slots[0]] + SetSlot(slots[1..], s)
  }

  function SetSlots(slots: seq<Slot>, more: seq<Slot>): seq<Slot>
    decreases |more|
  {
    if more == [] then slots else SetSlots(SetSlot(slots, more[0]), more[1..])
  }

  function RaiseSlots(slots: seq<Slot>, more: seq<Slot>): seq<Slot>
    decreases |more|
  {
    if more == [] then slots
    else if RankOf(more[0].coverage) >= Rank(slots, more[0].id) then RaiseSlots(SetSlot(slots, more[0]), more[1..])
    else RaiseSlots(slots, more[1..])
  }

  function MergeSlots(prior: seq<Slot>, latest: seq<Slot>): seq<Slot> {
    RaiseSlots(SetSlots([], prior), latest)
  }

  /* ------------------------------------------------------------------ merging records, saving, reusing */

  function Merge(prior: Record, latest: Record): Record {
    var better := if latest.depth >= prior.depth then latest else prior;
    Record(latest.id,
           if better.answer != "" then better.answer else prior.answer,
           if latest.depth >= prior.depth then latest.depth else prior.depth,
           prior.version + 1, prior.reuse, Active,
           MergeCitations(prior.citations, latest.citations),
           MergeClaims(prior.claims, latest.claims),
           MergeSlots(prior.slots, latest.slots))
  }

  predicate Names(r: Record, id: Option<string>) {
    id.Some? && r.id == id.value && r.status == Active
  }

  /** Index of the first active record with that id, or the length of the list. */
  function Find(records: seq<Record>, id: Option<string>): (i: nat)
    ensures i <= |records|
    ensures i < |records| ==> Names(records[i], id)
    ensures forall k :: 0 <= k < i ==> !Names(records[k], id)
  {
    if records == [] || Names(records[0], id) then 0 else 1 + Find(records[1..], id)
  }

  function Save(records: seq<Record>, latest: Record, priorId: Option<string>): seq<Record> {
    var at := Find(records, priorId);
    if at == |records| then records + [latest]
    else records[at := records[at].(status := Superseded)] + [Merge(records[at], latest)]
  }

  function MarkReused(records: seq<Record>, id: string): seq<Record> {
    var at := Find(records, Some(id));
    if id == "" || at == |records| then records
    else records[at := records[at].(reuse := records[at].reuse + 1)]
  }

  /** Reuse over the active records, as the statistics report it. */
  function TotalReuse(records: seq<Record>): nat {
    if records == [] then 0
    else (if records[0].status == Active then records[0].reuse else 0) + TotalReuse(records[1..])
  }

  function ActiveRecords(records: seq<Record>): nat {
    if records == [] then 0 else (if records[0].status == Active then 1 else 0) + ActiveRecords(records[1..])
  }

  function TotalDepth(records: seq<Record>): nat {
    if records == [] then 0
    else (if records[0].status == Active then records[0].depth else 0) + TotalDepth(records[1..])
  }

  /** Counts over active records; the average depth is in tenths. */
  datatype Stats = Stats(records: nat, reuse: nat, depthTenths: int)

  /* ------------------------------------------------------------------ the store of the program */

  class KnowledgeStore {
    var memory: seq<Record>

    constructor ()
      ensures memory == []
    {
      memory := [];
    }

    method MergeRecords(prior: Record, latest: Record) returns (merged: Record)
      ensures merged == Merge(prior, latest)
    {
      var citations := prior.citations;
      for i := 0 to |latest.citations|
        invariant AddCitations(citations, latest.citations[i..]) == AddCitations(prior.citations, latest.citations)
      {
        var c := latest.citations[i];
        assert latest.citations[i..][1..] == latest.citations[i + 1..];
        if c.key != "" && !HasKey(citations, c.key) {
          citations := citations + [c];
        }
      }
      var claims := CollectClaims(prior.claims, latest.claims);
      var slots := CollectSlots(prior.slots, latest.slots);
      var better := if latest.depth >= prior.depth then latest else prior;
      merged := prior.(id := latest.id,
                       answer := if better.answer != "" then better.answer else prior.answer,
                       claims := if |claims| <= MAX_CLAIMS then claims else claims[..MAX_CLAIMS],
                       citations := if |citations| <= MAX_CITATIONS then citations else citations[..MAX_CITATIONS],
                       slots := slots,
                       depth := if latest.depth >= prior.depth then latest.depth else prior.depth,
                       version := prior.version + 1,
                       status := Active);
    }

    method CollectClaims(prior: seq<Claim>, latest: seq<Claim>) returns (claims: seq<Claim>)
      ensures claims == PutClaims(PutClaims([], prior), latest)
    {
      claims := [];
      for i := 0 to |prior|
        invariant PutClaims(claims, prior[i..]) == PutClaims([], prior)
      {
        assert prior[i..][1..] == prior[i + 1..];
        claims := PutClaim(claims, prior[i]);
      }
      for i := 0 to |latest|
        invariant PutClaims(claims, latest[i..]) == PutClaims(PutClaims([], prior), latest)
      {
        assert latest[i..][1..] == latest[i + 1..];
        claims := PutClaim(claims, latest[i]);
      }
    }

    method CollectSlots(prior: seq<Slot>, latest: seq<Slot>) returns (slots: seq<Slot>)
      ensures slots == MergeSlots(prior, latest)
    {
      slots := [];
      for i := 0 to |prior|
        invariant SetSlots(slots, prior[i..]) == SetSlots([], prior)
      {
        assert prior[i..][1..] == prior[i + 1..];
        slots := SetSlot(slots, prior[i]);
      }
      for i := 0 to |latest|
        invariant RaiseSlots(slots, latest[i..]) == MergeSlots(prior, latest)
      {
        assert latest[i..][1..] == latest[i + 1..];
        if RankOf(latest[i].coverage) >= Rank(slots, latest[i].id) {
          slots := SetSlot(slots, latest[i]);
        }
      }
    }

    method FindActive(id: Option<string>) returns (at: nat)
      ensures at == Find(memory, id)
    {
      at := 0;
      while at < |memory| && !Names(memory[at], id)
        invariant at <= |memory|
        invariant at + Find(memory[at..], id) == Find(memory, id)
      {
        assert memory[at..][1..] == memory[at + 1..];
        at := at + 1;
      }
    }

    method MemorySave(latest: Record, priorId: Option<string>) returns (record: Record)
      modifies this
      ensures memory == Save(old(memory), latest, priorId)
      ensures memory != [] && record == memory[|memory| - 1]
    {
      var at := FindActive(priorId);
      if at < |memory| {
        record := MergeRecords(memory[at], latest);
        memory := memory[at := memory[at].(status := Superseded)];
      } else {
        record := latest;
      }
      memory := memory + [record];
    }

    method Reuse(id: string)
      modifies this
      ensures memory == MarkReused(old(memory), id)
    {
      if id == "" {
        return;
      }
      var at := FindActive(Some(id));
      if at < |memory| {
        memory := memory[at := memory[at].(reuse := memory[at].reuse + 1)];
      }
    }

    method Summarize() returns (stats: Stats)
      ensures stats.records == ActiveRecords(memory) && stats.reuse == TotalReuse(memory)
      ensures stats.depthTenths == RoundHalfEven(10 * TotalDepth(memory), Max(1, ActiveRecords(memory)))
    {
      var count, reuse, depth := 0, 0, 0;
      for i := 0 to |memory|
        invariant count + ActiveRecords(memory[i..]) == ActiveRecords(memory)
        invariant reuse + TotalReuse(memory[i..]) == TotalReuse(memory)
        invariant depth + TotalDepth(memory[i..]) == TotalDepth(memory)
      {
        assert memory[i..][1..] == memory[i + 1..];
        if memory[i].status == Active {
          count, reuse, depth := count + 1, reuse + memory[i].reuse, depth + memory[i].depth;
        }
      }
      stats := Stats(count, reuse, RoundHalfEven(10 * depth, Max(1, count)));
    }
  }
}
