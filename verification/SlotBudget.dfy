/** Enrich-call budgets per coverage slot: a weighted quota, a draining simulation under three
    strategies, and the waste each one leaves. Weights are in quarter units; shares are
    computed on exact rationals. */
module SlotBudget {
  import opened Common
  import opened Rounding

  datatype Status = Open | Weak | Covered | Other

  /** A weight in quarter units: every weight the source assigns is positive. */
  type Weight = w: nat | w >= 1 witness 1

  datatype Slot = Slot(id: string, title: string, status: Status, weight: Weight, need: nat)

  predicate IsOpen(s: Slot) {
    s.status.Open? || s.status.Weak?
  }

  function OpenSlots(slots: seq<Slot>): seq<Slot> {
    if slots == [] then []
    else (if IsOpen(slots[0]) then [slots[0]] else []) + OpenSlots(slots[1..])
  }

  /* ------------------------------------------------------------------ insertion-ordered dicts */

  type Dict = seq<(string, int)>

  function Get(d: Dict, k: string): int {
    if d == [] then 0 else if d[0].0 == k then d[0].1 else Get(d[1..], k)
  }

  /** Replace the value of a known key in place, or append a new key. */
  function Put(d: Dict, k: string, v: int): Dict {
    if d == [] then [(k, v)]
    else if d[0].0 == k then [(k, v)] + d[1..]
    else [d[0]] + Put(d[1..], k, v)
  }

  function Keys(d: Dict): seq<string> {
    if d == [] then [] else [d[0].0] + Keys(d[1..])
  }

  function Sum(d: Dict): int {
    if d == [] then 0 else d[0].1 + Sum(d[1..])
  }

  lemma {:induction false} PutSum(d: Dict, k: string, v: int)
    ensures Sum(Put(d, k, v)) == Sum(d) - (if k in Keys(d) then Get(d, k) else 0) + v
    ensures Get(Put(d, k, v), k) == v
    ensures forall x :: x != k ==> Get(Put(d, k, v), x) == Get(d, x)
    ensures Keys(Put(d, k, v)) == if k in Keys(d) then Keys(d) else Keys(d) + [k]
  {
    if d == [] {
    } else if d[0].0 == k {
    } else {
      PutSum(d[1..], k, v);
    }
  }

  /* ------------------------------------------------------------------ the weighted quota */

  function Key(s: Slot): string {
    if s.id != "" then s.id else s.title
  }

  function TotalWeight(slots: seq<Slot>): (total: nat)
    ensures slots != [] ==> total >= 1
  {
    if slots == [] then 0 else slots[0].weight + TotalWeight(slots[1..])
  }

  /** A slot's rounded share of the cap, at least one call. */
  function Share(cap: nat, weight: nat, total: nat): (share: nat)
    requires total > 0
  {
    var exact := RoundHalfEven(cap * weight, total);
    if exact >= 1 then exact else 1
  }

  function Shares(gaps: seq<Slot>, cap: nat, total: nat): (shares: seq<nat>)
    requires total > 0
    ensures |shares| == |gaps|
  {
    if gaps == [] then [] else [Share(cap, gaps[0].weight, total)] + Shares(gaps[1..], cap, total)
  }

  /** Serve the slots in order; `shares` are what they would like. */
  function Assign(gaps: seq<Slot>, shares: seq<nat>, remaining: nat, out: Dict): Dict
    requires |gaps| == |shares|
    decreases |gaps|
  {
    if gaps == [] then out
    else if Key(gaps[0]) == "" || remaining == 0 then Assign(gaps[1..], shares[1..], remaining, out)
    else
      var take := Min(shares[0], remaining);
      Assign(gaps[1..], shares[1..], remaining - take, Put(out, Key(gaps[0]), take))
  }

  function SlotEnrichQuota(slots: seq<Slot>, cap: nat): Dict {
    var gaps := OpenSlots(slots);
    if gaps == [] || cap == 0 then []
    else Assign(gaps, Shares(gaps, cap, TotalWeight(gaps)), cap, [])
  }

  method ComputeTotalWeight(gaps: seq<Slot>) returns (total: nat)
    ensures total == TotalWeight(gaps)
  {
    total := 0;
    for i := 0 to |gaps|
      invariant total + TotalWeight(gaps[i..]) == TotalWeight(gaps)
    {
      total := total + gaps[i].weight;
    }
  }

  method ComputeQuota(slots: seq<Slot>, cap: nat) returns (out: Dict)
    ensures out == SlotEnrichQuota(slots, cap)
  {
    var gaps := OpenSlots(slots);
    out := [];
    if gaps == [] || cap == 0 {
      return;
    }
    var total := ComputeTotalWeight(gaps);
    var remaining := cap;
    for i := 0 to |gaps|
      invariant 0 <= remaining
      invariant Assign(gaps[i..], Shares(gaps[i..], cap, total), remaining, out) == SlotEnrichQuota(slots, cap)
    {
      var key := Key(gaps[i]);
      var share := Share(cap, gaps[i].weight, total);
      assert Shares(gaps[i..], cap, total) == [share] + Shares(gaps[i + 1..], cap, total);
      if key == "" || remaining == 0 {
        continue;
      }
      var take := Min(share, remaining);
      out := Put(out, key, take);
      remaining := remaining - take;
    }
  }

  /* ------------------------------------------------------------------ the rounding bound */

  ghost predicate Positive(d: Dict) {
    forall i :: 0 <= i < |d| ==> d[i].1 >= 1
  }

  lemma {:induction false} PutPositive(d: Dict, k: string, v: int)
    requires Positive(d) && v >= 1
    ensures Positive(Put(d, k, v))
    ensures k in Keys(d) ==> Get(d, k) >= 1
  {
    if d == [] {
    } else {
      assert forall i :: 0 <= i < |d| - 1 ==> d[1..][i] == d[i + 1];
      if d[0].0 != k {
        PutPositive(d[1..], k, v);
      }
    }
  }

  ghost predicate AtLeastOne(shares: seq<nat>) {
    forall i :: 0 <= i < |shares| ==> shares[i] >= 1
  }

  lemma {:induction false} SharesAtLeastOne(gaps: seq<Slot>, cap: nat, total: nat)
    requires total > 0
    ensures AtLeastOne(Shares(gaps, cap, total))
  {
    if gaps == [] {
    } else {
      SharesAtLeastOne(gaps[1..], cap, total);
    }
  }

  /** For any slots, even with repeated or blank keys: every quota is at least one call, and
      the quotas never add up to more than the cap. */
  lemma {:induction false} AssignWithinCap(gaps: seq<Slot>, shares: seq<nat>, cap: nat, remaining: nat, out: Dict)
    requires |gaps| == |shares| && AtLeastOne(shares)
    requires Positive(out) && Sum(out) + remaining <= cap
    ensures Positive(Assign(gaps, shares, remaining, out))
    ensures Sum(Assign(gaps, shares, remaining, out)) <= cap
    decreases |gaps|
  {
    if gaps == [] {
    } else if Key(gaps[0]) == "" || remaining == 0 {
      AssignWithinCap(gaps[1..], shares[1..], cap, remaining, out);
    } else {
      var take := Min(shares[0], remaining);
      PutSum(out, Key(gaps[0]), take);
      PutPositive(out, Key(gaps[0]), take);
      AssignWithinCap(gaps[1..], shares[1..], cap, remaining - take, Put(out, Key(gaps[0]), take));
    }
  }

  function SlotKeys(slots: seq<Slot>): seq<string> {
    seq(|slots|, i requires 0 <= i < |slots| => Key(slots[i]))
  }

  /** Keys that the quota can tell apart. */
  ghost predicate KeysTellApart(gaps: seq<Slot>) {
    Distinct(SlotKeys(gaps)) && "" !in SlotKeys(gaps)
  }

  function Total(shares: seq<nat>): nat {
    if shares == [] then 0 else shares[0] + Total(shares[1..])
  }

  /** With distinct keys the slots are served in order until the cap is gone, so those left
      with none form a suffix; and either the cap is gone or every slot got its share. */
  lemma {:induction false} AssignServesPrefix(done: seq<Slot>, gaps: seq<Slot>, shares: seq<nat>, remaining: nat,
                                               out: Dict)
    requires |gaps| == |shares|
    requires KeysTellApart(done + gaps) && Keys(out) == SlotKeys(done)
    ensures
      var quota := Assign(gaps, shares, remaining, out);
      && Keys(quota) <= SlotKeys(done + gaps)
      && (Sum(quota) == Sum(out) + remaining ||
          (Keys(quota) == SlotKeys(done + gaps) && Sum(quota) == Sum(out) + Total(shares)))
    decreases |gaps|
  {
    if gaps == [] {
      assert done + gaps == done;
    } else if remaining == 0 {
      AssignNothing(gaps, shares, out);
      assert SlotKeys(done + gaps)[..|done|] == SlotKeys(done);
    } else {
      NextKeyIsNew(done, gaps);
      var take := Min(shares[0], remaining);
      var out' := Put(out, Key(gaps[0]), take);
      PutSum(out, Key(gaps[0]), take);
      assert done + [gaps[0]] + gaps[1..] == done + gaps;
      AssignServesPrefix(done + [gaps[0]], gaps[1..], shares[1..], remaining - take, out');
      if take != shares[0] {
        AssignNothing(gaps[1..], shares[1..], out');
      }
    }
  }

  lemma {:induction false} NextKeyIsNew(done: seq<Slot>, gaps: seq<Slot>)
    requires gaps != [] && KeysTellApart(done + gaps)
    ensures Key(gaps[0]) != "" && Key(gaps[0]) !in SlotKeys(done)
    ensures SlotKeys(done + [gaps[0]]) == SlotKeys(done) + [Key(gaps[0])]
  {
    var keys := SlotKeys(done + gaps);
    assert keys[|done|] == Key(gaps[0]);
    forall i | 0 <= i < |done| ensures keys[i] == SlotKeys(done)[i] {
    }
  }

  lemma {:induction false} AssignNothing(gaps: seq<Slot>, shares: seq<nat>, out: Dict)
    requires |gaps| == |shares|
    ensures Assign(gaps, shares, 0, out) == out
    decreases |gaps|
  {
    if gaps == [] {
    } else {
      AssignNothing(gaps[1..], shares[1..], out);
    }
  }

  /** Each share is at least the exact share less a half. */
  lemma {:induction false} ShareBound(cap: nat, weight: nat, total: nat)
    requires total > 0
    ensures 2 * (total * Share(cap, weight, total)) >= 2 * (cap * weight) - total
  {
    var exact := RoundHalfEven(cap * weight, total);
    if exact < 1 {
      ProductNonneg(total, -exact);
      assert total * exact == -(total * (-exact));
    }
  }

  lemma {:induction false} SharesBound(gaps: seq<Slot>, cap: nat, total: nat)
    requires total > 0
    ensures 2 * (total * Total(Shares(gaps, cap, total))) >= 2 * (cap * TotalWeight(gaps)) - total * |gaps|
    decreases |gaps|
  {
    if gaps == [] {
    } else {
      var w, rest := gaps[0].weight, gaps[1..];
      ShareBound(cap, w, total);
      SharesBound(rest, cap, total);
      ShareStep(total, cap, Share(cap, w, total), w, TotalWeight(rest), Total(Shares(rest, cap, total)), |rest|);
    }
  }

  lemma {:induction false} ShareStep(total: nat, cap: nat, share: nat, weight: nat, restWeight: nat, restSum: int,
                                      rest: nat)
    requires 2 * (total * share) >= 2 * (cap * weight) - total
    requires 2 * (total * restSum) >= 2 * (cap * restWeight) - total * rest
    ensures 2 * (total * (share + restSum)) >= 2 * (cap * (weight + restWeight)) - total * (rest + 1)
  {
    assert total * (share + restSum) == total * share + total * restSum;
    assert cap * (weight + restWeight) == cap * weight + cap * restWeight;
    assert total * (rest + 1) == total * rest + total;
  }

  lemma {:induction false} CancelFactor(total: nat, sum: int, cap: nat, n: nat)
    requires total > 0 && 2 * (total * sum) >= 2 * (cap * total) - total * n
    ensures 2 * sum >= 2 * cap - n
  {
    var d := 2 * cap - n - 2 * sum;
    assert total * d == 2 * (cap * total) - total * n - 2 * (total * sum);
    if d > 0 {
      MulStep(total, 0, d);
    }
  }

  /** The quota of distinct open slots: at least one call each, served in order, never more
      than the cap in all, and at most half a call per slot is left unassigned. */
  lemma {:induction false} QuotaRoundingBound(slots: seq<Slot>, cap: nat)
    requires KeysTellApart(OpenSlots(slots)) && OpenSlots(slots) != []
    ensures
      var quota, n := SlotEnrichQuota(slots, cap), |OpenSlots(slots)|;
      && Positive(quota)
      && Keys(quota) <= SlotKeys(OpenSlots(slots))
      && (Keys(quota) != SlotKeys(OpenSlots(slots)) ==> Sum(quota) == cap)
      && 0 <= 2 * (cap - Sum(quota)) <= n
  {
    var gaps := OpenSlots(slots);
    var total := TotalWeight(gaps);
    var shares := Shares(gaps, cap, total);
    if cap > 0 {
      assert [] + gaps == gaps;
      SharesAtLeastOne(gaps, cap, total);
      AssignServesPrefix([], gaps, shares, cap, []);
      AssignWithinCap(gaps, shares, cap, cap, []);
      SharesBound(gaps, cap, total);
      CancelFactor(total, Total(shares), cap, |gaps|);
    }
  }

  /** The bound is reached: two equal slots share a cap of five as two and two. */
  lemma {:induction false} RoundingBoundIsTight()
    ensures
      var slots := [Slot("a", "", Open, 4, 5), Slot("b", "", Open, 4, 5)];
      2 * (5 - Sum(SlotEnrichQuota(slots, 5))) == |OpenSlots(slots)|
  {
    var slots := [Slot("a", "", Open, 4, 5), Slot("b", "", Open, 4, 5)];
    assert slots[1..] == [slots[1]];
    assert OpenSlots(slots[1..]) == [slots[1]];
    assert OpenSlots(slots) == slots;
    assert TotalWeight(slots[1..]) == 4;
    assert RoundHalfEven(20, 8) == 2;
    assert Shares(slots[1..], 5, 8) == [2];
    assert Shares(slots, 5, 8) == [2, 2];
    var one := Put([], "a", 2);
    assert Put(one, "b", 2) == [("a", 2), ("b", 2)];
    assert Assign(slots[1..], [2], 3, one) == Assign([], [], 1, Put(one, "b", 2));
    assert [2, 2][1..] == [2];
    var quota := SlotEnrichQuota(slots, 5);
    assert quota == [("a", 2), ("b", 2)];
    assert quota[1..] == [("b", 2)] && Sum(quota[1..]) == 2;
  }
}
