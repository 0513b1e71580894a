/** The three enrich strategies drained against declared needs, and the calls each wastes. */
module SlotWaste {
  import opened Common
  import opened Rounding
  import opened SlotBudget

  datatype Strategy = Global | Quota | Reclaim

  function Ids(slots: seq<Slot>): seq<string> {
    seq(|slots|, i requires 0 <= i < |slots| => slots[i].id)
  }

  function Needs(slots: seq<Slot>, d: Dict): Dict
    decreases |slots|
  {
    if slots == [] then d else Needs(slots[1..], Put(d, slots[0].id, slots[0].need))
  }

  function Zeros(slots: seq<Slot>, d: Dict): Dict
    decreases |slots|
  {
    if slots == [] then d else Zeros(slots[1..], Put(d, slots[0].id, 0))
  }

  /** Stable sort of ids by falling need. */
  function InsertByNeed(k: string, sorted: seq<string>, needs: Dict): seq<string> {
    if sorted == [] || Get(needs, k) >= Get(needs, sorted[0]) then [k] + sorted
    else [sorted[0]] + InsertByNeed(k, sorted[1..], needs)
  }

  function SortByNeed(keys: seq<string>, needs: Dict): seq<string> {
    if keys == [] then [] else InsertByNeed(keys[0], SortByNeed(keys[1..], needs), needs)
  }

  /** The first slot that the given text identifies, if any, is covered. */
  predicate FirstIsCovered(slots: seq<Slot>, k: string, text: Slot -> string) {
    slots != [] &&
    if text(slots[0]) == k then slots[0].status.Covered? else FirstIsCovered(slots[1..], k, text)
  }

  /** Unused quota of slots that turned out covered. */
  function ReclaimBonus(quotas: Dict, used: Dict, slots: seq<Slot>): nat {
    if quotas == [] then 0
    else
      (if FirstIsCovered(slots, quotas[0].0, Key) && quotas[0].1 > Get(used, quotas[0].0)
       then quotas[0].1 - Get(used, quotas[0].0) else 0)
      + ReclaimBonus(quotas[1..], used, slots)
  }

  function ReclaimEnrichCap(fetchCap: int, quotas: Dict, used: Dict, slots: seq<Slot>): int {
    fetchCap + ReclaimBonus(quotas, used, slots)
  }

  /** Serve ids in order, each up to its limit, from a pool. */
  function Drain(order: seq<string>, limits: Dict, used: Dict, pool: int): (Dict, int)
    decreases |order|
  {
    if order == [] then (used, pool)
    else
      var take := Min(Get(limits, order[0]), pool);
      Drain(order[1..], limits, Put(used, order[0], take), pool - take)
  }

  /** Serve what is still missing on one id, as far as the pool goes. */
  function ServeMore(id: string, needs: Dict, used: Dict, pool: int): (Dict, int) {
    if Get(used, id) >= Get(needs, id) then (used, pool)
    else
      var extra := Min(Get(needs, id) - Get(used, id), pool);
      (Put(used, id, Get(used, id) + extra), pool - extra)
  }

  /** Second pass: serve open need that is still unmet. */
  function TopUp(order: seq<string>, needs: Dict, used: Dict, pool: int): (Dict, int)
    decreases |order|
  {
    if order == [] || pool <= 0 then (used, pool)
    else
      var t := ServeMore(order[0], needs, used, pool);
      TopUp(order[1..], needs, t.0, t.1)
  }

  /** What each open slot may take in the first pass: its need, capped by its quota, which is
      void for a slot that is covered by the time it is reclaimed. */
  function Limits(order: seq<string>, needs: Dict, quotas: Dict, slots: seq<Slot>, strategy: Strategy): Dict {
    if order == [] then []
    else
      var quota := if strategy.Reclaim? && FirstIsCovered(slots, order[0], (s: Slot) => s.id) then 0
                   else Get(quotas, order[0]);
      [(order[0], Min(Get(needs, order[0]), quota))] + Limits(order[1..], needs, quotas, slots, strategy)
  }

  function PutAll(d: Dict, more: Dict): Dict
    decreases |more|
  {
    if more == [] then d else PutAll(Put(d, more[0].0, more[0].1), more[1..])
  }

  function OpenNeeds(slots: seq<Slot>): Dict {
    Needs(OpenSlots(slots), [])
  }

  function OpenOrder(slots: seq<Slot>): seq<string> {
    SortByNeed(Keys(OpenNeeds(slots)), OpenNeeds(slots))
  }

  function Quotas(slots: seq<Slot>, cap: nat): Dict {
    SlotEnrichQuota(OpenSlots(slots), cap)
  }

  /** First pass over the open slots: calls used and calls left. */
  function FirstPass(slots: seq<Slot>, cap: nat, strategy: Strategy): (Dict, int) {
    var order := OpenOrder(slots);
    Drain(order, Limits(order, OpenNeeds(slots), Quotas(slots, cap), slots, strategy), Zeros(OpenSlots(slots), []), cap)
  }

  /** Second pass, with whatever covered slots give back. */
  function SecondPass(slots: seq<Slot>, cap: nat): (Dict, int) {
    var first := FirstPass(slots, cap, Reclaim);
    TopUp(OpenOrder(slots), OpenNeeds(slots), first.0, ReclaimEnrichCap(first.1, Quotas(slots, cap), first.0, slots))
  }

  /** Per-slot calls spent under a strategy. */
  function Simulate(slots: seq<Slot>, cap: nat, strategy: Strategy): Dict {
    var allNeeds, zeros := Needs(slots, []), Zeros(slots, []);
    match strategy
    case Global => Drain(SortByNeed(Keys(allNeeds), allNeeds), allNeeds, zeros, cap).0
    case Quota => PutAll(zeros, FirstPass(slots, cap, Quota).0)
    case Reclaim => PutAll(zeros, SecondPass(slots, cap).0)
  }

  function CoveredIds(slots: seq<Slot>): set<string> {
    if slots == [] then {}
    else (if slots[0].status.Covered? && slots[0].id != "" then {slots[0].id} else {}) + CoveredIds(slots[1..])
  }

  /** Calls spent on the ids inside (or outside) a set. */
  function Spent(used: Dict, ids: set<string>, inside: bool): int {
    if used == [] then 0
    else (if (used[0].0 in ids) == inside then used[0].1 else 0) + Spent(used[1..], ids, inside)
  }

  function OpenNeed(slots: seq<Slot>): nat {
    if slots == [] then 0 else (if IsOpen(slots[0]) then slots[0].need else 0) + OpenNeed(slots[1..])
  }

  /** Calls spent on covered slots plus open need left unserved. */
  function Misallocated(used: Dict, slots: seq<Slot>): int {
    var covered := CoveredIds(slots);
    Spent(used, covered, true) + Max(0, OpenNeed(slots) - Spent(used, covered, false))
  }

  datatype Comparison = Comparison(globalWaste: int, quotaWaste: int, reclaimWaste: int, quotaPct: int,
                                   reclaimPct: int, needsFullReclaim: bool)

  function ImprovementPct(waste: int, base: int): int {
    var baseline := if base == 0 then 1 else base;
    if baseline > 0 then RoundHalfEven(100 * (baseline - waste), baseline) else 0
  }

  function SimulateEnrichWaste(slots: seq<Slot>, cap: nat): Comparison {
    var g := Misallocated(Simulate(slots, cap, Global), slots);
    var q := Misallocated(Simulate(slots, cap, Quota), slots);
    var r := Misallocated(Simulate(slots, cap, Reclaim), slots);
    Comparison(g, q, r, ImprovementPct(q, g), ImprovementPct(r, g), ImprovementPct(q, g) < 70)
  }

  /* ------------------------------------------------------------------ the loops */

  method DrainPass(order: seq<string>, limits: Dict, start: Dict, budget: int) returns (used: Dict, pool: int)
    ensures (used, pool) == Drain(order, limits, start, budget)
  {
    used, pool := start, budget;
    for i := 0 to |order|
      invariant Drain(order[i..], limits, used, pool) == Drain(order, limits, start, budget)
    {
      var take := Min(Get(limits, order[i]), pool);
      used := Put(used, order[i], take);
      pool := pool - take;
    }
  }

  method TopUpPass(order: seq<string>, needs: Dict, start: Dict, budget: int) returns (used: Dict, pool: int)
    ensures (used, pool) == TopUp(order, needs, start, budget)
  {
    used, pool := start, budget;
    for i := 0 to |order|
      invariant TopUp(order[i..], needs, used, pool) == TopUp(order, needs, start, budget)
    {
      if pool <= 0 {
        break;
      }
      if Get(used, order[i]) >= Get(needs, order[i]) {
        continue;
      }
      var extra := Min(Get(needs, order[i]) - Get(used, order[i]), pool);
      used := Put(used, order[i], Get(used, order[i]) + extra);
      pool := pool - extra;
    }
  }

  method ComputeReclaimCap(fetchCap: int, quotas: Dict, used: Dict, slots: seq<Slot>) returns (effective: int)
    ensures effective == ReclaimEnrichCap(fetchCap, quotas, used, slots)
  {
    var bonus := 0;
    for i := 0 to |quotas|
      invariant bonus + ReclaimBonus(quotas[i..], used, slots) == ReclaimBonus(quotas, used, slots)
    {
      var (sid, quota) := quotas[i];
      if FirstIsCovered(slots, sid, Key) {
        bonus := bonus + Max(0, quota - Get(used, sid));
      }
    }
    return fetchCap + bonus;
  }

  method SimulateSlotEnrich(slots: seq<Slot>, cap: nat, strategy: Strategy) returns (used: Dict)
    ensures used == Simulate(slots, cap, strategy)
  {
    var allNeeds, zeros := Needs(slots, []), Zeros(slots, []);
    if strategy.Global? {
      var pool;
      used, pool := DrainPass(SortByNeed(Keys(allNeeds), allNeeds), allNeeds, zeros, cap);
      return;
    }
    var quotas := ComputeQuota(OpenSlots(slots), cap);
    var needs, order := OpenNeeds(slots), OpenOrder(slots);
    var limits := Limits(order, needs, quotas, slots, strategy);
    var slotUsed, left := DrainPass(order, limits, Zeros(OpenSlots(slots), []), cap);
    if strategy.Reclaim? {
      var pool := ComputeReclaimCap(left, quotas, slotUsed, slots);
      slotUsed, pool := TopUpPass(order, needs, slotUsed, pool);
    }
    used := zeros;
    for i := 0 to |slotUsed|
      invariant PutAll(used, slotUsed[i..]) == PutAll(zeros, slotUsed)
    {
      used := Put(used, slotUsed[i].0, slotUsed[i].1);
    }
  }

  /* ------------------------------------------------------------------ sums over dicts */

  lemma {:induction false} SpentSplits(used: Dict, ids: set<string>)
    ensures Spent(used, ids, true) + Spent(used, ids, false) == Sum(used)
  {
    if used == [] {
    } else {
      SpentSplits(used[1..], ids);
    }
  }

  ghost predicate Nonneg(d: Dict) {
    forall i :: 0 <= i < |d| ==> d[i].1 >= 0
  }

  lemma {:induction false} SpentNonneg(used: Dict, ids: set<string>, inside: bool)
    requires Nonneg(used)
    ensures Spent(used, ids, inside) >= 0
  {
    if used == [] {
    } else {
      assert forall i :: 0 <= i < |used| - 1 ==> used[1..][i] == used[i + 1];
      SpentNonneg(used[1..], ids, inside);
    }
  }

  /** No way of spending at most `cap` calls wastes less than the open need beyond the cap. */
  lemma {:induction false} WasteLowerBound(used: Dict, slots: seq<Slot>, cap: nat)
    requires Nonneg(used) && Sum(used) <= cap
    ensures Misallocated(used, slots) >= Max(0, OpenNeed(slots) - cap)
  {
    var covered := CoveredIds(slots);
    SpentSplits(used, covered);
    SpentNonneg(used, covered, true);
    SpentNonneg(used, covered, false);
  }

  lemma {:induction false} GetInDict(d: Dict, i: nat)
    requires i < |d| && Distinct(Keys(d))
    ensures |Keys(d)| == |d| && Keys(d)[i] == d[i].0 && Get(d, d[i].0) == d[i].1
  {
    KeysAt(d);
    if i > 0 {
      var keys := Keys(d);
      assert keys[0] != keys[i];
      assert forall a, b :: 0 <= a < b < |d| - 1 ==> Keys(d[1..])[a] == keys[a + 1] && Keys(d[1..])[b] == keys[b + 1];
      GetInDict(d[1..], i - 1);
    }
  }

  lemma {:induction false} KeysAt(d: Dict)
    ensures |Keys(d)| == |d|
    ensures forall i :: 0 <= i < |d| ==> Keys(d)[i] == d[i].0
  {
    if d == [] {
    } else {
      KeysAt(d[1..]);
    }
  }

  /** Dicts with the same keys compare sum-wise as they do value-wise. */
  lemma {:induction false} SumAtMost(a: Dict, b: Dict)
    requires Keys(a) == Keys(b) && Distinct(Keys(a))
    requires forall k :: k in Keys(a) ==> Get(a, k) <= Get(b, k)
    ensures Sum(a) <= Sum(b)
  {
    KeysAt(a);
    KeysAt(b);
    if a == [] {
    } else {
      TailGets(a);
      TailGets(b);
      assert Keys(a)[1..] == Keys(a[1..]) && Keys(b)[1..] == Keys(b[1..]);
      assert Keys(a)[0] == a[0].0 && Keys(b)[0] == b[0].0;
      assert Get(a, a[0].0) <= Get(b, b[0].0);
      SumAtMost(a[1..], b[1..]);
    }
  }

  lemma {:induction false} TailGets(d: Dict)
    requires d != [] && Distinct(Keys(d))
    ensures Keys(d) == [d[0].0] + Keys(d[1..]) && Distinct(Keys(d[1..]))
    ensures forall k :: k in Keys(d[1..]) ==> k != d[0].0 && Get(d[1..], k) == Get(d, k)
  {
    var keys := Keys(d);
    assert forall a :: 0 <= a < |keys| - 1 ==> Keys(d[1..])[a] == keys[a + 1];
    forall k | k in Keys(d[1..]) ensures k != d[0].0 {
      var a :| 0 <= a < |keys| - 1 && Keys(d[1..])[a] == k;
      assert keys[a + 1] != keys[0];
    }
  }

  /* ------------------------------------------------------------------ what a pass spends */

  /** Every value lies between zero and its need. */
  ghost predicate Fits(used: Dict, needs: Dict) {
    forall k :: k in Keys(used) ==> 0 <= Get(used, k) <= Get(needs, k)
  }

  lemma {:induction false} FitsPut(used: Dict, needs: Dict, k: string, v: int)
    requires Fits(used, needs) && k in Keys(used) && 0 <= v <= Get(needs, k)
    ensures Fits(Put(used, k, v), needs) && Keys(Put(used, k, v)) == Keys(used)
    ensures Sum(Put(used, k, v)) == Sum(used) - Get(used, k) + v
  {
    PutSum(used, k, v);
  }

  lemma {:induction false} DrainSpends(order: seq<string>, limits: Dict, needs: Dict, used: Dict, pool: int)
    requires pool >= 0 && Distinct(order) && Fits(used, needs)
    requires forall k :: k in order ==> k in Keys(used) && Get(used, k) == 0
    requires forall k :: k in order ==> 0 <= Get(limits, k) <= Get(needs, k)
    ensures
      var (used', pool') := Drain(order, limits, used, pool);
      && pool' >= 0 && Keys(used') == Keys(used) && Fits(used', needs)
      && Sum(used') + pool' == Sum(used) + pool
    decreases |order|
  {
    if order == [] {
    } else {
      var take := Min(Get(limits, order[0]), pool);
      FitsPut(used, needs, order[0], take);
      PutSum(used, order[0], take);
      assert forall i :: 0 <= i < |order| - 1 ==> order[1..][i] == order[i + 1];
      DrainSpends(order[1..], limits, needs, Put(used, order[0], take), pool - take);
    }
  }

  lemma {:induction false} ServeMoreSpends(id: string, needs: Dict, used: Dict, pool: int)
    requires pool > 0 && Fits(used, needs) && id in Keys(used)
    ensures
      var t := ServeMore(id, needs, used, pool);
      t.1 >= 0 && Keys(t.0) == Keys(used) && Fits(t.0, needs) && Sum(t.0) + t.1 == Sum(used) + pool
  {
    if Get(used, id) < Get(needs, id) {
      FitsPut(used, needs, id, Get(used, id) + Min(Get(needs, id) - Get(used, id), pool));
    }
  }

  lemma {:induction false} ServeMoreRaises(id: string, needs: Dict, used: Dict, pool: int, k: string)
    requires pool > 0
    ensures
      var t := ServeMore(id, needs, used, pool);
      Get(used, k) <= Get(t.0, k) && (t.1 > 0 ==> Get(t.0, id) >= Get(needs, id))
  {
    PutSum(used, id, Get(used, id) + Min(Get(needs, id) - Get(used, id), pool));
  }

  predicate Known(order: seq<string>, keys: seq<string>) {
    order == [] || (order[0] in keys && Known(order[1..], keys))
  }

  lemma {:induction false} AllKnown(order: seq<string>, keys: seq<string>)
    requires forall k :: k in order ==> k in keys
    ensures Known(order, keys)
  {
    if order == [] {
    } else {
      AllKnown(order[1..], keys);
    }
  }

  lemma {:induction false} TopUpSpends(order: seq<string>, needs: Dict, used: Dict, pool: int)
    requires pool >= 0 && Fits(used, needs) && Known(order, Keys(used))
    ensures
      var t := TopUp(order, needs, used, pool);
      t.1 >= 0 && Keys(t.0) == Keys(used) && Fits(t.0, needs) && Sum(t.0) + t.1 == Sum(used) + pool
    decreases |order|
  {
    if order != [] && pool > 0 {
      var t := ServeMore(order[0], needs, used, pool);
      ServeMoreSpends(order[0], needs, used, pool);
      TopUpSpends(order[1..], needs, t.0, t.1);
    }
  }

  lemma {:induction false} TopUpRaises(order: seq<string>, needs: Dict, used: Dict, pool: int, k: string)
    ensures Get(used, k) <= Get(TopUp(order, needs, used, pool).0, k)
    decreases |order|
  {
    if order != [] && pool > 0 {
      var t := ServeMore(order[0], needs, used, pool);
      ServeMoreRaises(order[0], needs, used, pool, k);
      TopUpRaises(order[1..], needs, t.0, t.1, k);
    }
  }

  /** If calls are left over, every id in the order has been served in full. */
  lemma {:induction false} TopUpFills(order: seq<string>, needs: Dict, used: Dict, pool: int, k: string)
    requires TopUp(order, needs, used, pool).1 > 0 && k in order
    ensures Get(TopUp(order, needs, used, pool).0, k) >= Get(needs, k)
    decreases |order|
  {
    var t, rest := ServeMore(order[0], needs, used, pool), order[1..];
    ServeMoreRaises(order[0], needs, used, pool, k);
    if k == order[0] {
      TopUpLeaves(rest, needs, t.0, t.1);
      TopUpRaises(rest, needs, t.0, t.1, k);
    } else {
      TopUpFills(rest, needs, t.0, t.1, k);
    }
  }

  /** Calls left over at the end were there at the start. */
  lemma {:induction false} TopUpLeaves(order: seq<string>, needs: Dict, used: Dict, pool: int)
    requires TopUp(order, needs, used, pool).1 > 0
    ensures pool > 0
  {
    if pool > 0 && order != [] {
      var t := ServeMore(order[0], needs, used, pool);
      TopUpLeaves(order[1..], needs, t.0, t.1);
    }
  }

  /* ------------------------------------------------------------------ sorting keeps the ids */

  lemma {:induction false} InsertKeeps(k: string, sorted: seq<string>, needs: Dict)
    requires Distinct(sorted) && k !in sorted
    ensures Distinct(InsertByNeed(k, sorted, needs))
    ensures forall x :: x in InsertByNeed(k, sorted, needs) <==> x == k || x in sorted
  {
    if sorted == [] || Get(needs, k) >= Get(needs, sorted[0]) {
    } else {
      assert forall i :: 0 <= i < |sorted| - 1 ==> sorted[1..][i] == sorted[i + 1];
      InsertKeeps(k, sorted[1..], needs);
      assert sorted[0] !in sorted[1..];
    }
  }

  lemma {:induction false} SortKeeps(keys: seq<string>, needs: Dict)
    requires Distinct(keys)
    ensures Distinct(SortByNeed(keys, needs))
    ensures forall x :: x in SortByNeed(keys, needs) <==> x in keys
  {
    if keys == [] {
    } else {
      assert forall i :: 0 <= i < |keys| - 1 ==> keys[1..][i] == keys[i + 1];
      SortKeeps(keys[1..], needs);
      InsertKeeps(keys[0], SortByNeed(keys[1..], needs), needs);
    }
  }

  /* ------------------------------------------------------------------ distinct slots */

  predicate UniqueIds(slots: seq<Slot>) {
    slots == [] ||
    (slots[0].id != "" && (forall s :: s in slots[1..] ==> s.id != slots[0].id) && UniqueIds(slots[1..]))
  }

  lemma {:induction false} UniqueDistinct(slots: seq<Slot>)
    requires UniqueIds(slots)
    ensures Distinct(Ids(slots)) && "" !in Ids(slots)
    ensures forall k :: k in Ids(slots) <==> exists s :: s in slots && s.id == k
  {
    if slots == [] {
    } else {
      var rest := slots[1..];
      UniqueDistinct(rest);
      assert Ids(slots) == [slots[0].id] + Ids(rest);
      forall k | k in Ids(slots) ensures exists s :: s in slots && s.id == k {
        if k == slots[0].id {
          assert slots[0] in slots;
        } else {
          var s :| s in rest && s.id == k;
          assert s in slots;
        }
      }
    }
  }

  function Pairs(slots: seq<Slot>, zero: bool): Dict {
    seq(|slots|, i requires 0 <= i < |slots| => (slots[i].id, if zero then 0 else slots[i].need as int))
  }

  lemma {:induction false} PutAbsent(d: Dict, k: string, v: int)
    requires k !in Keys(d)
    ensures Put(d, k, v) == d + [(k, v)]
  {
    if d == [] {
    } else {
      PutAbsent(d[1..], k, v);
    }
  }

  lemma {:induction false} FreshKey(keys: seq<string>, slots: seq<Slot>)
    requires slots != [] && Distinct(keys + Ids(slots))
    ensures slots[0].id !in keys
    ensures keys + [slots[0].id] + Ids(slots[1..]) == keys + Ids(slots)
  {
    var all := keys + Ids(slots);
    assert all[|keys|] == slots[0].id;
    forall i | 0 <= i < |keys| ensures keys[i] == all[i] {
    }
  }

  lemma {:induction false} FreshPut(d: Dict, slots: seq<Slot>, v: int)
    requires slots != [] && Distinct(Keys(d) + Ids(slots))
    ensures Put(d, slots[0].id, v) == d + [(slots[0].id, v)]
    ensures Distinct(Keys(Put(d, slots[0].id, v)) + Ids(slots[1..]))
  {
    FreshKey(Keys(d), slots);
    PutAbsent(d, slots[0].id, v);
    PutSum(d, slots[0].id, v);
  }

  lemma {:induction false} PairsHead(slots: seq<Slot>, zero: bool)
    requires slots != []
    ensures Pairs(slots, zero) == [(slots[0].id, if zero then 0 else slots[0].need as int)] + Pairs(slots[1..], zero)
  {
  }

  lemma {:induction false} NeedsArePairs(slots: seq<Slot>, d: Dict)
    requires Distinct(Keys(d) + Ids(slots))
    ensures Needs(slots, d) == d + Pairs(slots, false)
    decreases |slots|
  {
    if slots == [] {
    } else {
      FreshPut(d, slots, slots[0].need);
      NeedsArePairs(slots[1..], Put(d, slots[0].id, slots[0].need));
      PairsHead(slots, false);
    }
  }

  lemma {:induction false} ZerosArePairs(slots: seq<Slot>, d: Dict)
    requires Distinct(Keys(d) + Ids(slots))
    ensures Zeros(slots, d) == d + Pairs(slots, true)
    decreases |slots|
  {
    if slots == [] {
    } else {
      FreshPut(d, slots, 0);
      ZerosArePairs(slots[1..], Put(d, slots[0].id, 0));
      PairsHead(slots, true);
    }
  }

  lemma {:induction false} PairKeys(slots: seq<Slot>, zero: bool)
    ensures Keys(Pairs(slots, zero)) == Ids(slots)
  {
    KeysAt(Pairs(slots, zero));
  }

  lemma {:induction false} PairGet(slots: seq<Slot>, zero: bool, i: nat)
    requires UniqueIds(slots) && i < |slots|
    ensures Get(Pairs(slots, zero), slots[i].id) == if zero then 0 else slots[i].need
  {
    UniqueDistinct(slots);
    PairKeys(slots, zero);
    GetInDict(Pairs(slots, zero), i);
  }

  /** The dict of needs and the dict of zeros of distinct slots. */
  lemma {:induction false} PairsFacts(slots: seq<Slot>)
    requires UniqueIds(slots)
    ensures Needs(slots, []) == Pairs(slots, false) && Zeros(slots, []) == Pairs(slots, true)
    ensures Keys(Pairs(slots, false)) == Ids(slots) && Keys(Pairs(slots, true)) == Ids(slots)
    ensures forall i :: 0 <= i < |slots| ==> Get(Pairs(slots, false), slots[i].id) == slots[i].need
    ensures Sum(Pairs(slots, true)) == 0 && Nonneg(Pairs(slots, true))
  {
    UniqueDistinct(slots);
    assert [] + Ids(slots) == Ids(slots);
    NeedsArePairs(slots, []);
    ZerosArePairs(slots, []);
    PairKeys(slots, false);
    PairKeys(slots, true);
    forall i | 0 <= i < |slots| ensures Get(Pairs(slots, false), slots[i].id) == slots[i].need {
      PairGet(slots, false, i);
    }
    ZeroSum(Pairs(slots, true));
  }

  lemma {:induction false} ZeroSum(d: Dict)
    requires forall i :: 0 <= i < |d| ==> d[i].1 == 0
    ensures Sum(d) == 0
  {
    if d == [] {
    } else {
      ZeroSum(d[1..]);
    }
  }

  lemma {:induction false} OpenSlotsOf(slots: seq<Slot>)
    ensures forall s :: s in OpenSlots(slots) <==> s in slots && IsOpen(s)
    ensures OpenSlots(OpenSlots(slots)) == OpenSlots(slots)
    decreases |slots|
  {
    if slots == [] {
    } else {
      OpenSlotsOf(slots[1..]);
      var open := OpenSlots(slots[1..]);
      if IsOpen(slots[0]) {
        assert ([slots[0]] + open)[1..] == open;
      } else {
        assert OpenSlots(slots) == open;
      }
    }
  }

  lemma {:induction false} OpenSlotsUnique(slots: seq<Slot>)
    requires UniqueIds(slots)
    ensures UniqueIds(OpenSlots(slots))
    decreases |slots|
  {
    if slots == [] {
    } else {
      OpenSlotsUnique(slots[1..]);
      OpenSlotsOf(slots[1..]);
      var open := OpenSlots(slots[1..]);
      if IsOpen(slots[0]) {
        assert ([slots[0]] + open)[1..] == open;
      } else {
        assert OpenSlots(slots) == open;
      }
    }
  }

  lemma {:induction false} OpenNeedIsSum(slots: seq<Slot>)
    ensures Sum(Pairs(OpenSlots(slots), false)) == OpenNeed(slots)
    decreases |slots|
  {
    if slots == [] {
    } else {
      OpenNeedIsSum(slots[1..]);
      var s, open := slots[0], OpenSlots(slots[1..]);
      if IsOpen(s) {
        var d := Pairs([s] + open, false);
        assert d[0] == (s.id, s.need as int) && d[1..] == Pairs(open, false);
      } else {
        assert OpenSlots(slots) == open;
      }
    }
  }

  /** Open slots of distinct slots: each is one of them, they are distinct, and filtering
      again changes nothing. */
  lemma {:induction false} OpenSlotsFacts(slots: seq<Slot>)
    requires UniqueIds(slots)
    ensures UniqueIds(OpenSlots(slots))
    ensures forall s :: s in OpenSlots(slots) <==> s in slots && IsOpen(s)
    ensures OpenSlots(OpenSlots(slots)) == OpenSlots(slots)
    ensures Sum(Pairs(OpenSlots(slots), false)) == OpenNeed(slots)
  {
    OpenSlotsOf(slots);
    OpenSlotsUnique(slots);
    OpenNeedIsSum(slots);
  }

  lemma {:induction false} OpenIsNotCovered(slots: seq<Slot>, s: Slot)
    requires UniqueIds(slots) && s in slots && IsOpen(s)
    ensures !FirstIsCovered(slots, s.id, Key)
    ensures s.id !in CoveredIds(slots)
    decreases |slots|
  {
    if s == slots[0] {
      CoveredIdsIn(slots[1..]);
    } else {
      OpenIsNotCovered(slots[1..], s);
    }
  }

  lemma {:induction false} CoveredIdsIn(slots: seq<Slot>)
    ensures forall k :: k in CoveredIds(slots) ==> exists s :: s in slots && s.id == k
    decreases |slots|
  {
    if slots == [] {
    } else {
      CoveredIdsIn(slots[1..]);
      forall k | k in CoveredIds(slots) ensures exists s :: s in slots && s.id == k {
        if k in CoveredIds(slots[1..]) {
          var s :| s in slots[1..] && s.id == k;
          assert s in slots;
        } else {
          assert slots[0] in slots;
        }
      }
    }
  }

  lemma {:induction false} GetNonneg(d: Dict, k: string)
    requires Nonneg(d)
    ensures Get(d, k) >= 0
  {
    if d == [] {
    } else {
      assert forall i :: 0 <= i < |d| - 1 ==> d[1..][i] == d[i + 1];
      GetNonneg(d[1..], k);
    }
  }

  lemma {:induction false} LimitsFit(order: seq<string>, needs: Dict, quotas: Dict, slots: seq<Slot>,
                                      strategy: Strategy, k: string)
    requires k in order && Nonneg(quotas) && forall x :: x in order ==> Get(needs, x) >= 0
    ensures 0 <= Get(Limits(order, needs, quotas, slots, strategy), k) <= Get(needs, k)
  {
    GetNonneg(quotas, order[0]);
    if k != order[0] {
      LimitsFit(order[1..], needs, quotas, slots, strategy, k);
    }
  }

  lemma {:induction false} NoBonus(slots: seq<Slot>, quotas: Dict, used: Dict)
    requires forall i :: 0 <= i < |quotas| ==> !FirstIsCovered(slots, quotas[i].0, Key)
    ensures ReclaimBonus(quotas, used, slots) == 0
  {
    if quotas == [] {
    } else {
      assert forall i :: 0 <= i < |quotas| - 1 ==> quotas[1..][i] == quotas[i + 1];
      NoBonus(slots, quotas[1..], used);
    }
  }

  lemma {:induction false} GapKeys(gaps: seq<Slot>)
    requires UniqueIds(gaps)
    ensures SlotKeys(gaps) == Ids(gaps) && KeysTellApart(gaps)
  {
    UniqueDistinct(gaps);
    forall i | 0 <= i < |gaps| ensures SlotKeys(gaps)[i] == Ids(gaps)[i] {
      assert Ids(gaps)[i] != "";
    }
  }

  /** With distinct ids no quota belongs to a covered slot, so the reclaimed bonus is zero. */
  lemma {:induction false} QuotasAreOpen(slots: seq<Slot>, cap: nat, used: Dict)
    requires UniqueIds(slots)
    ensures Nonneg(Quotas(slots, cap)) && ReclaimBonus(Quotas(slots, cap), used, slots) == 0
  {
    var gaps, quotas := OpenSlots(slots), Quotas(slots, cap);
    OpenSlotsFacts(slots);
    GapKeys(gaps);
    if gaps != [] {
      QuotaRoundingBound(gaps, cap);
      KeysAt(quotas);
      forall i | 0 <= i < |quotas| ensures !FirstIsCovered(slots, quotas[i].0, Key) {
        assert Keys(quotas)[i] == SlotKeys(gaps)[i] == gaps[i].id;
        assert gaps[i] in gaps;
        OpenIsNotCovered(slots, gaps[i]);
      }
    }
    NoBonus(slots, quotas, used);
  }

  /* ------------------------------------------------------------------ the final allocation */

  lemma {:induction false} PutAllFacts(d: Dict, more: Dict)
    requires Distinct(Keys(more))
    requires forall k :: k in Keys(more) ==> k in Keys(d) && Get(d, k) == 0
    ensures Keys(PutAll(d, more)) == Keys(d)
    ensures Sum(PutAll(d, more)) == Sum(d) + Sum(more)
    ensures forall k :: Get(PutAll(d, more), k) == if k in Keys(more) then Get(more, k) else Get(d, k)
    decreases |more|
  {
    if more == [] {
    } else {
      TailGets(more);
      PutSum(d, more[0].0, more[0].1);
      PutAllFacts(Put(d, more[0].0, more[0].1), more[1..]);
    }
  }

  lemma {:induction false} SpentZero(d: Dict, ids: set<string>)
    requires Distinct(Keys(d)) && forall k :: k in ids ==> Get(d, k) == 0
    ensures Spent(d, ids, true) == 0
  {
    if d == [] {
    } else {
      TailGets(d);
      SpentZero(d[1..], ids * set i | 0 <= i < |Keys(d[1..])| :: Keys(d[1..])[i]);
      SpentSame(d[1..], ids, ids * set i | 0 <= i < |Keys(d[1..])| :: Keys(d[1..])[i]);
    }
  }

  lemma {:induction false} SpentSame(d: Dict, a: set<string>, b: set<string>)
    requires forall k :: k in Keys(d) ==> (k in a <==> k in b)
    ensures Spent(d, a, true) == Spent(d, b, true)
  {
    if d == [] {
    } else {
      SpentSame(d[1..], a, b);
    }
  }

  /** An open slot's id is among the ids, and not among the covered ones. */
  lemma {:induction false} OpenId(slots: seq<Slot>, k: string)
    requires UniqueIds(slots) && k in Ids(OpenSlots(slots))
    ensures k in Ids(slots) && k !in CoveredIds(slots)
  {
    OpenSlotsFacts(slots);
    UniqueDistinct(OpenSlots(slots));
    var s :| s in OpenSlots(slots) && s.id == k;
    OpenIsNotCovered(slots, s);
    UniqueDistinct(slots);
  }

  lemma {:induction false} OpenSpending(slots: seq<Slot>, used: Dict)
    requires UniqueIds(slots) && Keys(used) == Ids(OpenSlots(slots))
    requires forall k :: k in Keys(used) ==> Get(used, k) >= 0
    ensures
      var final := PutAll(Zeros(slots, []), used);
      && Nonneg(final) && Sum(final) == Sum(used) && Distinct(Keys(final))
      && forall k :: k in CoveredIds(slots) ==> Get(final, k) == 0
  {
    var zeros := Zeros(slots, []);
    PairsFacts(slots);
    UniqueDistinct(slots);
    OpenSlotsUnique(slots);
    UniqueDistinct(OpenSlots(slots));
    forall k ensures Get(zeros, k) == 0 {
      ZeroGet(zeros, k);
    }
    forall k | k in Keys(used) ensures k in Keys(zeros) && k !in CoveredIds(slots) {
      OpenId(slots, k);
    }
    PutAllFacts(zeros, used);
    NonnegFromGets(PutAll(zeros, used));
  }

  /** Spending only on open slots puts nothing on covered ones. */
  lemma {:induction false} OpenSpendingWaste(slots: seq<Slot>, used: Dict)
    requires UniqueIds(slots) && Keys(used) == Ids(OpenSlots(slots))
    requires forall k :: k in Keys(used) ==> Get(used, k) >= 0
    ensures
      var final := PutAll(Zeros(slots, []), used);
      && Nonneg(final) && Sum(final) == Sum(used)
      && Misallocated(final, slots) == Max(0, OpenNeed(slots) - Sum(used))
  {
    OpenSpending(slots, used);
    var final := PutAll(Zeros(slots, []), used);
    SpentZero(final, CoveredIds(slots));
    SpentSplits(final, CoveredIds(slots));
  }

  lemma {:induction false} ZeroGet(d: Dict, k: string)
    requires forall i :: 0 <= i < |d| ==> d[i].1 == 0
    ensures Get(d, k) == 0
  {
    if d == [] {
    } else {
      ZeroGet(d[1..], k);
    }
  }

  lemma {:induction false} NonnegFromGets(d: Dict)
    requires Distinct(Keys(d)) && forall k :: k in Keys(d) ==> Get(d, k) >= 0
    ensures Nonneg(d)
  {
    KeysAt(d);
    forall i | 0 <= i < |d| ensures d[i].1 >= 0 {
      GetInDict(d, i);
      assert Keys(d)[i] in Keys(d);
    }
  }

  lemma {:induction false} OpenOrderFacts(slots: seq<Slot>)
    requires UniqueIds(slots)
    ensures
      var needs, order := OpenNeeds(slots), OpenOrder(slots);
      && Keys(needs) == Ids(OpenSlots(slots)) && Distinct(Keys(needs)) && Sum(needs) == OpenNeed(slots)
      && Distinct(order) && (forall x :: x in order <==> x in Keys(needs))
      && forall k :: k in Keys(needs) ==> Get(needs, k) >= 0
  {
    var gaps, needs := OpenSlots(slots), OpenNeeds(slots);
    OpenSlotsFacts(slots);
    PairsFacts(gaps);
    UniqueDistinct(gaps);
    SortKeeps(Keys(needs), needs);
    forall k | k in Keys(needs) ensures Get(needs, k) >= 0 {
      var i :| 0 <= i < |gaps| && Ids(gaps)[i] == k;
      assert gaps[i].id == k;
    }
  }

  lemma {:induction false} FirstPassFacts(slots: seq<Slot>, cap: nat, strategy: Strategy)
    requires UniqueIds(slots)
    ensures
      var p := FirstPass(slots, cap, strategy);
      p.1 >= 0 && Keys(p.0) == Ids(OpenSlots(slots)) && Fits(p.0, OpenNeeds(slots)) && Sum(p.0) + p.1 == cap
  {
    var gaps, needs, order, quotas := OpenSlots(slots), OpenNeeds(slots), OpenOrder(slots), Quotas(slots, cap);
    var zeros := Zeros(gaps, []);
    OpenSlotsUnique(slots);
    OpenOrderFacts(slots);
    PairsFacts(gaps);
    QuotasAreOpen(slots, cap, []);
    forall k ensures Get(zeros, k) == 0 {
      ZeroGet(zeros, k);
    }
    var limits := Limits(order, needs, quotas, slots, strategy);
    forall k | k in order ensures 0 <= Get(limits, k) <= Get(needs, k) {
      LimitsFit(order, needs, quotas, slots, strategy, k);
    }
    DrainSpends(order, limits, needs, zeros, cap);
  }

  /** Topping up spends all that is left, or all that is needed. */
  lemma {:induction false} TopUpTotal(order: seq<string>, needs: Dict, first: Dict, left: int)
    requires left >= 0 && Keys(first) == Keys(needs) && Fits(first, needs)
    requires Distinct(Keys(needs)) && forall k :: k in order <==> k in Keys(needs)
    ensures
      var used := TopUp(order, needs, first, left).0;
      && Keys(used) == Keys(needs) && Fits(used, needs)
      && Sum(used) == Min(Sum(first) + left, Sum(needs))
  {
    AllKnown(order, Keys(first));
    TopUpSpends(order, needs, first, left);
    var t := TopUp(order, needs, first, left);
    SumAtMost(t.0, needs);
    if t.1 > 0 {
      AllFilled(order, needs, first, left);
    }
  }

  lemma {:induction false} NothingReturns(slots: seq<Slot>, cap: nat, used: Dict, left: int)
    requires UniqueIds(slots)
    ensures ReclaimEnrichCap(left, Quotas(slots, cap), used, slots) == left
  {
    QuotasAreOpen(slots, cap, used);
  }

  /** The second pass tops up what the first one left: nothing comes back on top of it. */
  lemma {:induction false} SecondPassIsTopUp(slots: seq<Slot>, cap: nat)
    requires UniqueIds(slots)
    ensures
      var first := FirstPass(slots, cap, Reclaim);
      SecondPass(slots, cap) == TopUp(OpenOrder(slots), OpenNeeds(slots), first.0, first.1)
  {
    var first := FirstPass(slots, cap, Reclaim);
    NothingReturns(slots, cap, first.0, first.1);
  }

  lemma {:induction false} SecondPassFacts(slots: seq<Slot>, cap: nat)
    requires UniqueIds(slots)
    ensures
      var used := SecondPass(slots, cap).0;
      && Keys(used) == Ids(OpenSlots(slots)) && Fits(used, OpenNeeds(slots))
      && Sum(used) == Min(cap, OpenNeed(slots))
  {
    FirstPassFacts(slots, cap, Reclaim);
    OpenOrderFacts(slots);
    var first := FirstPass(slots, cap, Reclaim);
    SecondPassIsTopUp(slots, cap);
    TopUpTotal(OpenOrder(slots), OpenNeeds(slots), first.0, first.1);
  }

  lemma {:induction false} AllFilled(order: seq<string>, needs: Dict, first: Dict, left: int)
    requires TopUp(order, needs, first, left).1 > 0
    requires Distinct(Keys(needs)) && forall k :: k in Keys(needs) ==> k in order
    requires Keys(TopUp(order, needs, first, left).0) == Keys(needs)
    ensures Sum(needs) <= Sum(TopUp(order, needs, first, left).0)
  {
    var used := TopUp(order, needs, first, left).0;
    forall k | k in Keys(needs) ensures Get(needs, k) <= Get(used, k) {
      TopUpFills(order, needs, first, left, k);
    }
    SumAtMost(needs, used);
  }

  lemma {:induction false} ReclaimIs(slots: seq<Slot>, cap: nat)
    ensures Simulate(slots, cap, Reclaim) == PutAll(Zeros(slots, []), SecondPass(slots, cap).0)
  {
  }

  /** Spending the cap or the whole open need on the open slots leaves the rest of the open need. */
  lemma {:induction false} WasteOfExact(slots: seq<Slot>, onOpen: Dict, cap: nat)
    requires UniqueIds(slots) && Keys(onOpen) == Ids(OpenSlots(slots)) && Fits(onOpen, OpenNeeds(slots))
    requires Sum(onOpen) == Min(cap, OpenNeed(slots))
    ensures
      var used := PutAll(Zeros(slots, []), onOpen);
      && Nonneg(used) && Sum(used) == Min(cap, OpenNeed(slots))
      && Misallocated(used, slots) == Max(0, OpenNeed(slots) - cap)
  {
    OpenSpendingWaste(slots, onOpen);
  }

  /** Reclaim spends exactly the cap or the whole open need, whichever is smaller, and wastes only
      the open need beyond the cap. */
  lemma {:induction false} ReclaimExact(slots: seq<Slot>, cap: nat)
    requires UniqueIds(slots)
    ensures
      var used := Simulate(slots, cap, Reclaim);
      && Nonneg(used) && Sum(used) == Min(cap, OpenNeed(slots))
      && Misallocated(used, slots) == Max(0, OpenNeed(slots) - cap)
  {
    ReclaimIs(slots, cap);
    SecondPassFacts(slots, cap);
    WasteOfExact(slots, SecondPass(slots, cap).0, cap);
  }

  lemma {:induction false} OpenSpendingGets(slots: seq<Slot>, used: Dict, k: string)
    requires UniqueIds(slots) && Keys(used) == Ids(OpenSlots(slots))
    ensures Get(PutAll(Zeros(slots, []), used), k) == if k in Keys(used) then Get(used, k) else 0
  {
    var zeros := Zeros(slots, []);
    PairsFacts(slots);
    OpenSlotsUnique(slots);
    UniqueDistinct(OpenSlots(slots));
    ZeroGet(zeros, k);
    forall x | x in Keys(used) ensures x in Keys(zeros) && Get(zeros, x) == 0 {
      OpenId(slots, x);
      ZeroGet(zeros, x);
    }
    PutAllFacts(zeros, used);
  }

  lemma {:induction false} GetAbsent(d: Dict, k: string)
    requires k !in Keys(d)
    ensures Get(d, k) == 0
  {
    if d == [] {
    } else {
      GetAbsent(d[1..], k);
    }
  }

  /** Reclaim never spends more on a slot than the slot still needs, and nothing on covered ones. */
  lemma {:induction false} ReclaimWithinNeeds(slots: seq<Slot>, cap: nat, k: string)
    requires UniqueIds(slots)
    ensures 0 <= Get(Simulate(slots, cap, Reclaim), k) <= Get(OpenNeeds(slots), k)
  {
    var used, needs := SecondPass(slots, cap).0, OpenNeeds(slots);
    SecondPassFacts(slots, cap);
    OpenSpendingGets(slots, used, k);
    OpenOrderFacts(slots);
    if k !in Keys(used) {
      GetAbsent(needs, k);
    }
  }

  lemma {:induction false} QuotaSpending(slots: seq<Slot>, cap: nat)
    requires UniqueIds(slots)
    ensures var used := Simulate(slots, cap, Quota); Nonneg(used) && Sum(used) <= cap
  {
    FirstPassFacts(slots, cap, Quota);
    OpenSpendingWaste(slots, FirstPass(slots, cap, Quota).0);
  }

  lemma {:induction false} GlobalSpending(slots: seq<Slot>, cap: nat)
    requires UniqueIds(slots)
    ensures var used := Simulate(slots, cap, Global); Nonneg(used) && Sum(used) <= cap
  {
    PairsFacts(slots);
    UniqueDistinct(slots);
    var needs, zeros := Needs(slots, []), Zeros(slots, []);
    var order := SortByNeed(Keys(needs), needs);
    SortKeeps(Keys(needs), needs);
    forall k ensures Get(zeros, k) == 0 {
      ZeroGet(zeros, k);
    }
    forall k | k in Ids(slots) ensures Get(needs, k) >= 0 {
      var i :| 0 <= i < |slots| && Ids(slots)[i] == k;
      assert slots[i].id == k;
    }
    DrainSpends(order, needs, needs, zeros, cap);
    NonnegFromGets(Drain(order, needs, zeros, cap).0);
  }

  /** No allocation within the cap wastes less than reclaim does; in particular neither of the
      two other strategies, and the reported improvement is a percentage. */
  lemma {:induction false} ReclaimOptimal(slots: seq<Slot>, cap: nat)
    requires UniqueIds(slots)
    ensures forall used :: Nonneg(used) && Sum(used) <= cap ==>
              Misallocated(Simulate(slots, cap, Reclaim), slots) <= Misallocated(used, slots)
    ensures
      var c := SimulateEnrichWaste(slots, cap);
      && 0 <= c.reclaimWaste <= c.quotaWaste && c.reclaimWaste <= c.globalWaste
      && 0 <= c.reclaimPct <= 100
  {
    ReclaimExact(slots, cap);
    forall used | Nonneg(used) && Sum(used) <= cap
      ensures Misallocated(Simulate(slots, cap, Reclaim), slots) <= Misallocated(used, slots)
    {
      WasteLowerBound(used, slots, cap);
    }
    QuotaSpending(slots, cap);
    GlobalSpending(slots, cap);
    var c := SimulateEnrichWaste(slots, cap);
    PctInRange(c.reclaimWaste, c.globalWaste);
  }

  lemma {:induction false} PctInRange(waste: int, base: int)
    requires 0 <= waste <= base
    ensures 0 <= ImprovementPct(waste, base) <= 100
  {
    var baseline := if base == 0 then 1 else base;
    RoundBetween(0, 100 * (baseline - waste), 100, baseline);
  }
}
