/** Who gets the calls: the spending of each enrich strategy slot by slot, and how far a quota is from the
    exact share. */
module SlotShares {
  import opened Common
  import opened Rounding
  import opened SlotBudget
  import opened SlotWaste

  /* ------------------------------------------------------------------ draining in full */

  function OrderSum(order: seq<string>, d: Dict): int {
    if order == [] then 0 else Get(d, order[0]) + OrderSum(order[1..], d)
  }

  ghost predicate NonnegOn(order: seq<string>, d: Dict) {
    forall k :: k in order ==> Get(d, k) >= 0
  }

  lemma {:induction false} DistinctTail(order: seq<string>)
    requires order != [] && Distinct(order)
    ensures Distinct(order[1..]) && order[0] !in order[1..]
  {
    assert forall i :: 0 <= i < |order| - 1 ==> order[1..][i] == order[i + 1];
  }

  /** A pool that covers all limits serves each of them. */
  lemma {:induction false} DrainFull(order: seq<string>, limits: Dict, used: Dict, pool: int, k: string)
    requires Distinct(order) && NonnegOn(order, limits) && pool >= OrderSum(order, limits)
    ensures Get(Drain(order, limits, used, pool).0, k) == if k in order then Get(limits, k) else Get(used, k)
    decreases |order|
  {
    if order == [] {
    } else {
      OrderSumNonneg(order[1..], limits);
      DistinctTail(order);
      var take := Min(Get(limits, order[0]), pool);
      PutSum(used, order[0], take);
      DrainFull(order[1..], limits, Put(used, order[0], take), pool - take, k);
    }
  }

  lemma {:induction false} OrderSumNonneg(order: seq<string>, d: Dict)
    requires NonnegOn(order, d)
    ensures OrderSum(order, d) >= 0
  {
    if order == [] {
    } else {
      OrderSumNonneg(order[1..], d);
    }
  }

  lemma {:induction false} OrderSumCons(order: seq<string>, k: string, v: int, rest: Dict)
    requires Distinct(order) && v >= 0 && Nonneg(rest)
    ensures OrderSum(order, [(k, v)] + rest) <= (if k in order then v else 0) + OrderSum(order, rest)
  {
    if order == [] {
    } else {
      DistinctTail(order);
      OrderSumCons(order[1..], k, v, rest);
      assert ([(k, v)] + rest)[1..] == rest;
      GetNonneg(rest, order[0]);
    }
  }

  /** Distinct ids take no more than there is. */
  lemma {:induction false} OrderSumAtMost(order: seq<string>, d: Dict)
    requires Distinct(order) && Nonneg(d)
    ensures OrderSum(order, d) <= Sum(d)
    decreases |d|
  {
    if d == [] {
      OrderSumOfNone(order);
    } else {
      assert forall i :: 0 <= i < |d| - 1 ==> d[1..][i] == d[i + 1];
      OrderSumAtMost(order, d[1..]);
      OrderSumCons(order, d[0].0, d[0].1, d[1..]);
      assert d == [(d[0].0, d[0].1)] + d[1..];
    }
  }

  lemma {:induction false} OrderSumOfNone(order: seq<string>)
    ensures OrderSum(order, []) == 0
  {
    if order == [] {
    } else {
      OrderSumOfNone(order[1..]);
    }
  }

  lemma {:induction false} OrderSumMonotone(order: seq<string>, a: Dict, b: Dict)
    requires forall k :: k in order ==> Get(a, k) <= Get(b, k)
    ensures OrderSum(order, a) <= OrderSum(order, b)
  {
    if order == [] {
    } else {
      OrderSumMonotone(order[1..], a, b);
    }
  }

  /* ------------------------------------------------------------------ the quota strategy */

  lemma {:induction false} LimitsGet(order: seq<string>, needs: Dict, quotas: Dict, slots: seq<Slot>,
                                      strategy: Strategy, k: string)
    requires k in order
    requires strategy.Reclaim? ==> !FirstIsCovered(slots, k, (s: Slot) => s.id)
    ensures Get(Limits(order, needs, quotas, slots, strategy), k) == Min(Get(needs, k), Get(quotas, k))
  {
    if k != order[0] {
      LimitsGet(order[1..], needs, quotas, slots, strategy, k);
    }
  }

  lemma {:induction false} OpenIdNotCovered(slots: seq<Slot>, s: Slot)
    requires UniqueIds(slots) && s in slots && IsOpen(s)
    ensures !FirstIsCovered(slots, s.id, (x: Slot) => x.id)
    decreases |slots|
  {
    if s != slots[0] {
      OpenIdNotCovered(slots[1..], s);
    }
  }

  lemma {:induction false} OrderNotCovered(slots: seq<Slot>, k: string)
    requires UniqueIds(slots) && k in OpenOrder(slots)
    ensures !FirstIsCovered(slots, k, (x: Slot) => x.id)
  {
    OpenOrderFacts(slots);
    OpenSlotsFacts(slots);
    UniqueDistinct(OpenSlots(slots));
    var s :| s in OpenSlots(slots) && s.id == k;
    OpenIdNotCovered(slots, s);
  }

  lemma {:induction false} QuotasWithinCap(slots: seq<Slot>, cap: nat)
    requires UniqueIds(slots)
    ensures Nonneg(Quotas(slots, cap)) && Sum(Quotas(slots, cap)) <= cap
  {
    var gaps := OpenSlots(slots);
    QuotasAreOpen(slots, cap, []);
    OpenSlotsFacts(slots);
    GapKeys(gaps);
    if gaps != [] {
      QuotaRoundingBound(gaps, cap);
    }
  }

  /** The first pass never runs short: each open slot gets its need or its quota, whichever is smaller. */
  lemma {:induction false} FirstPassGets(slots: seq<Slot>, cap: nat, strategy: Strategy, k: string)
    requires UniqueIds(slots)
    ensures Get(FirstPass(slots, cap, strategy).0, k) ==
            if k in OpenOrder(slots) then Min(Get(OpenNeeds(slots), k), Get(Quotas(slots, cap), k)) else 0
  {
    var order, needs, quotas := OpenOrder(slots), OpenNeeds(slots), Quotas(slots, cap);
    var limits, zeros := Limits(order, needs, quotas, slots, strategy), Zeros(OpenSlots(slots), []);
    OpenOrderFacts(slots);
    QuotasWithinCap(slots, cap);
    forall x | x in order
      ensures Get(limits, x) == Min(Get(needs, x), Get(quotas, x)) && 0 <= Get(limits, x) <= Get(quotas, x)
    {
      OrderNotCovered(slots, x);
      LimitsGet(order, needs, quotas, slots, strategy, x);
      GetNonneg(quotas, x);
    }
    OrderSumMonotone(order, limits, quotas);
    OrderSumAtMost(order, quotas);
    DrainFull(order, limits, zeros, cap, k);
    OpenSlotsUnique(slots);
    PairsFacts(OpenSlots(slots));
    ZeroGet(zeros, k);
  }

  /** What a slot gets out of an allocation to the open slots. */
  lemma {:induction false} OpenGets(slots: seq<Slot>, onOpen: Dict, s: Slot)
    requires UniqueIds(slots) && s in slots && Keys(onOpen) == Ids(OpenSlots(slots))
    ensures s.id in OpenOrder(slots) <==> IsOpen(s)
    ensures Get(PutAll(Zeros(slots, []), onOpen), s.id) == if IsOpen(s) then Get(onOpen, s.id) else 0
    ensures IsOpen(s) ==> Get(OpenNeeds(slots), s.id) == s.need
  {
    OpenSpendingGets(slots, onOpen, s.id);
    OpenOrderFacts(slots);
    OpenSlotsFacts(slots);
    UniqueDistinct(OpenSlots(slots));
    OneIdOneSlot(slots, s);
    PairsFacts(OpenSlots(slots));
    if IsOpen(s) {
      var i :| 0 <= i < |OpenSlots(slots)| && OpenSlots(slots)[i] == s;
    }
  }

  lemma {:induction false} OneIdOneSlot(slots: seq<Slot>, s: Slot)
    requires UniqueIds(slots) && s in slots
    ensures forall t :: t in slots && t.id == s.id ==> t == s
  {
    if s == slots[0] {
    } else {
      OneIdOneSlot(slots[1..], s);
    }
  }

  /** Under the quota strategy an open slot gets exactly its need or its quota, whichever is smaller, and no
      other slot gets anything. */
  lemma {:induction false} QuotaExact(slots: seq<Slot>, cap: nat, s: Slot)
    requires UniqueIds(slots) && s in slots
    ensures Get(Simulate(slots, cap, Quota), s.id) ==
            if s.status in {Open, Weak} then Min(s.need, Get(SlotEnrichQuota(OpenSlots(slots), cap), s.id)) else 0
  {
    FirstPassFacts(slots, cap, Quota);
    FirstPassGets(slots, cap, Quota, s.id);
    OpenGets(slots, FirstPass(slots, cap, Quota).0, s);
  }

  /** The open need beyond the quotas. */
  function BeyondQuota(slots: seq<Slot>, quotas: Dict): nat {
    if slots == [] then 0
    else (if IsOpen(slots[0]) then Max(0, slots[0].need - Get(quotas, slots[0].id)) else 0)
         + BeyondQuota(slots[1..], quotas)
  }

  lemma {:induction false} OpenServed(slots: seq<Slot>, cap: nat, s: Slot)
    requires UniqueIds(slots) && s in OpenSlots(slots)
    ensures Get(FirstPass(slots, cap, Quota).0, s.id) == Min(s.need, Get(Quotas(slots, cap), s.id))
  {
    OpenSlotsFacts(slots);
    FirstPassFacts(slots, cap, Quota);
    FirstPassGets(slots, cap, Quota, s.id);
    OpenGets(slots, FirstPass(slots, cap, Quota).0, s);
  }

  lemma {:induction false} FirstPassSum(slots: seq<Slot>, cap: nat)
    requires UniqueIds(slots)
    ensures Sum(FirstPass(slots, cap, Quota).0) + BeyondQuota(slots, Quotas(slots, cap)) == OpenNeed(slots)
  {
    var onOpen := FirstPass(slots, cap, Quota).0;
    forall s | s in OpenSlots(slots) ensures Get(onOpen, s.id) == Min(s.need, Get(Quotas(slots, cap), s.id)) {
      OpenServed(slots, cap, s);
    }
    ServedNeed(slots, onOpen, Quotas(slots, cap));
    FirstPassFacts(slots, cap, Quota);
    OpenSlotsUnique(slots);
    UniqueDistinct(OpenSlots(slots));
    SumOverIds(OpenSlots(slots), onOpen);
  }

  /** The quota strategy wastes exactly the open need beyond the quotas. */
  lemma {:induction false} QuotaWasteExact(slots: seq<Slot>, cap: nat)
    requires UniqueIds(slots)
    ensures Misallocated(Simulate(slots, cap, Quota), slots) == BeyondQuota(slots, Quotas(slots, cap))
  {
    FirstPassFacts(slots, cap, Quota);
    OpenSpendingWaste(slots, FirstPass(slots, cap, Quota).0);
    FirstPassSum(slots, cap);
  }

  function SumOf(slots: seq<Slot>, d: Dict): int {
    if slots == [] then 0 else Get(d, slots[0].id) + SumOf(slots[1..], d)
  }

  lemma {:induction false} SumOverIds(slots: seq<Slot>, d: Dict)
    requires Keys(d) == Ids(slots) && Distinct(Keys(d))
    ensures SumOf(slots, d) == Sum(d)
    decreases |slots|
  {
    KeysAt(d);
    if slots == [] {
    } else {
      TailGets(d);
      assert Keys(d)[0] == slots[0].id && Keys(d[1..]) == Keys(d)[1..];
      assert Ids(slots)[1..] == Ids(slots[1..]);
      SumOverIds(slots[1..], d[1..]);
      forall s | s in slots[1..] ensures s.id != d[0].0 {
        var i :| 0 <= i < |slots[1..]| && slots[1..][i] == s;
        assert Ids(slots[1..])[i] == s.id;
      }
      SumOfTail(slots[1..], d);
    }
  }

  lemma {:induction false} SumOfTail(slots: seq<Slot>, d: Dict)
    requires d != [] && forall s :: s in slots ==> s.id != d[0].0
    ensures SumOf(slots, d[1..]) == SumOf(slots, d)
  {
    if slots == [] {
    } else {
      SumOfTail(slots[1..], d);
    }
  }

  lemma {:induction false} ServedNeed(slots: seq<Slot>, onOpen: Dict, quotas: Dict)
    requires forall s :: s in OpenSlots(slots) ==> Get(onOpen, s.id) == Min(s.need, Get(quotas, s.id))
    ensures SumOf(OpenSlots(slots), onOpen) + BeyondQuota(slots, quotas) == OpenNeed(slots)
    decreases |slots|
  {
    if slots == [] {
    } else {
      var s, rest := slots[0], OpenSlots(slots[1..]);
      if IsOpen(s) {
        assert OpenSlots(slots) == [s] + rest && ([s] + rest)[1..] == rest;
      } else {
        assert OpenSlots(slots) == rest;
      }
      ServedNeed(slots[1..], onOpen, quotas);
    }
  }

  /* ------------------------------------------------------------------ who comes first */

  predicate Before(order: seq<string>, x: string, y: string) {
    order != [] && ((order[0] == x && y in order[1..]) || Before(order[1..], x, y))
  }

  lemma {:induction false} BeforeIn(order: seq<string>, x: string, y: string)
    requires Before(order, x, y)
    ensures x in order && y in order
  {
    if order[0] == x && y in order[1..] {
    } else {
      BeforeIn(order[1..], x, y);
    }
  }

  predicate Falling(order: seq<string>, needs: Dict) {
    order == [] ||
    ((forall k :: k in order[1..] ==> Get(needs, order[0]) >= Get(needs, k)) && Falling(order[1..], needs))
  }

  lemma {:induction false} InsertFalls(k: string, sorted: seq<string>, needs: Dict)
    requires Falling(sorted, needs)
    ensures Falling(InsertByNeed(k, sorted, needs), needs)
    ensures forall x :: x in InsertByNeed(k, sorted, needs) <==> x == k || x in sorted
  {
    var out := InsertByNeed(k, sorted, needs);
    if sorted == [] || Get(needs, k) >= Get(needs, sorted[0]) {
      assert out[1..] == sorted;
    } else {
      InsertFalls(k, sorted[1..], needs);
      assert out[1..] == InsertByNeed(k, sorted[1..], needs);
    }
  }

  /** Inserting keeps the order of the others, and puts the new id behind those that need more and in front of
      the rest. */
  lemma {:induction false} InsertBefore(k: string, sorted: seq<string>, needs: Dict, y: string)
    requires Falling(sorted, needs) && y in sorted
    ensures var out := InsertByNeed(k, sorted, needs);
            if Get(needs, k) >= Get(needs, y) then Before(out, k, y) else Before(out, y, k)
  {
    var out := InsertByNeed(k, sorted, needs);
    if Get(needs, k) >= Get(needs, sorted[0]) {
      assert out[1..] == sorted;
    } else {
      InsertFalls(k, sorted[1..], needs);
      assert out[0] == sorted[0] && out[1..] == InsertByNeed(k, sorted[1..], needs);
      if y != sorted[0] {
        InsertBefore(k, sorted[1..], needs, y);
      }
    }
  }

  lemma {:induction false} InsertKeepsBefore(k: string, sorted: seq<string>, needs: Dict, x: string, y: string)
    requires Falling(sorted, needs) && Before(sorted, x, y)
    ensures Before(InsertByNeed(k, sorted, needs), x, y)
  {
    var out := InsertByNeed(k, sorted, needs);
    BeforeIn(sorted, x, y);
    if Get(needs, k) >= Get(needs, sorted[0]) {
      assert out[1..] == sorted;
    } else {
      InsertFalls(k, sorted[1..], needs);
      assert out[0] == sorted[0] && out[1..] == InsertByNeed(k, sorted[1..], needs);
      if sorted[0] == x && y in sorted[1..] {
      } else {
        InsertKeepsBefore(k, sorted[1..], needs, x, y);
      }
    }
  }

  lemma {:induction false} SortFalls(keys: seq<string>, needs: Dict)
    ensures Falling(SortByNeed(keys, needs), needs)
    ensures forall x :: x in SortByNeed(keys, needs) <==> x in keys
  {
    if keys == [] {
    } else {
      SortFalls(keys[1..], needs);
      InsertFalls(keys[0], SortByNeed(keys[1..], needs), needs);
    }
  }

  /** Larger needs come first, and equal ones in the order given. */
  lemma {:induction false} SortedFirst(keys: seq<string>, needs: Dict, i: nat, j: nat)
    requires i < |keys| && j < |keys| && i != j
    requires Get(needs, keys[i]) > Get(needs, keys[j]) || (Get(needs, keys[i]) == Get(needs, keys[j]) && i < j)
    ensures Before(SortByNeed(keys, needs), keys[i], keys[j])
  {
    var rest := SortByNeed(keys[1..], needs);
    SortFalls(keys[1..], needs);
    if i == 0 {
      assert keys[j] == keys[1..][j - 1];
      InsertBefore(keys[0], rest, needs, keys[j]);
    } else if j == 0 {
      assert keys[i] == keys[1..][i - 1];
      InsertBefore(keys[0], rest, needs, keys[i]);
    } else {
      SortedFirst(keys[1..], needs, i - 1, j - 1);
      InsertKeepsBefore(keys[0], rest, needs, keys[i], keys[j]);
    }
  }

  /* ------------------------------------------------------------------ the global strategy */

  lemma {:induction false} DrainOthers(order: seq<string>, limits: Dict, used: Dict, pool: int, k: string)
    requires k !in order
    ensures Get(Drain(order, limits, used, pool).0, k) == Get(used, k)
    decreases |order|
  {
    if order == [] {
    } else {
      var take := Min(Get(limits, order[0]), pool);
      PutSum(used, order[0], take);
      DrainOthers(order[1..], limits, Put(used, order[0], take), pool - take, k);
    }
  }

  lemma {:induction false} DrainNothing(order: seq<string>, limits: Dict, used: Dict, k: string)
    requires Distinct(order) && NonnegOn(order, limits)
    ensures Get(Drain(order, limits, used, 0).0, k) == if k in order then 0 else Get(used, k)
    ensures Drain(order, limits, used, 0).1 == 0
    decreases |order|
  {
    if order == [] {
    } else {
      DistinctTail(order);
      PutSum(used, order[0], 0);
      DrainNothing(order[1..], limits, Put(used, order[0], 0), k);
    }
  }

  /** An id is served only once those before it have all they need. */
  lemma {:induction false} DrainInOrder(order: seq<string>, limits: Dict, used: Dict, pool: int, x: string, y: string)
    requires Distinct(order) && NonnegOn(order, limits) && pool >= 0 && Before(order, x, y)
    requires Get(Drain(order, limits, used, pool).0, y) > 0
    ensures Get(Drain(order, limits, used, pool).0, x) == Get(limits, x)
    decreases |order|
  {
    var take, rest := Min(Get(limits, order[0]), pool), order[1..];
    var used' := Put(used, order[0], take);
    DistinctTail(order);
    PutSum(used, order[0], take);
    if order[0] == x && y in rest {
      DrainOthers(rest, limits, used', pool - take, x);
      if take == pool {
        DrainNothing(rest, limits, used', y);
      }
    } else {
      DrainInOrder(rest, limits, used', pool - take, x, y);
    }
  }

  /** Calls left over mean that everybody got all. */
  lemma {:induction false} DrainFills(order: seq<string>, limits: Dict, used: Dict, pool: int, k: string)
    requires Distinct(order) && NonnegOn(order, limits) && pool >= 0 && k in order
    requires Drain(order, limits, used, pool).1 > 0
    ensures Get(Drain(order, limits, used, pool).0, k) == Get(limits, k)
    decreases |order|
  {
    var take, rest := Min(Get(limits, order[0]), pool), order[1..];
    var used' := Put(used, order[0], take);
    DistinctTail(order);
    PutSum(used, order[0], take);
    if take == pool {
      DrainNothing(rest, limits, used', k);
    } else if k == order[0] {
      DrainOthers(rest, limits, used', pool - take, k);
    } else {
      DrainFills(rest, limits, used', pool - take, k);
    }
  }

  function TotalNeed(slots: seq<Slot>): nat {
    if slots == [] then 0 else slots[0].need + TotalNeed(slots[1..])
  }

  /** Slot `i` needs more than slot `j`, or as much and stands before it. */
  predicate Precedes(slots: seq<Slot>, i: nat, j: nat)
    requires i < |slots| && j < |slots|
  {
    slots[i].need > slots[j].need || (slots[i].need == slots[j].need && i < j)
  }

  lemma {:induction false} NeedSum(slots: seq<Slot>)
    ensures Sum(Pairs(slots, false)) == TotalNeed(slots)
  {
    if slots == [] {
    } else {
      PairsHead(slots, false);
      assert Pairs(slots, false)[1..] == Pairs(slots[1..], false);
      NeedSum(slots[1..]);
    }
  }

  /** The order in which the needs of distinct slots are served. */
  lemma {:induction false} ServingOrder(slots: seq<Slot>)
    requires UniqueIds(slots)
    ensures
      var needs := Needs(slots, []);
      var order := SortByNeed(Keys(needs), needs);
      && Distinct(order) && NonnegOn(order, needs) && Keys(needs) == Ids(slots) && Distinct(Ids(slots))
      && (forall k :: k in order <==> k in Ids(slots))
      && Sum(needs) == TotalNeed(slots)
      && forall i :: 0 <= i < |slots| ==> Get(needs, slots[i].id) == slots[i].need && slots[i].id in order
  {
    var needs := Needs(slots, []);
    PairsFacts(slots);
    NeedSum(slots);
    UniqueDistinct(slots);
    SortKeeps(Keys(needs), needs);
    forall i | 0 <= i < |slots| ensures slots[i].id in Ids(slots) {
      assert Ids(slots)[i] == slots[i].id;
    }
    forall k | k in Ids(slots) ensures Get(needs, k) >= 0 {
      var i :| 0 <= i < |slots| && Ids(slots)[i] == k;
      assert slots[i].id == k;
    }
  }

  lemma {:induction false} ServedBefore(slots: seq<Slot>, i: nat, j: nat)
    requires UniqueIds(slots) && i < |slots| && j < |slots| && Precedes(slots, i, j)
    ensures var needs := Needs(slots, []); Before(SortByNeed(Keys(needs), needs), slots[i].id, slots[j].id)
  {
    var needs := Needs(slots, []);
    ServingOrder(slots);
    assert Ids(slots)[i] == slots[i].id && Ids(slots)[j] == slots[j].id;
    SortedFirst(Keys(needs), needs, i, j);
  }

  /** What the global strategy leaves of the needs: the pool, from the largest need down. */
  lemma {:induction false} GlobalSum(slots: seq<Slot>, cap: nat)
    requires UniqueIds(slots)
    ensures
      var used := Simulate(slots, cap, Global);
      && Sum(used) == Min(cap, TotalNeed(slots))
      && forall k :: k in Ids(slots) ==> 0 <= Get(used, k) <= Get(Needs(slots, []), k)
  {
    var needs, zeros := Needs(slots, []), Zeros(slots, []);
    var order := SortByNeed(Keys(needs), needs);
    ServingOrder(slots);
    PairsFacts(slots);
    forall k ensures Get(zeros, k) == 0 {
      ZeroGet(zeros, k);
    }
    DrainSpends(order, needs, needs, zeros, cap);
    var d := Drain(order, needs, zeros, cap);
    SumAtMost(d.0, needs);
    if d.1 > 0 {
      forall k | k in Keys(needs) ensures Get(needs, k) <= Get(d.0, k) {
        DrainFills(order, needs, zeros, cap, k);
      }
      SumAtMost(needs, d.0);
    }
  }

  /** The global strategy spends the cap or all needs, whichever is smaller, and gives no slot a call while
      one that needs more, or as much and stands before it, is left unfilled. */
  lemma {:induction false} GlobalExact(slots: seq<Slot>, cap: nat, i: nat, j: nat)
    requires UniqueIds(slots) && i < |slots| && j < |slots| && Precedes(slots, i, j)
    ensures
      var used := Simulate(slots, cap, Global);
      && Sum(used) == Min(cap, TotalNeed(slots))
      && 0 <= Get(used, slots[i].id) <= slots[i].need
      && (Get(used, slots[j].id) > 0 ==> Get(used, slots[i].id) == slots[i].need)
  {
    var needs, zeros := Needs(slots, []), Zeros(slots, []);
    GlobalSum(slots, cap);
    ServingOrder(slots);
    ServedBefore(slots, i, j);
    if Get(Simulate(slots, cap, Global), slots[j].id) > 0 {
      DrainInOrder(SortByNeed(Keys(needs), needs), needs, zeros, cap, slots[i].id, slots[j].id);
    }
  }

  /* ------------------------------------------------------------------ the reclaiming strategy */

  lemma {:induction false} ServeMoreOthers(id: string, needs: Dict, used: Dict, pool: int, k: string)
    requires k != id
    ensures Get(ServeMore(id, needs, used, pool).0, k) == Get(used, k)
  {
    PutSum(used, id, Get(used, id) + Min(Get(needs, id) - Get(used, id), pool));
  }

  /** Whoever is served first has all it needs if anything is left for others. */
  lemma {:induction false} TopUpFirst(order: seq<string>, needs: Dict, used: Dict, pool: int, y: string)
    requires order != [] && y != order[0] && pool > 0
    requires Get(TopUp(order, needs, used, pool).0, y) > Get(used, y)
    ensures Get(TopUp(order, needs, used, pool).0, order[0]) >= Get(needs, order[0])
  {
    var t := ServeMore(order[0], needs, used, pool);
    ServeMoreRaises(order[0], needs, used, pool, y);
    ServeMoreOthers(order[0], needs, used, pool, y);
    TopUpRaises(order[1..], needs, t.0, t.1, order[0]);
  }

  /** An id is topped up only once those before it have all they need. */
  lemma {:induction false} TopUpInOrder(order: seq<string>, needs: Dict, used: Dict, pool: int, x: string, y: string)
    requires Distinct(order) && Before(order, x, y)
    requires Get(TopUp(order, needs, used, pool).0, y) > Get(used, y)
    ensures Get(TopUp(order, needs, used, pool).0, x) >= Get(needs, x)
    decreases |order|
  {
    DistinctTail(order);
    if order[0] == x && y in order[1..] {
      TopUpFirst(order, needs, used, pool, y);
    } else {
      var t := ServeMore(order[0], needs, used, pool);
      BeforeIn(order[1..], x, y);
      ServeMoreOthers(order[0], needs, used, pool, y);
      TopUpInOrder(order[1..], needs, t.0, t.1, x, y);
    }
  }

  lemma {:induction false} ReclaimGets(slots: seq<Slot>, cap: nat, s: Slot)
    requires UniqueIds(slots) && s in OpenSlots(slots)
    ensures s in slots && IsOpen(s)
    ensures Get(FirstPass(slots, cap, Reclaim).0, s.id) == Min(s.need, Get(Quotas(slots, cap), s.id))
    ensures
      var first := FirstPass(slots, cap, Reclaim);
      Get(Simulate(slots, cap, Reclaim), s.id) ==
      Get(TopUp(OpenOrder(slots), OpenNeeds(slots), first.0, first.1).0, s.id)
    ensures Get(OpenNeeds(slots), s.id) == s.need
  {
    OpenSlotsFacts(slots);
    FirstPassFacts(slots, cap, Reclaim);
    FirstPassGets(slots, cap, Reclaim, s.id);
    OpenGets(slots, FirstPass(slots, cap, Reclaim).0, s);
    SecondPassFacts(slots, cap);
    SecondPassIsTopUp(slots, cap);
    ReclaimIs(slots, cap);
    OpenGets(slots, SecondPass(slots, cap).0, s);
  }

  /** Under reclaim no open slot gets less than under the quota, and a slot gets more only once every open
      slot that needs more, or as much and stands before it, is filled. */
  lemma {:induction false} ReclaimInOrder(slots: seq<Slot>, cap: nat, i: nat, j: nat)
    requires UniqueIds(slots) && i < |OpenSlots(slots)| && j < |OpenSlots(slots)|
    requires Precedes(OpenSlots(slots), i, j)
    ensures
      var quota, used := Simulate(slots, cap, Quota), Simulate(slots, cap, Reclaim);
      var a, b := OpenSlots(slots)[i], OpenSlots(slots)[j];
      && Get(quota, a.id) <= Get(used, a.id)
      && (Get(used, b.id) > Get(quota, b.id) ==> Get(used, a.id) == a.need)
  {
    var open := OpenSlots(slots);
    var a, b := open[i], open[j];
    var first := FirstPass(slots, cap, Reclaim);
    OpenSlotsUnique(slots);
    OpenOrderFacts(slots);
    ServedBefore(open, i, j);
    ReclaimGets(slots, cap, a);
    ReclaimGets(slots, cap, b);
    QuotaExact(slots, cap, a);
    QuotaExact(slots, cap, b);
    OpenSlotsFacts(slots);
    TopUpRaises(OpenOrder(slots), OpenNeeds(slots), first.0, first.1, a.id);
    ReclaimWithinNeeds(slots, cap, a.id);
    if Get(Simulate(slots, cap, Reclaim), b.id) > Get(Simulate(slots, cap, Quota), b.id) {
      TopUpInOrder(OpenOrder(slots), OpenNeeds(slots), first.0, first.1, a.id, b.id);
    }
  }

  /* ------------------------------------------------------------------ quotas slot by slot */

  lemma {:induction false} AssignOthers(gaps: seq<Slot>, shares: seq<nat>, remaining: nat, out: Dict, k: string)
    requires |gaps| == |shares| && k !in SlotKeys(gaps)
    ensures Get(Assign(gaps, shares, remaining, out), k) == Get(out, k)
    decreases |gaps|
  {
    if gaps == [] {
    } else {
      assert SlotKeys(gaps)[0] == Key(gaps[0]) && SlotKeys(gaps)[1..] == SlotKeys(gaps[1..]);
      if Key(gaps[0]) == "" || remaining == 0 {
        AssignOthers(gaps[1..], shares[1..], remaining, out, k);
      } else {
        var take := Min(shares[0], remaining);
        PutSum(out, Key(gaps[0]), take);
        AssignOthers(gaps[1..], shares[1..], remaining - take, Put(out, Key(gaps[0]), take), k);
      }
    }
  }

  lemma {:induction false} KeyIsNew(done: seq<Slot>, gaps: seq<Slot>, i: nat)
    requires i < |gaps| && KeysTellApart(done + gaps)
    ensures Key(gaps[i]) !in SlotKeys(done) && Key(gaps[i]) !in SlotKeys(gaps[i + 1..])
  {
    var keys := SlotKeys(done + gaps);
    assert keys[|done| + i] == Key(gaps[i]);
    forall a | 0 <= a < |done| ensures SlotKeys(done)[a] == keys[a] != Key(gaps[i]) {
    }
    var later := SlotKeys(gaps[i + 1..]);
    forall a | 0 <= a < |later| ensures later[a] != Key(gaps[i]) {
      assert later[a] == keys[|done| + i + 1 + a];
    }
  }

  /** Slots are served in order, each up to its share, from what is left. */
  lemma {:induction false} AssignAt(done: seq<Slot>, gaps: seq<Slot>, shares: seq<nat>, remaining: nat, out: Dict,
                                    i: nat)
    requires |gaps| == |shares| && i < |gaps|
    requires KeysTellApart(done + gaps) && Keys(out) == SlotKeys(done)
    ensures Get(Assign(gaps, shares, remaining, out), Key(gaps[i])) ==
            Min(shares[i], Max(0, remaining - Total(shares[..i])))
    decreases |gaps|
  {
    KeyIsNew(done, gaps, i);
    if remaining == 0 {
      AssignNothing(gaps, shares, out);
      GetAbsent(out, Key(gaps[i]));
    } else {
      NextKeyIsNew(done, gaps);
      var take := Min(shares[0], remaining);
      var out' := Put(out, Key(gaps[0]), take);
      PutSum(out, Key(gaps[0]), take);
      if i == 0 {
        AssignOthers(gaps[1..], shares[1..], remaining - take, out', Key(gaps[0]));
      } else {
        assert done + [gaps[0]] + gaps[1..] == done + gaps;
        assert shares[..i][1..] == shares[1..][..i - 1];
        AssignAt(done + [gaps[0]], gaps[1..], shares[1..], remaining - take, out', i - 1);
      }
    }
  }

  lemma {:induction false} SharesAt(gaps: seq<Slot>, cap: nat, total: nat, i: nat)
    requires total > 0 && i < |gaps|
    ensures Shares(gaps, cap, total)[i] == Share(cap, gaps[i].weight, total)
  {
    if i > 0 {
      SharesAt(gaps[1..], cap, total, i - 1);
    }
  }

  /** At least one call, and otherwise the exact share of the weight rounded to the nearest call. */
  predicate NearestShare(share: int, cap: nat, weight: nat, total: nat) {
    && share >= 1
    && 2 * (total * share) >= 2 * (cap * weight) - total
    && (share == 1 || 2 * (total * share) <= 2 * (cap * weight) + total)
  }

  lemma {:induction false} ShareIsNearest(cap: nat, weight: nat, total: nat)
    requires total > 0
    ensures NearestShare(Share(cap, weight, total), cap, weight, total)
  {
    ShareBound(cap, weight, total);
  }

  lemma {:induction false} SharesNearest(gaps: seq<Slot>, cap: nat, total: nat, k: nat)
    requires total > 0 && k < |gaps|
    ensures NearestShare(Shares(gaps, cap, total)[k], cap, gaps[k].weight, total)
  {
    SharesAt(gaps, cap, total, k);
    ShareIsNearest(cap, gaps[k].weight, total);
  }

  /** The quota of each distinct open slot: the calls nearest to its weight's share of the cap, at least one,
      as far as the slots before it have left any. */
  lemma {:induction false} QuotaOfSlot(slots: seq<Slot>, cap: nat, i: nat) returns (shares: seq<nat>)
    requires KeysTellApart(OpenSlots(slots)) && i < |OpenSlots(slots)|
    ensures
      var gaps := OpenSlots(slots);
      && |shares| == |gaps|
      && (forall k :: 0 <= k < |gaps| ==> NearestShare(shares[k], cap, gaps[k].weight, TotalWeight(gaps)))
      && var name := if gaps[i].id != "" then gaps[i].id else gaps[i].title;
         Get(SlotEnrichQuota(slots, cap), name) == Min(shares[i], Max(0, cap - Total(shares[..i])))
  {
    var gaps := OpenSlots(slots);
    shares := Shares(gaps, cap, TotalWeight(gaps));
    forall k | 0 <= k < |gaps| ensures NearestShare(shares[k], cap, gaps[k].weight, TotalWeight(gaps)) {
      SharesNearest(gaps, cap, TotalWeight(gaps), k);
    }
    assert [] + gaps == gaps;
    if cap > 0 {
      AssignAt([], gaps, shares, cap, [], i);
    }
  }

  /* ------------------------------------------------------------------ the waste of the global strategy */

  function CoveredNeed(slots: seq<Slot>): nat {
    if slots == [] then 0 else (if slots[0].status.Covered? then slots[0].need else 0) + CoveredNeed(slots[1..])
  }

  lemma {:induction false} CoveredMeans(slots: seq<Slot>, s: Slot)
    requires UniqueIds(slots) && s in slots
    ensures s.id in CoveredIds(slots) <==> s.status.Covered?
    decreases |slots|
  {
    CoveredIdsIn(slots[1..]);
    if s != slots[0] {
      CoveredMeans(slots[1..], s);
    }
  }

  lemma {:induction false} SpentOnNeeds(slots: seq<Slot>, covered: set<string>)
    requires forall s :: s in slots ==> (s.id in covered <==> s.status.Covered?)
    ensures Spent(Pairs(slots, false), covered, true) == CoveredNeed(slots)
    ensures Spent(Pairs(slots, false), covered, false) >= OpenNeed(slots)
  {
    if slots == [] {
    } else {
      PairsHead(slots, false);
      assert slots[0] in slots && Pairs(slots, false)[1..] == Pairs(slots[1..], false);
      SpentOnNeeds(slots[1..], covered);
    }
  }

  lemma {:induction false} SameDict(a: Dict, b: Dict)
    requires Keys(a) == Keys(b) && Distinct(Keys(a)) && forall k :: k in Keys(a) ==> Get(a, k) == Get(b, k)
    ensures a == b
  {
    KeysAt(a);
    KeysAt(b);
    assert |a| == |Keys(a)| == |b|;
    forall i | 0 <= i < |a| ensures a[i] == b[i] {
      GetInDict(a, i);
      GetInDict(b, i);
      assert Keys(a)[i] in Keys(a);
    }
  }

  /** With calls for every need the global strategy wastes exactly what the covered slots are given. */
  lemma {:induction false} GlobalWasteAmple(slots: seq<Slot>, cap: nat)
    requires UniqueIds(slots) && cap >= TotalNeed(slots)
    ensures Misallocated(Simulate(slots, cap, Global), slots) == CoveredNeed(slots)
  {
    var needs, zeros := Needs(slots, []), Zeros(slots, []);
    var order, used := SortByNeed(Keys(needs), needs), Simulate(slots, cap, Global);
    ServingOrder(slots);
    PairsFacts(slots);
    OrderSumAtMost(order, needs);
    forall k ensures Get(zeros, k) == 0 {
      ZeroGet(zeros, k);
    }
    DrainSpends(order, needs, needs, zeros, cap);
    forall k | k in Keys(used) ensures Get(used, k) == Get(needs, k) {
      DrainFull(order, needs, zeros, cap, k);
    }
    SameDict(used, needs);
    forall s | s in slots ensures s.id in CoveredIds(slots) <==> s.status.Covered? {
      CoveredMeans(slots, s);
    }
    SpentOnNeeds(slots, CoveredIds(slots));
  }

  /* ------------------------------------------------------------------ when full reclaiming is called for */

  lemma {:induction false} TieRoundsUp(num: int, den: int)
    requires den > 0 && 2 * num == 139 * den
    ensures RoundHalfEven(num, den) == 70
  {
    var floor, rest := num / den, num % den;
    assert num == den * floor + rest;
    if floor < 69 {
      MulStep(den, floor, 69);
    } else if floor > 69 {
      MulStep(den, 69, floor);
    }
  }

  lemma {:induction false} PctBelow70(waste: int, base: nat)
    ensures ImprovementPct(waste, base) < 70 <==> if base == 0 then waste >= 1 else 200 * (base - waste) < 139 * base
  {
    if base == 0 {
      RoundExact(100 * (1 - waste), 1);
    } else {
      var num := 100 * (base - waste);
      var q := RoundHalfEven(num, base);
      if 2 * num == 139 * base {
        TieRoundsUp(num, base);
      } else if q < 70 {
        MulAtMost(base, q, 69);
      } else {
        MulAtMost(base, 70, q);
      }
    }
  }

  lemma {:induction false} MulAtMost(den: int, a: int, b: int)
    requires den > 0 && a <= b
    ensures den * a <= den * b
  {
    if a < b {
      MulStep(den, a, b);
    }
  }

  /** Full reclaiming is called for exactly when the quota saves less than 69.5% of what the global strategy
      wastes, or, where that wastes nothing, when the quota wastes anything. */
  lemma {:induction false} FullReclaimIff(slots: seq<Slot>, cap: nat)
    requires UniqueIds(slots)
    ensures
      var c := SimulateEnrichWaste(slots, cap);
      c.needsFullReclaim <==>
      if c.globalWaste == 0 then c.quotaWaste >= 1 else 200 * (c.globalWaste - c.quotaWaste) < 139 * c.globalWaste
  {
    GlobalSpending(slots, cap);
    SpentNonneg(Simulate(slots, cap, Global), CoveredIds(slots), true);
    var c := SimulateEnrichWaste(slots, cap);
    PctBelow70(c.quotaWaste, c.globalWaste);
  }
}
