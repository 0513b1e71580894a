/** The depth score across verdicts: what a deep label rules out, and when covering a slot may lower it. */
module DepthTheorems {
  import opened Common
  import opened Rounding
  import opened DepthScore

  /** A deep label leaves the critic nothing to object to in the coverage, save that an implementation
      was asked for and no official one was found. */
  lemma {:induction false} DeepMeans(slots: seq<Slot>, f: Facts)
    requires LabelOf(slots, f) == Deep && f.primary <= f.evidence
    ensures MustPct(slots) >= 65 && f.primary > 0 && CriticalGaps(slots) == 0
    ensures CountCritical(slots, Covered) > 0 && !f.dominated && (f.wantsNumbers ==> f.quantRows >= 2)
    ensures forall r :: Complains(slots, f, r) ==> r == NoImplementation
  {
    DeepNeedsMustAnswer(slots, f);
    DeepNeedsCritical(slots, f);
    WeightedBounds(slots, f);
  }

  /* ------------------------------------------------------------------ covering a slot */

  function Cover(slots: seq<Slot>, i: nat): seq<Slot>
    requires i < |slots|
  {
    slots[i := slots[i].(status := Covered)]
  }

  function One(b: bool): nat {
    if b then 1 else 0
  }

  lemma {:induction false} CoverTail(slots: seq<Slot>, i: nat)
    requires 0 < i < |slots|
    ensures Cover(slots, i)[0] == slots[0] && Cover(slots, i)[1..] == Cover(slots[1..], i - 1)
  {
  }

  lemma {:induction false} CoverCount(slots: seq<Slot>, i: nat, st: Status)
    requires i < |slots|
    ensures Count(Cover(slots, i), st) + One(slots[i].status == st) == Count(slots, st) + One(st == Covered)
  {
    if i == 0 {
      assert Cover(slots, 0)[1..] == slots[1..];
    } else {
      CoverTail(slots, i);
      CoverCount(slots[1..], i - 1, st);
    }
  }

  lemma {:induction false} CoverCritical(slots: seq<Slot>, i: nat, st: Status)
    requires i < |slots|
    ensures CountCritical(Cover(slots, i), st) + One(slots[i].critical && slots[i].status == st)
         == CountCritical(slots, st) + One(slots[i].critical && st == Covered)
  {
    if i == 0 {
      assert Cover(slots, 0)[1..] == slots[1..];
    } else {
      CoverTail(slots, i);
      CoverCritical(slots[1..], i - 1, st);
    }
  }

  lemma {:induction false} CoverImpl(slots: seq<Slot>, i: nat, st: Status)
    requires i < |slots|
    ensures CountImpl(Cover(slots, i), st) + One(slots[i].kind == Implementation && slots[i].status == st)
         == CountImpl(slots, st) + One(slots[i].kind == Implementation && st == Covered)
  {
    if i == 0 {
      assert Cover(slots, 0)[1..] == slots[1..];
    } else {
      CoverTail(slots, i);
      CoverImpl(slots[1..], i - 1, st);
    }
  }

  lemma {:induction false} CoverWants(slots: seq<Slot>, i: nat)
    requires i < |slots|
    ensures WantsImplementation(Cover(slots, i)) == WantsImplementation(slots)
    ensures slots[i].kind == Implementation ==> WantsImplementation(slots)
  {
    if i == 0 {
      assert Cover(slots, 0)[1..] == slots[1..];
    } else {
      CoverTail(slots, i);
      CoverWants(slots[1..], i - 1);
    }
  }

  /** The implementation component falls exactly when the slot was the only weak implementation slot,
      another one is open, and no official implementation was found. */
  predicate LosesImplementation(slots: seq<Slot>, f: Facts, i: nat)
    requires i < |slots|
  {
    && slots[i].kind == Implementation
    && slots[i].status == Weak
    && f.officialImpls == 0
    && CountImpl(slots, Weak) == 1
    && CountImpl(slots, Open) > 0
  }

  lemma {:induction false} FifthFallsIff(slots: seq<Slot>, f: Facts, i: nat)
    requires i < |slots| && slots[i].status != Covered
    ensures FifthPct(Cover(slots, i), f) < FifthPct(slots, f) <==> LosesImplementation(slots, f, i)
  {
    CoverWants(slots, i);
    CoverImpl(slots, i, Open);
    CoverImpl(slots, i, Weak);
    CoverImpl(slots, i, Covered);
  }

  lemma {:induction false} ShareMonotone(a: nat, b: nat, whole: nat)
    requires whole > 0 && a <= b
    ensures Share(a, whole) <= Share(b, whole)
  {
    RoundMonotone(100 * Min(a, whole), 100 * Min(b, whole), whole);
  }

  lemma {:induction false} CoverageRises(slots: seq<Slot>, i: nat)
    requires i < |slots| && slots[i].status != Covered
    ensures MustPct(slots) <= MustPct(Cover(slots, i)) && CrossPct(slots) <= CrossPct(Cover(slots, i))
  {
    var before, after := Count(slots, Covered), Count(Cover(slots, i), Covered);
    CoverCount(slots, i, Covered);
    ShareMonotone(before, after, Max(1, |slots|));
    ShareMonotone(before, after, 4);
  }

  lemma {:induction false} CriticalRises(slots: seq<Slot>, i: nat)
    requires i < |slots| && slots[i].status != Covered
    ensures CritPct(slots) <= CritPct(Cover(slots, i))
  {
    var next := Cover(slots, i);
    CoverCritical(slots, i, Open);
    CoverCritical(slots, i, Weak);
    CoverCritical(slots, i, Covered);
    var before := 2 * CountCritical(slots, Covered) + CountCritical(slots, Weak);
    var after := 2 * CountCritical(next, Covered) + CountCritical(next, Weak);
    assert Criticals(next) == Criticals(slots) && before <= after;
    ShareMonotone(before, after, 2 * Max(1, Criticals(slots)));
  }

  lemma {:induction false} CapsRise(slots: seq<Slot>, f: Facts, i: nat)
    requires i < |slots| && slots[i].status != Covered
    ensures EarlyCaps(slots, f) <= EarlyCaps(Cover(slots, i), f)
    ensures GapsPenalty(slots, f) >= GapsPenalty(Cover(slots, i), f)
    ensures LateCaps(slots, f) <= LateCaps(Cover(slots, i), f)
  {
    CoverageRises(slots, i);
    CoverCount(slots, i, Open);
    CoverCount(slots, i, Weak);
    CoverCritical(slots, i, Open);
    CoverCritical(slots, i, Weak);
  }

  function Sum(slots: seq<Slot>, f: Facts): int {
    35 * MustPct(slots) + 30 * CritPct(slots) + 15 * PrimaryPct(slots, f)
    + 5 * CrossPct(slots) + 5 * FifthPct(slots, f) + 10 * QuantPct(f)
  }

  lemma {:induction false} SumRises(slots: seq<Slot>, f: Facts, i: nat)
    requires i < |slots| && slots[i].status != Covered && !LosesImplementation(slots, f, i)
    ensures Sum(slots, f) <= Sum(Cover(slots, i), f)
  {
    CoverageRises(slots, i);
    CriticalRises(slots, i);
    FifthFallsIff(slots, f, i);
  }

  lemma {:induction false} WeightedRises(slots: seq<Slot>, f: Facts, i: nat)
    requires i < |slots| && slots[i].status != Covered && !LosesImplementation(slots, f, i)
    ensures Weighted(slots, f) <= Weighted(Cover(slots, i), f)
  {
    SumRises(slots, f, i);
    RoundMonotone(Sum(slots, f), Sum(Cover(slots, i), f), 100);
  }

  /** Covering a slot never lowers the score unless it loses the implementation component. */
  lemma {:induction false} CoverNeverLowers(slots: seq<Slot>, f: Facts, i: nat)
    requires i < |slots| && slots[i].status != Covered && !LosesImplementation(slots, f, i)
    ensures Score(slots, f) <= Score(Cover(slots, i), f)
  {
    WeightedRises(slots, f, i);
    CapsRise(slots, f, i);
  }

  /** In particular with at most one implementation slot. */
  lemma {:induction false} SingleImplementationMonotone(slots: seq<Slot>, f: Facts, i: nat)
    requires i < |slots| && slots[i].status != Covered
    requires CountImpl(slots, Open) + CountImpl(slots, Weak) + CountImpl(slots, Covered) <= 1
    ensures Score(slots, f) <= Score(Cover(slots, i), f)
  {
    CoverNeverLowers(slots, f, i);
  }

  /* ------------------------------------------------------------------ when the score falls */

  /** What covering slot `i` adds to the weighted sum, the fifth component apart. */
  function Gain(slots: seq<Slot>, i: nat): int
    requires i < |slots|
  {
    var c, half := Count(slots, Covered), 2 * CountCritical(slots, Covered) + CountCritical(slots, Weak);
    35 * (Share(c + 1, |slots|) - Share(c, |slots|))
    + 30 * (Share(half + One(slots[i].critical), 2 * Max(1, Criticals(slots))) - CritPct(slots))
    + 5 * (Share(c + 1, 4) - Share(c, 4))
  }

  /** What one weak slot fewer takes off the penalty. */
  function Relief(slots: seq<Slot>): int {
    Min(5, 2 * Count(slots, Weak)) - Min(5, 2 * Count(slots, Weak) - 2)
  }

  /** The 250 points of the sum lost with the implementation component outweigh all that is gained. */
  predicate LossPrevails(slots: seq<Slot>, f: Facts, i: nat)
    requires i < |slots|
  {
    0 < Score(slots, f) && AfterLoss(slots, f, i) < Score(slots, f)
  }

  /** The rounded sum less the penalty once the slot is covered. */
  function AfterLoss(slots: seq<Slot>, f: Facts, i: nat): int
    requires i < |slots|
  {
    RoundHalfEven(Sum(slots, f) - 250 + Gain(slots, i), 100) - GapsPenalty(slots, f) + Relief(slots)
  }

  lemma {:induction false} AfterLossIs(slots: seq<Slot>, f: Facts, i: nat)
    requires i < |slots| && LosesImplementation(slots, f, i)
    ensures AfterLoss(slots, f, i) == Weighted(Cover(slots, i), f) - GapsPenalty(Cover(slots, i), f)
  {
    LosingSum(slots, f, i);
    LosingPenalty(slots, f, i);
  }

  lemma {:induction false} CoveredShares(slots: seq<Slot>, i: nat)
    requires i < |slots| && slots[i].status == Weak
    ensures MustPct(Cover(slots, i)) == Share(Count(slots, Covered) + 1, |slots|)
    ensures CrossPct(Cover(slots, i)) == Share(Count(slots, Covered) + 1, 4)
  {
    CoverCount(slots, i, Covered);
  }

  lemma {:induction false} CoveredCritical(slots: seq<Slot>, i: nat)
    requires i < |slots| && slots[i].status == Weak
    ensures
      var half := 2 * CountCritical(slots, Covered) + CountCritical(slots, Weak);
      CritPct(Cover(slots, i)) == Share(half + One(slots[i].critical), 2 * Max(1, Criticals(slots)))
  {
    CoverCritical(slots, i, Open);
    CoverCritical(slots, i, Weak);
    CoverCritical(slots, i, Covered);
    assert Criticals(Cover(slots, i)) == Criticals(slots);
  }

  lemma {:induction false} LosingSum(slots: seq<Slot>, f: Facts, i: nat)
    requires i < |slots| && LosesImplementation(slots, f, i)
    ensures Sum(Cover(slots, i), f) == Sum(slots, f) - 250 + Gain(slots, i)
  {
    CoveredShares(slots, i);
    CoveredCritical(slots, i);
    LosingFifth(slots, f, i);
  }

  lemma {:induction false} LosingFifth(slots: seq<Slot>, f: Facts, i: nat)
    requires i < |slots| && LosesImplementation(slots, f, i)
    ensures FifthPct(slots, f) == 50 && FifthPct(Cover(slots, i), f) == 0
  {
    CoverWants(slots, i);
    CoverImpl(slots, i, Open);
    CoverImpl(slots, i, Weak);
  }

  lemma {:induction false} LosingPenalty(slots: seq<Slot>, f: Facts, i: nat)
    requires i < |slots| && LosesImplementation(slots, f, i)
    ensures GapsPenalty(Cover(slots, i), f) == GapsPenalty(slots, f) - Relief(slots)
  {
    CoverCount(slots, i, Open);
    CoverCount(slots, i, Weak);
  }

  lemma {:induction false} StagedFallsIff(w: int, e: int, p: int, l: int, w': int, e': int, p': int, l': int)
    requires e <= e' && p >= p' && l <= l'
    ensures Staged(w', e', p', l') < Staged(w, e, p, l) <==>
            0 < Staged(w, e, p, l) && w' - p' < Staged(w, e, p, l)
  {
  }

  lemma {:induction false} StagedMonotone(w: int, e: int, p: int, l: int, w': int, e': int, p': int, l': int)
    requires w <= w' && e <= e' && p >= p' && l <= l'
    ensures Staged(w, e, p, l) <= Staged(w', e', p', l')
  {
  }

  /** Covering a slot lowers the score exactly when it loses the implementation component and the loss
      outweighs the gain in coverage and the lower penalty. */
  lemma {:induction false} CoverLowersIff(slots: seq<Slot>, f: Facts, i: nat)
    requires i < |slots| && slots[i].status != Covered
    ensures Score(Cover(slots, i), f) < Score(slots, f) <==>
            LosesImplementation(slots, f, i) && LossPrevails(slots, f, i)
  {
    var next := Cover(slots, i);
    if LosesImplementation(slots, f, i) {
      CapsRise(slots, f, i);
      AfterLossIs(slots, f, i);
      StagedFallsIff(Weighted(slots, f), EarlyCaps(slots, f), GapsPenalty(slots, f), LateCaps(slots, f),
                     Weighted(next, f), EarlyCaps(next, f), GapsPenalty(next, f), LateCaps(next, f));
    } else {
      CoverNeverLowers(slots, f, i);
    }
  }

  lemma {:induction false} StepAtMost(k: nat, q: int, q': int, gap: nat)
    ensures q' <= q + gap ==> k * q' <= k * q + gap * k
  {
    if q' <= q + gap {
      ProductNonneg(k, q + gap - q');
      assert k * (q + gap - q') == k * q + gap * k - k * q';
    }
  }

  /** One more of at most twelve is worth at least eight percent. */
  lemma {:induction false} OneOfTwelve(c: nat, total: nat)
    requires c < total <= 12
    ensures Share(c + 1, total) >= Share(c, total) + 8
  {
    var q, q' := Share(c, total), Share(c + 1, total);
    var x, x' := total * q, total * q';
    assert 2 * x <= 200 * c + total && 200 * (c + 1) - total <= 2 * x';
    StepAtMost(total, q, q', 7);
  }

  lemma {:induction false} SomeUncovered(slots: seq<Slot>, i: nat)
    requires i < |slots| && slots[i].status != Covered
    ensures Count(slots, Covered) < |slots|
  {
    CoverCount(slots, i, slots[i].status);
    CountsAddUp(slots);
  }

  lemma {:induction false} FewSlotsSum(slots: seq<Slot>, f: Facts, i: nat)
    requires i < |slots| <= 12 && LosesImplementation(slots, f, i)
    ensures Sum(slots, f) <= Sum(Cover(slots, i), f)
  {
    SomeUncovered(slots, i);
    OneOfTwelve(Count(slots, Covered), |slots|);
    CoveredShares(slots, i);
    CoverageRises(slots, i);
    CriticalRises(slots, i);
    LosingFifth(slots, f, i);
  }

  /** With at most twelve slots covering one never lowers the score, whatever it loses. */
  lemma {:induction false} FewSlotsNeverLower(slots: seq<Slot>, f: Facts, i: nat)
    requires i < |slots| <= 12 && slots[i].status != Covered
    ensures Score(slots, f) <= Score(Cover(slots, i), f)
  {
    var next := Cover(slots, i);
    if LosesImplementation(slots, f, i) {
      FewSlotsSum(slots, f, i);
      RoundMonotone(Sum(slots, f), Sum(next, f), 100);
      CapsRise(slots, f, i);
      StagedMonotone(Weighted(slots, f), EarlyCaps(slots, f), GapsPenalty(slots, f), LateCaps(slots, f),
                     Weighted(next, f), EarlyCaps(next, f), GapsPenalty(next, f), LateCaps(next, f));
    } else {
      CoverNeverLowers(slots, f, i);
    }
  }

  /* ------------------------------------------------------------------ thirteen slots */

  function Copies(s: Slot, n: nat): seq<Slot> {
    if n == 0 then [] else [s] + Copies(s, n - 1)
  }

  lemma {:induction false} CopiesCount(s: Slot, n: nat, rest: seq<Slot>, st: Status)
    ensures |Copies(s, n) + rest| == n + |rest|
    ensures Count(Copies(s, n) + rest, st) == (if s.status == st then n else 0) + Count(rest, st)
    ensures CountCritical(Copies(s, n) + rest, st) ==
            (if s.critical && s.status == st then n else 0) + CountCritical(rest, st)
    ensures CountImpl(Copies(s, n) + rest, st) ==
            (if s.kind == Implementation && s.status == st then n else 0) + CountImpl(rest, st)
  {
    if n == 0 {
      assert Copies(s, 0) + rest == rest;
    } else {
      CopiesCount(s, n - 1, rest, st);
      assert (Copies(s, n) + rest)[1..] == Copies(s, n - 1) + rest;
    }
  }

  const CRITICAL_COVERED := Slot(true, Plain, Covered)
  const CRITICAL_WEAK := Slot(true, Plain, Weak)
  const PLAIN_COVERED := Slot(false, Plain, Covered)
  const PLAIN_WEAK := Slot(false, Plain, Weak)
  const PLAIN_OPEN := Slot(false, Plain, Open)
  const WEAK_CODE := Slot(false, Implementation, Weak)
  const OPEN_CODE := Slot(false, Implementation, Open)

  function PlainEight(): seq<Slot> {
    Copies(PLAIN_COVERED, 2) + (Copies(PLAIN_WEAK, 2) + (Copies(PLAIN_OPEN, 4) + []))
  }

  /** Four slots covered, four weak, five open; three critical; two about the implementation. */
  function Thirteen(): seq<Slot> {
    [WEAK_CODE] + (Copies(OPEN_CODE, 1) + (Copies(CRITICAL_COVERED, 2) + (Copies(CRITICAL_WEAK, 1) + PlainEight())))
  }

  lemma {:induction false} PlainCounts(st: Status)
    ensures |PlainEight()| == 8 && CountCritical(PlainEight(), st) == 0 && CountImpl(PlainEight(), st) == 0
    ensures Count(PlainEight(), st) == match st case Covered => 2 case Weak => 2 case Open => 4
  {
    var open4 := Copies(PLAIN_OPEN, 4) + [];
    CopiesCount(PLAIN_OPEN, 4, [], st);
    CopiesCount(PLAIN_WEAK, 2, open4, st);
    CopiesCount(PLAIN_COVERED, 2, Copies(PLAIN_WEAK, 2) + open4, st);
  }

  lemma {:induction false} ThirteenCounts(st: Status)
    ensures |Thirteen()| == 13
    ensures Count(Thirteen(), st) == match st case Covered => 4 case Weak => 4 case Open => 5
    ensures CountCritical(Thirteen(), st) == match st case Covered => 2 case Weak => 1 case Open => 0
    ensures CountImpl(Thirteen(), st) == match st case Covered => 0 case Weak => 1 case Open => 1
  {
    var plain := PlainEight();
    var weak := Copies(CRITICAL_WEAK, 1) + plain;
    var critical := Copies(CRITICAL_COVERED, 2) + weak;
    PlainCounts(st);
    CopiesCount(CRITICAL_WEAK, 1, plain, st);
    CopiesCount(CRITICAL_COVERED, 2, weak, st);
    CopiesCount(OPEN_CODE, 1, critical, st);
    assert Thirteen()[1..] == Copies(OPEN_CODE, 1) + critical;
  }

  /** The twelve of `FewSlotsNeverLower` is sharp: thirteen slots, three of them critical, on which
      covering the only weak implementation slot lowers the score from 32 to 31. */
  lemma {:induction false} CoveringCanLower()
    ensures
      var f := Facts(0, 0, 4, false, true, 1, 10);
      var slots := Thirteen();
      && |slots| == 13 && slots[0].status == Weak
      && Score(slots, f) == 32 && Score(Cover(slots, 0), f) == 31
  {
    var f, slots := Facts(0, 0, 4, false, true, 1, 10), Thirteen();
    ThirteenCounts(Open);
    ThirteenCounts(Weak);
    ThirteenCounts(Covered);
    CoverWants(slots, 0);
    ThirteenScore(slots, f);
    ThirteenCovered(slots, f);
  }

  ghost predicate ThirteenLike(slots: seq<Slot>, f: Facts) {
    && |slots| == 13 && f == Facts(0, 0, 4, false, true, 1, 10)
    && Count(slots, Covered) == 4 && Count(slots, Weak) == 4 && Count(slots, Open) == 5
    && CountCritical(slots, Covered) == 2 && CountCritical(slots, Weak) == 1 && CountCritical(slots, Open) == 0
    && CountImpl(slots, Covered) == 0 && CountImpl(slots, Weak) == 1 && CountImpl(slots, Open) == 1
    && WantsImplementation(slots) && slots[0] == WEAK_CODE
  }

  lemma {:induction false} ThirteenScore(slots: seq<Slot>, f: Facts)
    requires ThirteenLike(slots, f)
    ensures Sum(slots, f) == 4655 && GapsPenalty(slots, f) == 15 && Score(slots, f) == 32
  {
    assert MustPct(slots) == 31 && CritPct(slots) == 83 && QuantPct(f) == 33;
    assert PrimaryPct(slots, f) == 0 && CrossPct(slots) == 100 && FifthPct(slots, f) == 50;
    assert Weighted(slots, f) == 47;
  }

  lemma {:induction false} ThirteenCovered(slots: seq<Slot>, f: Facts)
    requires ThirteenLike(slots, f)
    ensures Score(Cover(slots, 0), f) == 31
  {
    var next := Cover(slots, 0);
    ThirteenScore(slots, f);
    LosingSum(slots, f, 0);
    LosingPenalty(slots, f, 0);
    CoverCount(slots, 0, Covered);
    CoverCritical(slots, 0, Weak);
    CoverCritical(slots, 0, Open);
    assert Share(5, 13) == 38 && Share(4, 13) == 31 && Share(5, 4) == 100 && Share(4, 4) == 100;
    assert Sum(next, f) == 4650 && Weighted(next, f) == 46;
    assert MustPct(next) == 38;
  }
}
