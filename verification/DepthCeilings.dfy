/** What each weakness leaves of the depth score, and what more evidence does to it. */
module DepthCeilings {
  import opened Common
  import opened Rounding
  import opened DepthScore
  import opened DepthTheorems

  lemma {:induction false} WeightedIsSum(slots: seq<Slot>, f: Facts)
    ensures Weighted(slots, f) == RoundHalfEven(Sum(slots, f), 100)
  {
  }

  /* ------------------------------------------------------------------ the best score with a weakness */

  /** The most that can be had without a primary source: 55, and the penalty for sparse evidence comes on
      top of the cap for it. */
  function BestWithoutPrimary(evidence: nat): int {
    if evidence == 0 then 35 else if evidence < 3 then 10 else if evidence < 5 then 30
    else if evidence < 8 then 47 else 55
  }

  lemma {:induction false} CriticalCounts(slots: seq<Slot>, st: Status)
    ensures CountCritical(slots, st) <= Count(slots, st)
  {
    if slots == [] {
    } else {
      CriticalCounts(slots[1..], st);
    }
  }

  lemma {:induction false} StagedCeilings(w: int, critWeak: nat, critOpen: nat, openCount: nat, weak: nat, f: Facts,
                                          must: int)
    requires w <= 100 && critOpen <= openCount && critWeak <= weak
    ensures
      var score := Staged(w, EarlyOf(critWeak, critOpen, f), PenaltyOf(openCount, weak, f), LateOf(must, f.dominated));
      && (critOpen > 0 ==> score <= 62)
      && (critWeak > 0 ==> score <= 78)
      && (f.primary == 0 ==> score <= BestWithoutPrimary(f.evidence))
      && (f.wantsNumbers && f.quantRows < 2 ==> score <= 70)
      && (f.dominated ==> score <= 70)
      && (must < 50 ==> score <= 45)
      && (must < 60 ==> score <= 52)
      && (0 < f.primary < 3 ==> score <= 95)
      && (0 < f.evidence < 8 ==> score <= if f.evidence < 3 then 75 else if f.evidence < 5 then 85 else 92)
  {
  }

  /** A critical slot that is open or weak costs its cap and its penalty; so does every lack of sources,
      figures, coverage or variety. */
  lemma {:induction false} Ceilings(slots: seq<Slot>, f: Facts)
    ensures CountCritical(slots, Open) > 0 ==> Score(slots, f) <= 62
    ensures CountCritical(slots, Weak) > 0 ==> Score(slots, f) <= 78
    ensures f.primary == 0 ==> Score(slots, f) <= BestWithoutPrimary(f.evidence)
    ensures f.wantsNumbers && f.quantRows < 2 ==> Score(slots, f) <= 70
    ensures f.dominated ==> Score(slots, f) <= 70
    ensures MustPct(slots) < 50 ==> Score(slots, f) <= 45
    ensures MustPct(slots) < 60 ==> Score(slots, f) <= 52
    ensures 0 < f.primary < 3 ==> Score(slots, f) <= 95
    ensures 0 < f.evidence < 8 ==>
              Score(slots, f) <= if f.evidence < 3 then 75 else if f.evidence < 5 then 85 else 92
  {
    WeightedBounds(slots, f);
    CriticalCounts(slots, Open);
    CriticalCounts(slots, Weak);
    StagedCeilings(Weighted(slots, f), CountCritical(slots, Weak), CountCritical(slots, Open),
                   Count(slots, Open), Count(slots, Weak), f, MustPct(slots));
  }

  /** Without a primary source a label better than shallow needs at least eight pieces of evidence and
      every slot covered. */
  lemma {:induction false} StandardWithoutPrimary(slots: seq<Slot>, f: Facts)
    requires f.primary == 0 && LabelOf(slots, f) != Shallow
    ensures Score(slots, f) == 55 && f.evidence >= 8 && Count(slots, Covered) == |slots| && !LabelOf(slots, f).Deep?
  {
    Ceilings(slots, f);
    CountsAddUp(slots);
  }

  const CRITICAL_OPEN := Slot(true, Plain, Open)

  /** Four critical slots covered and one more slot. */
  function Nearly(last: Slot): seq<Slot> {
    Copies(CRITICAL_COVERED, 4) + [last]
  }

  const AMPLE := Facts(0, 3, 4, false, false, 0, 8)

  lemma {:induction false} NearlyCounts(last: Slot, st: Status)
    ensures |Nearly(last)| == 5
    ensures Count(Nearly(last), st) == (if st == Covered then 4 else 0) + One(last.status == st)
    ensures CountCritical(Nearly(last), st) ==
            (if st == Covered then 4 else 0) + One(last.critical && last.status == st)
  {
    CopiesCount(CRITICAL_COVERED, 4, [last], st);
    assert [last][1..] == [];
  }

  lemma {:induction false} NearlyPlain(last: Slot)
    requires last.kind == Plain
    ensures !WantsImplementation(Nearly(last))
  {
    var slots := Nearly(last);
    assert slots == [CRITICAL_COVERED, CRITICAL_COVERED, CRITICAL_COVERED, CRITICAL_COVERED, last] by {
      assert Copies(CRITICAL_COVERED, 4) == [CRITICAL_COVERED] + Copies(CRITICAL_COVERED, 3);
      assert Copies(CRITICAL_COVERED, 3) == [CRITICAL_COVERED] + Copies(CRITICAL_COVERED, 2);
      assert Copies(CRITICAL_COVERED, 2) == [CRITICAL_COVERED] + Copies(CRITICAL_COVERED, 1);
      assert Copies(CRITICAL_COVERED, 1) == [CRITICAL_COVERED] + Copies(CRITICAL_COVERED, 0);
    }
    PlainTail(slots);
  }

  lemma {:induction false} PlainTail(slots: seq<Slot>)
    requires forall i :: 0 <= i < |slots| ==> slots[i].kind == Plain
    ensures !WantsImplementation(slots)
  {
    if slots == [] {
    } else {
      PlainTail(slots[1..]);
    }
  }

  lemma {:induction false} NearlyShares(last: Slot)
    requires last.critical
    ensures MustPct(Nearly(last)) == if last.status == Covered then 100 else 80
    ensures CritPct(Nearly(last)) == match last.status case Covered => 100 case Weak => 90 case Open => 80
    ensures CrossPct(Nearly(last)) == 100
  {
    NearlyCounts(last, Open);
    NearlyCounts(last, Weak);
    NearlyCounts(last, Covered);
    RoundExact(100, 4);
    RoundExact(match last.status case Covered => 100 case Weak => 90 case Open => 80, 10);
    RoundExact(if last.status == Covered then 100 else 80, 5);
  }

  lemma {:induction false} NearlyScore(last: Slot, f: Facts)
    requires last.kind == Plain && last.critical && f.works == 4 && f.primary in {0, 3} && !f.wantsNumbers
    ensures Weighted(Nearly(last), f) ==
            (match last.status case Covered => 100 case Weak => 90 case Open => 87) - 5 * (3 - f.primary)
    ensures MustPct(Nearly(last)) >= 60
  {
    var slots := Nearly(last);
    NearlyPlain(last);
    NearlyShares(last);
    NearlyCounts(last, Open);
    RoundExact(100, 4);
    RoundExact(0, 3);
    RoundExact(100, 3);
    WeightedIsSum(slots, f);
    assert FifthPct(slots, f) == 100 && QuantPct(f) == 100;
    assert PrimaryPct(slots, f) == if f.primary == 0 then 0 else 100;
  }

  /** Each of these ceilings is reached. */
  lemma {:induction false} CeilingsReached(evidence: nat)
    ensures Score(Nearly(CRITICAL_OPEN), AMPLE) == 62
    ensures Score(Nearly(CRITICAL_WEAK), AMPLE) == 78
    ensures Score(Nearly(CRITICAL_COVERED), AMPLE) == 100
    ensures Score(Nearly(CRITICAL_COVERED), AMPLE.(dominated := true)) == 70
    ensures Score(Nearly(CRITICAL_COVERED), AMPLE.(primary := 0, evidence := evidence)) == BestWithoutPrimary(evidence)
  {
    ReachedWith(CRITICAL_OPEN, AMPLE);
    ReachedWith(CRITICAL_WEAK, AMPLE);
    ReachedWith(CRITICAL_COVERED, AMPLE);
    ReachedWith(CRITICAL_COVERED, AMPLE.(dominated := true));
    ReachedWith(CRITICAL_COVERED, AMPLE.(primary := 0, evidence := evidence));
  }

  lemma {:induction false} ReachedWith(last: Slot, f: Facts)
    requires last.kind == Plain && last.critical && f.works == 4 && f.primary in {0, 3} && !f.wantsNumbers
    ensures last.status == Open && f == AMPLE ==> Score(Nearly(last), f) == 62
    ensures last.status == Weak && f == AMPLE ==> Score(Nearly(last), f) == 78
    ensures last.status == Covered && f == AMPLE ==> Score(Nearly(last), f) == 100
    ensures last.status == Covered && f == AMPLE.(dominated := true) ==> Score(Nearly(last), f) == 70
    ensures last.status == Covered && f.primary == 0 && !f.dominated ==>
              Score(Nearly(last), f) == BestWithoutPrimary(f.evidence)
  {
    NearlyScore(last, f);
    NearlyCounts(last, Open);
    NearlyCounts(last, Weak);
  }

  lemma {:induction false} CopiesPlain(s: Slot, n: nat, rest: seq<Slot>)
    requires s.kind == Plain && !WantsImplementation(rest)
    ensures !WantsImplementation(Copies(s, n) + rest)
  {
    if n == 0 {
      assert Copies(s, 0) + rest == rest;
    } else {
      CopiesPlain(s, n - 1, rest);
      assert (Copies(s, n) + rest)[1..] == Copies(s, n - 1) + rest;
    }
  }

  /** Some critical slots covered and some plain ones open. */
  function Mixed(covered: nat, openCount: nat): seq<Slot> {
    Copies(CRITICAL_COVERED, covered) + (Copies(PLAIN_OPEN, openCount) + [])
  }

  ghost predicate MixedLike(slots: seq<Slot>, covered: nat, openCount: nat) {
    && |slots| == covered + openCount && !WantsImplementation(slots)
    && Count(slots, Covered) == covered == CountCritical(slots, Covered)
    && Count(slots, Open) == openCount && Count(slots, Weak) == 0
    && CountCritical(slots, Open) == 0 && CountCritical(slots, Weak) == 0
  }

  lemma {:induction false} MixedCounts(covered: nat, openCount: nat)
    ensures MixedLike(Mixed(covered, openCount), covered, openCount)
  {
    var tail := Copies(PLAIN_OPEN, openCount) + [];
    CopiesCount(PLAIN_OPEN, openCount, [], Open);
    CopiesCount(PLAIN_OPEN, openCount, [], Weak);
    CopiesCount(PLAIN_OPEN, openCount, [], Covered);
    CopiesCount(CRITICAL_COVERED, covered, tail, Open);
    CopiesCount(CRITICAL_COVERED, covered, tail, Weak);
    CopiesCount(CRITICAL_COVERED, covered, tail, Covered);
    CopiesPlain(PLAIN_OPEN, openCount, []);
    CopiesPlain(CRITICAL_COVERED, covered, tail);
  }

  lemma {:induction false} MixedScore(slots: seq<Slot>, covered: nat, openCount: nat, must: int, cross: int)
    requires MixedLike(slots, covered, openCount) && 1 <= covered <= 4 && |slots| <= 7
    requires must == Share(covered, covered + openCount) && cross == Share(covered, 4)
    ensures MustPct(slots) == must
    ensures Weighted(slots, AMPLE) == RoundHalfEven(35 * must + 3000 + 1500 + 5 * cross + 500 + 1000, 100)
  {
    RoundExact(100, 2 * covered);
    RoundExact(100, 3);
    RoundExact(100, 4);
  }

  lemma {:induction false} MixedStaged(w: int, openCount: nat, must: int)
    requires 0 <= w <= 100 && openCount <= 2
    ensures Staged(w, EarlyOf(0, 0, AMPLE), PenaltyOf(openCount, 0, AMPLE), LateOf(must, false)) ==
            Min(Max(0, w - 3 * openCount), if must < 50 then 45 else if must < 60 then 52 else 100)
  {
  }

  lemma {:induction false} MixedReached(covered: nat, openCount: nat, must: int, cross: int)
    requires 1 <= covered <= 4 && openCount <= 2
    requires must == Share(covered, covered + openCount) && cross == Share(covered, 4)
    ensures Score(Mixed(covered, openCount), AMPLE) ==
            Min(Max(0, RoundHalfEven(35 * must + 3000 + 1500 + 5 * cross + 500 + 1000, 100) - 3 * openCount),
                if must < 50 then 45 else if must < 60 then 52 else 100)
  {
    var slots := Mixed(covered, openCount);
    MixedCounts(covered, openCount);
    MixedScore(slots, covered, openCount, must, cross);
    WeightedBounds(slots, AMPLE);
    MixedStaged(Weighted(slots, AMPLE), openCount, must);
  }

  lemma {:induction false} MixedShares()
    ensures Share(1, 3) == 33 && Share(1, 2) == 50 && Share(3, 5) == 60 && Share(1, 4) == 25 && Share(3, 4) == 75
  {
  }

  lemma {:induction false} MixedRounds()
    ensures RoundHalfEven(7280, 100) == 73 && RoundHalfEven(7875, 100) == 79 && RoundHalfEven(8475, 100) == 85
  {
  }

  /** So are the caps on coverage: a third, a half and three fifths of the slots covered. */
  lemma {:induction false} CoverageCapsReached()
    ensures Score(Mixed(1, 2), AMPLE) == 45 && Score(Mixed(1, 1), AMPLE) == 52 && Score(Mixed(3, 2), AMPLE) == 79
  {
    MixedShares();
    MixedRounds();
    MixedReached(1, 2, 33, 25);
    MixedReached(1, 1, 50, 25);
    MixedReached(3, 2, 60, 75);
  }

  /** With figures asked for, two rows of them lift the cap of 70. */
  lemma {:induction false} TwoRowsSuffice()
    ensures Score(Nearly(CRITICAL_COVERED), AMPLE.(wantsNumbers := true, quantRows := 1)) == 70
    ensures Score(Nearly(CRITICAL_COVERED), AMPLE.(wantsNumbers := true, quantRows := 2)) == 97
  {
    FiguresScore(1);
    FiguresScore(2);
  }

  lemma {:induction false} FiguresScore(rows: nat)
    requires rows == 1 || rows == 2
    ensures
      var f := AMPLE.(wantsNumbers := true, quantRows := rows);
      Score(Nearly(CRITICAL_COVERED), f) == if rows == 1 then 70 else 97
  {
    var slots, f := Nearly(CRITICAL_COVERED), AMPLE.(wantsNumbers := true, quantRows := rows);
    NearlyPlain(CRITICAL_COVERED);
    NearlyShares(CRITICAL_COVERED);
    NearlyCounts(CRITICAL_COVERED, Open);
    NearlyCounts(CRITICAL_COVERED, Weak);
    RoundExact(100, 4);
    RoundExact(100, 3);
    WeightedIsSum(slots, f);
    assert FifthPct(slots, f) == 100 && PrimaryPct(slots, f) == 100;
    assert QuantPct(f) == if rows == 1 then 33 else 67;
  }

  lemma {:induction false} LibraryWants(slots: seq<Slot>, i: nat)
    requires i < |slots| && slots[i].kind == Library
    ensures WantsImplementation(slots)
  {
    if i > 0 {
      LibraryWants(slots[1..], i - 1);
    }
  }

  /** A question that speaks of a library or an api, but of no implementation, never has the full fifth
      component, however its slots are covered: its score stops at 98. */
  lemma {:induction false} LibraryNeverFull(slots: seq<Slot>, f: Facts, at: nat)
    requires at < |slots| && slots[at].kind == Library
    requires forall i :: 0 <= i < |slots| ==> slots[i].kind != Implementation
    ensures FifthPct(slots, f) == (if f.officialImpls > 0 then 50 else 0) && Score(slots, f) <= 98
  {
    LibraryWants(slots, at);
    NoImplementations(slots, Open);
    NoImplementations(slots, Weak);
    NoImplementations(slots, Covered);
    WeightedIsSum(slots, f);
    RoundMonotone(Sum(slots, f), 9750, 100);
  }

  lemma {:induction false} NoImplementations(slots: seq<Slot>, st: Status)
    requires forall i :: 0 <= i < |slots| ==> slots[i].kind != Implementation
    ensures CountImpl(slots, st) == 0
  {
    if slots == [] {
    } else {
      NoImplementations(slots[1..], st);
    }
  }

  /* ------------------------------------------------------------------ more evidence */

  lemma {:induction false} StagedEvidence(w: int, critWeak: nat, critOpen: nat, openCount: nat, weak: nat, f: Facts,
                                          must: int)
    requires w <= 100 && f.primary <= f.evidence
    ensures
      var g := f.(evidence := f.evidence + 1);
      var score := Staged(w, EarlyOf(critWeak, critOpen, f), PenaltyOf(openCount, weak, f), LateOf(must, f.dominated));
      Staged(w, EarlyOf(critWeak, critOpen, g), PenaltyOf(openCount, weak, g), LateOf(must, f.dominated)) < score <==>
      f.evidence == 0 && score > 0
  {
  }

  lemma {:induction false} SumWithEvidence(slots: seq<Slot>, f: Facts, evidence: nat)
    ensures Sum(slots, f.(evidence := evidence)) == Sum(slots, f)
  {
  }

  /** One more piece of evidence lowers the score exactly when it is the first one and there is a score to
      lose: no evidence at all is not penalised as sparse. */
  lemma {:induction false} EvidenceLowersIff(slots: seq<Slot>, f: Facts)
    requires f.primary <= f.evidence
    ensures Score(slots, f.(evidence := f.evidence + 1)) < Score(slots, f) <==> f.evidence == 0 && Score(slots, f) > 0
  {
    WeightedBounds(slots, f);
    SumWithEvidence(slots, f, f.evidence + 1);
    WeightedIsSum(slots, f);
    WeightedIsSum(slots, f.(evidence := f.evidence + 1));
    StagedEvidence(Weighted(slots, f), CountCritical(slots, Weak), CountCritical(slots, Open),
                   Count(slots, Open), Count(slots, Weak), f, MustPct(slots));
  }

  /** The rounded sum with one primary source instead of none. */
  function WithFirst(slots: seq<Slot>, f: Facts): int {
    RoundHalfEven(Sum(slots, f) + 15 * Share(1, Max(3, |slots| / 2)), 100)
  }

  /** The first primary source: its share of the weighted sum does not make up for the 5 points by which
      one or two primary sources count as sparse. */
  predicate FirstPrimaryCosts(slots: seq<Slot>, f: Facts) {
    0 < Score(slots, f) && WithFirst(slots, f) - GapsPenalty(slots, f) - 5 < Score(slots, f)
  }

  lemma {:induction false} SumWithPrimary(slots: seq<Slot>, f: Facts)
    ensures
      var g := f.(primary := f.primary + 1);
      Sum(slots, g) == Sum(slots, f) + 15 * (PrimaryPct(slots, g) - PrimaryPct(slots, f))
  {
  }

  lemma {:induction false} PrimaryPctRises(slots: seq<Slot>, f: Facts)
    ensures PrimaryPct(slots, f) <= PrimaryPct(slots, f.(primary := f.primary + 1))
    ensures f.primary == 0 ==> PrimaryPct(slots, f) == 0
  {
    var whole := Max(3, |slots| / 2);
    ShareMonotone(f.primary, f.primary + 1, whole);
    RoundExact(0, whole);
  }

  lemma {:induction false} PrimaryShareRises(slots: seq<Slot>, f: Facts)
    ensures
      var g := f.(primary := f.primary + 1);
      && Weighted(slots, f) <= Weighted(slots, g)
      && (f.primary == 0 ==> Weighted(slots, g) == WithFirst(slots, f))
  {
    var g := f.(primary := f.primary + 1);
    SumWithPrimary(slots, f);
    PrimaryPctRises(slots, f);
    WeightedIsSum(slots, f);
    WeightedIsSum(slots, g);
    RoundMonotone(Sum(slots, f), Sum(slots, g), 100);
  }

  lemma {:induction false} StagedPrimary(w: int, w': int, critWeak: nat, critOpen: nat, openCount: nat, weak: nat,
                                         f: Facts, must: int)
    requires w <= w' && f.primary < f.evidence
    ensures
      var g := f.(primary := f.primary + 1);
      var score := Staged(w, EarlyOf(critWeak, critOpen, f), PenaltyOf(openCount, weak, f), LateOf(must, f.dominated));
      Staged(w', EarlyOf(critWeak, critOpen, g), PenaltyOf(openCount, weak, g), LateOf(must, f.dominated)) < score <==>
      f.primary == 0 && 0 < score && w' - PenaltyOf(openCount, weak, f) - 5 < score
  {
  }

  /** One more of the pieces proving primary lowers the score exactly when it is the first one and its
      share does not make up for the penalty. */
  lemma {:induction false} PrimaryLowersIff(slots: seq<Slot>, f: Facts)
    requires f.primary < f.evidence
    ensures Score(slots, f.(primary := f.primary + 1)) < Score(slots, f) <==>
            f.primary == 0 && FirstPrimaryCosts(slots, f)
  {
    PrimaryShareRises(slots, f);
    StagedPrimary(Weighted(slots, f), Weighted(slots, f.(primary := f.primary + 1)), CountCritical(slots, Weak),
                  CountCritical(slots, Open), Count(slots, Open), Count(slots, Weak), f, MustPct(slots));
  }

  /** Six of twelve slots covered, the others open. */
  function Half(): seq<Slot> {
    Copies(PLAIN_COVERED, 6) + (Copies(PLAIN_OPEN, 6) + [])
  }

  lemma {:induction false} HalfCounts(st: Status)
    ensures |Half()| == 12 && CountCritical(Half(), st) == 0
    ensures Count(Half(), st) == match st case Covered => 6 case Weak => 0 case Open => 6
  {
    CopiesCount(PLAIN_OPEN, 6, [], st);
    CopiesCount(PLAIN_COVERED, 6, Copies(PLAIN_OPEN, 6) + [], st);
  }

  /** Both happen: the first primary source costs 3 points of 28, and the first piece of evidence all 7. */
  lemma {:induction false} MoreCanBeLess()
    ensures
      var f := Facts(0, 0, 4, false, false, 0, 8);
      Score(Half(), f) == 28 && Score(Half(), f.(primary := 1)) == 25
    ensures
      var f := Facts(0, 0, 0, false, false, 0, 0);
      var open := Copies(PLAIN_OPEN, 1) + [];
      Score(open, f) == 7 && Score(open, f.(evidence := 1)) == 0
  {
    var slots := Half();
    HalfCounts(Open);
    HalfCounts(Weak);
    HalfCounts(Covered);
    CopiesPlain(PLAIN_OPEN, 6, []);
    CopiesPlain(PLAIN_COVERED, 6, Copies(PLAIN_OPEN, 6) + []);
    HalfScore(slots, Facts(0, 0, 4, false, false, 0, 8));
    HalfScore(slots, Facts(0, 1, 4, false, false, 0, 8));
    OpenScore(Facts(0, 0, 0, false, false, 0, 0));
    OpenScore(Facts(0, 0, 0, false, false, 0, 1));
  }

  ghost predicate HalfLike(slots: seq<Slot>, f: Facts) {
    && (f == Facts(0, 0, 4, false, false, 0, 8) || f == Facts(0, 1, 4, false, false, 0, 8))
    && |slots| == 12 && Count(slots, Covered) == 6 && Count(slots, Weak) == 0 && Count(slots, Open) == 6
    && CountCritical(slots, Covered) == 0 && CountCritical(slots, Weak) == 0 && CountCritical(slots, Open) == 0
    && !WantsImplementation(slots)
  }

  lemma {:induction false} HalfShares(slots: seq<Slot>, f: Facts)
    requires HalfLike(slots, f)
    ensures MustPct(slots) == 50 && CritPct(slots) == 0 && CrossPct(slots) == 100
    ensures PrimaryPct(slots, f) == if f.primary == 0 then 0 else 17
    ensures FifthPct(slots, f) == 100 && QuantPct(f) == 100
  {
    RoundExact(50, 12);
    RoundExact(0, 2);
    RoundExact(100, 4);
  }

  lemma {:induction false} HalfScore(slots: seq<Slot>, f: Facts)
    requires HalfLike(slots, f)
    ensures Score(slots, f) == if f.primary == 0 then 28 else 25
  {
    HalfShares(slots, f);
    WeightedIsSum(slots, f);
    assert Sum(slots, f) == if f.primary == 0 then 3750 else 4005;
    assert Weighted(slots, f) == if f.primary == 0 then 38 else 40;
    assert GapsPenalty(slots, f) == if f.primary == 0 then 10 else 15;
  }

  lemma {:induction false} OpenScore(f: Facts)
    requires f == Facts(0, 0, 0, false, false, 0, 0) || f == Facts(0, 0, 0, false, false, 0, 1)
    ensures Score(Copies(PLAIN_OPEN, 1) + [], f) == if f.evidence == 0 then 7 else 0
  {
    var open := Copies(PLAIN_OPEN, 1) + [];
    CopiesCount(PLAIN_OPEN, 1, [], Open);
    CopiesCount(PLAIN_OPEN, 1, [], Weak);
    CopiesCount(PLAIN_OPEN, 1, [], Covered);
    CopiesPlain(PLAIN_OPEN, 1, []);
    assert MustPct(open) == 0 && CritPct(open) == 0 && CrossPct(open) == 0;
    assert PrimaryPct(open, f) == 0 && FifthPct(open, f) == 0 && QuantPct(f) == 100;
  }
}
