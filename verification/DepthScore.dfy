/** The depth score of a body of evidence against the questions it must answer. Percentages are exact
    rationals, rounded half to even. */
module DepthScore {
  import opened Common
  import opened Rounding

  datatype Status = Open | Weak | Covered

  /** `Implementation`: id or label speaks of an implementation, a source, a repository or code;
      `Library`: only of a library or an api. */
  datatype Kind = Plain | Library | Implementation

  datatype Slot = Slot(critical: bool, kind: Kind, status: Status)

  /** What the evidence shows, apart from the slots. `dominated`: one work makes up more than 35% of it. */
  datatype Facts = Facts(officialImpls: nat, primary: nat, works: nat, dominated: bool,
                         wantsNumbers: bool, quantRows: nat, evidence: nat)

  /* ------------------------------------------------------------------ counting */

  function Count(slots: seq<Slot>, st: Status): nat {
    if slots == [] then 0 else (if slots[0].status == st then 1 else 0) + Count(slots[1..], st)
  }

  function CountCritical(slots: seq<Slot>, st: Status): nat {
    if slots == [] then 0
    else (if slots[0].critical && slots[0].status == st then 1 else 0) + CountCritical(slots[1..], st)
  }

  function CountImpl(slots: seq<Slot>, st: Status): nat {
    if slots == [] then 0
    else (if slots[0].kind == Implementation && slots[0].status == st then 1 else 0) + CountImpl(slots[1..], st)
  }

  function Criticals(slots: seq<Slot>): nat {
    CountCritical(slots, Open) + CountCritical(slots, Weak) + CountCritical(slots, Covered)
  }

  function CriticalGaps(slots: seq<Slot>): nat {
    CountCritical(slots, Open) + CountCritical(slots, Weak)
  }

  predicate WantsImplementation(slots: seq<Slot>) {
    slots != [] && (slots[0].kind != Plain || WantsImplementation(slots[1..]))
  }

  /* ------------------------------------------------------------------ the six components */

  /** `part` out of `whole` in percent, at most 100. */
  function Share(part: nat, whole: nat): (pct: int)
    requires whole > 0
    ensures 0 <= pct <= 100
  {
    RoundBetween(0, 100 * Min(part, whole), 100, whole);
    RoundHalfEven(100 * Min(part, whole), whole)
  }

  function MustPct(slots: seq<Slot>): int {
    Share(Count(slots, Covered), Max(1, |slots|))
  }

  /** A weak critical slot counts half. */
  function CritPct(slots: seq<Slot>): int {
    Share(2 * CountCritical(slots, Covered) + CountCritical(slots, Weak), 2 * Max(1, Criticals(slots)))
  }

  function PrimaryPct(slots: seq<Slot>, f: Facts): int {
    Share(f.primary, Max(3, |slots| / 2))
  }

  function CrossPct(slots: seq<Slot>): int {
    Share(Count(slots, Covered), 4)
  }

  function QuantPct(f: Facts): int {
    if f.wantsNumbers then Share(f.quantRows, 3) else 100
  }

  /** Implementation evidence when the slots ask for it, source diversity otherwise. */
  function FifthPct(slots: seq<Slot>, f: Facts): int {
    if !WantsImplementation(slots) then Share(f.works, 4)
    else
      var open, weak, covered := CountImpl(slots, Open), CountImpl(slots, Weak), CountImpl(slots, Covered);
      if covered > 0 && open == 0 && weak == 0 then 100
      else if f.officialImpls > 0 || weak > 0 then 50
      else 0
  }

  function Weighted(slots: seq<Slot>, f: Facts): int {
    RoundHalfEven(35 * MustPct(slots) + 30 * CritPct(slots) + 15 * PrimaryPct(slots, f)
                  + 5 * CrossPct(slots) + 5 * FifthPct(slots, f) + 10 * QuantPct(f), 100)
  }

  /* ------------------------------------------------------------------ caps and penalties */

  function EvidenceCap(f: Facts): int {
    if f.primary > 0 then 100 else if f.evidence < 3 then 35 else if f.evidence < 5 then 45 else 55
  }

  function EarlyOf(critWeak: nat, critOpen: nat, f: Facts): int {
    Min(Min(if critWeak > 0 then 80 else 100, if critOpen > 0 then 65 else 100),
        Min(EvidenceCap(f), if f.wantsNumbers && f.quantRows < 2 then 70 else 100))
  }

  function EarlyCaps(slots: seq<Slot>, f: Facts): int {
    EarlyOf(CountCritical(slots, Weak), CountCritical(slots, Open), f)
  }

  function PenaltyOf(openCount: nat, weak: nat, f: Facts): int {
    Min(10, 3 * openCount) + Min(5, 2 * weak)
    + (if 0 < f.primary < 3 then 5 else 0)
    + (if f.evidence == 0 then 0 else if f.evidence < 3 then 25 else if f.evidence < 5 then 15
       else if f.evidence < 8 then 8 else 0)
  }

  function GapsPenalty(slots: seq<Slot>, f: Facts): int {
    PenaltyOf(Count(slots, Open), Count(slots, Weak), f)
  }

  function LateOf(must: int, dominated: bool): int {
    Min(if must < 50 then 45 else if must < 60 then 52 else 100, if dominated then 70 else 100)
  }

  function LateCaps(slots: seq<Slot>, f: Facts): int {
    LateOf(MustPct(slots), f.dominated)
  }

  /** The last stages: cap, penalty, cap. */
  function Staged(weighted: int, early: int, penalty: int, late: int): int {
    var capped := Min(weighted, early) - penalty;
    Min(if capped < 0 then 0 else capped, late)
  }

  function Score(slots: seq<Slot>, f: Facts): int {
    Staged(Weighted(slots, f), EarlyCaps(slots, f), GapsPenalty(slots, f), LateCaps(slots, f))
  }

  datatype Label = Deep | Standard | Shallow

  function LabelOf(slots: seq<Slot>, f: Facts): Label {
    var score := Score(slots, f);
    if score >= 85 && CriticalGaps(slots) == 0 then Deep else if score >= 55 then Standard else Shallow
  }

  /* ------------------------------------------------------------------ the statements of the program */

  method CountSlots(slots: seq<Slot>) returns (covered: nat, weak: nat, openCount: nat)
    ensures covered == Count(slots, Covered) && weak == Count(slots, Weak) && openCount == Count(slots, Open)
  {
    covered, weak, openCount := 0, 0, 0;
    for i := 0 to |slots|
      invariant covered + Count(slots[i..], Covered) == Count(slots, Covered)
      invariant weak + Count(slots[i..], Weak) == Count(slots, Weak)
      invariant openCount + Count(slots[i..], Open) == Count(slots, Open)
    {
      assert slots[i..][1..] == slots[i + 1..];
      match slots[i].status
      case Covered => covered := covered + 1;
      case Weak => weak := weak + 1;
      case Open => openCount := openCount + 1;
    }
  }

  lemma {:induction false} WeightedBounds(slots: seq<Slot>, f: Facts)
    ensures 0 <= Weighted(slots, f) <= 100
  {
    RoundBetween(0, 35 * MustPct(slots) + 30 * CritPct(slots) + 15 * PrimaryPct(slots, f)
                 + 5 * CrossPct(slots) + 5 * FifthPct(slots, f) + 10 * QuantPct(f), 100, 100);
  }

  /** The caps for critical gaps, for missing primary sources and for missing figures. */
  method CapForGaps(weighted: int, critWeak: nat, critOpen: nat, f: Facts) returns (overall: int)
    requires weighted <= 100
    ensures overall == Min(weighted, EarlyOf(critWeak, critOpen, f))
  {
    overall := weighted;
    if critWeak > 0 {
      overall := Min(overall, 80);
    }
    if critOpen > 0 {
      overall := Min(overall, 65);
    }
    if f.primary == 0 {
      if f.evidence < 3 {
        overall := Min(overall, 35);
      } else if f.evidence < 5 {
        overall := Min(overall, 45);
      } else {
        overall := Min(overall, 55);
      }
    }
    if f.wantsNumbers && f.quantRows < 2 {
      overall := Min(overall, 70);
    }
  }

  method PenaltyForGaps(openCount: nat, weak: nat, f: Facts) returns (gapsPenalty: nat)
    ensures gapsPenalty == PenaltyOf(openCount, weak, f)
  {
    gapsPenalty := 0;
    if openCount > 0 {
      gapsPenalty := gapsPenalty + Min(10, openCount * 3);
    }
    if weak > 0 {
      gapsPenalty := gapsPenalty + Min(5, weak * 2);
    }
    if f.primary > 0 && f.primary < 3 {
      gapsPenalty := gapsPenalty + 5;
    }
    if f.evidence > 0 {
      if f.evidence < 3 {
        gapsPenalty := gapsPenalty + 25;
      } else if f.evidence < 5 {
        gapsPenalty := gapsPenalty + 15;
      } else if f.evidence < 8 {
        gapsPenalty := gapsPenalty + 8;
      }
    }
  }

  /** The penalty, then the caps for low coverage and for one dominant work. */
  method PenaliseAndCap(capped: int, gapsPenalty: nat, must: int, dominated: bool) returns (overall: int)
    requires 0 <= capped <= 100
    ensures overall == Min(if capped - gapsPenalty < 0 then 0 else capped - gapsPenalty, LateOf(must, dominated))
  {
    overall := capped;
    if gapsPenalty > 0 {
      overall := if overall - gapsPenalty > 0 then overall - gapsPenalty else 0;
    }
    if must < 50 {
      overall := Min(overall, 45);
    } else if must < 60 {
      overall := Min(overall, 52);
    }
    if dominated {
      overall := Min(overall, 70);
    }
  }

  method ResearchQuality(slots: seq<Slot>, f: Facts) returns (overall: int, verdict: Label)
    ensures overall == Score(slots, f) && verdict == LabelOf(slots, f)
  {
    WeightedBounds(slots, f);
    var _, weak, openCount := CountSlots(slots);
    overall := CapForGaps(Weighted(slots, f), CountCritical(slots, Weak), CountCritical(slots, Open), f);
    var gapsPenalty := PenaltyForGaps(openCount, weak, f);
    overall := PenaliseAndCap(overall, gapsPenalty, MustPct(slots), f.dominated);
    var gaps := CriticalGaps(slots);
    verdict := if overall >= 85 && gaps == 0 then Deep else if overall >= 55 then Standard else Shallow;
    if gaps > 0 {
      verdict := if overall >= 55 then Standard else Shallow;
    }
  }

  /* ------------------------------------------------------------------ what a deep label means */

  lemma {:induction false} ScoreBounds(slots: seq<Slot>, f: Facts)
    ensures 0 <= Score(slots, f) <= 100
  {
    WeightedBounds(slots, f);
  }

  lemma {:induction false} CountsAddUp(slots: seq<Slot>)
    ensures Count(slots, Open) + Count(slots, Weak) + Count(slots, Covered) == |slots|
  {
    if slots == [] {
    } else {
      CountsAddUp(slots[1..]);
    }
  }

  /** The critic's complaints that depend on the coverage; a missing named subject is judged elsewhere. */
  datatype Reason = NoEvidence | CriticalGap | NoPrimary | MustAnswerLow | NoImplementation

  predicate Complains(slots: seq<Slot>, f: Facts, r: Reason) {
    match r
    case NoEvidence => f.evidence == 0
    case CriticalGap => CriticalGaps(slots) > 0
    case NoPrimary => f.primary == 0
    case MustAnswerLow => MustPct(slots) < 65
    case NoImplementation =>
      WantsImplementation(slots) && f.officialImpls == 0 && CountImpl(slots, Open) + CountImpl(slots, Weak) > 0
  }

  /** One slot short of full coverage never reads as 60% to 64%. */
  lemma {:induction false} OneGapPct(total: nat)
    requires total >= 1
    ensures total <= 2 ==> Share(total - 1, total) <= 50
    ensures total >= 3 ==> Share(total - 1, total) >= 65
  {
    if total >= 3 {
      RoundMonotone(65 * total, 100 * (total - 1), total);
      RoundExact(65, total);
    } else if total == 2 {
      RoundExact(50, 2);
    } else {
      RoundExact(0, 1);
    }
  }

  lemma {:induction false} LowMustWeighted(slots: seq<Slot>, f: Facts)
    requires MustPct(slots) < 65
    ensures Weighted(slots, f) <= 88
  {
    RoundBetween(0, 35 * MustPct(slots) + 30 * CritPct(slots) + 15 * PrimaryPct(slots, f)
                 + 5 * CrossPct(slots) + 5 * FifthPct(slots, f) + 10 * QuantPct(f), 88, 100);
  }

  /** Below 65% either two slots are not covered or the score is capped at 52. */
  lemma {:induction false} LowMustGaps(slots: seq<Slot>)
    requires MustPct(slots) < 65
    ensures MustPct(slots) < 60 || Count(slots, Open) + Count(slots, Weak) >= 2
  {
    var total := |slots|;
    CountsAddUp(slots);
    var gaps := Count(slots, Open) + Count(slots, Weak);
    if total == 0 {
      RoundExact(0, 1);
    } else if gaps == 0 {
      RoundExact(100, total);
    } else if gaps == 1 {
      OneGapPct(total);
    }
  }

  lemma {:induction false} TwoGapsPenalty(slots: seq<Slot>, f: Facts)
    requires Count(slots, Open) + Count(slots, Weak) >= 2
    ensures GapsPenalty(slots, f) >= 4
  {
  }

  lemma {:induction false} DeepNeedsMustAnswer(slots: seq<Slot>, f: Facts)
    requires Score(slots, f) >= 85
    ensures MustPct(slots) >= 65
  {
    if MustPct(slots) < 65 {
      LowMustWeighted(slots, f);
      LowMustGaps(slots);
      if MustPct(slots) >= 60 {
        TwoGapsPenalty(slots, f);
      }
    }
  }

  lemma {:induction false} DeepNeedsCritical(slots: seq<Slot>, f: Facts)
    requires Score(slots, f) >= 85
    ensures Criticals(slots) > 0
  {
    if Criticals(slots) == 0 {
      RoundExact(0, 2);
      assert CritPct(slots) == 0;
      RoundBetween(0, 35 * MustPct(slots) + 15 * PrimaryPct(slots, f)
                   + 5 * CrossPct(slots) + 5 * FifthPct(slots, f) + 10 * QuantPct(f), 70, 100);
    }
  }
}
