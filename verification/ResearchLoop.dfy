/** The research graph: routers between nodes, and bounds on every run. What a node body does is assumed
    only as far as `Writes` says. */
module ResearchLoop {
  import opened Common

  /** `Agents` stands for search, scholar and docs, which run side by side and meet in `Collector`. */
  datatype Node = Briefing | Planner | PlanGate | Agents | Collector | Enrich | Retrieve | Extract
                | Critic | Hitl | Report | MemoGate | End

  /* ------------------------------------------------------------------ the budget */

  datatype Budget = Budget(maxRetrieval: int, maxEnrich: int, maxTokens: int, maxIterations: int,
                           usedRetrieval: int, usedEnrich: int, usedTokens: int, iterations: nat)

  function RemainingCalls(b: Budget): nat {
    Max(0, b.maxRetrieval - b.usedRetrieval)
  }

  function RemainingEnrich(b: Budget): nat {
    Max(0, b.maxEnrich - b.usedEnrich)
  }

  function RemainingTokens(b: Budget): nat {
    Max(0, b.maxTokens - b.usedTokens)
  }

  function RemainingIterations(b: Budget): nat {
    Max(0, b.maxIterations - b.iterations)
  }

  predicate Exhausted(b: Budget) {
    || (RemainingCalls(b) <= 0 && RemainingEnrich(b) <= 0)
    || RemainingTokens(b) <= 0
    || RemainingIterations(b) <= 0
  }

  predicate BudgetBlocksLoop(b: Budget) {
    Exhausted(b) || RemainingIterations(b) <= 0 || RemainingCalls(b) <= 0
  }

  datatype Verdict = Sufficient | Insufficient | Contradicted
  datatype GateReason = GateSufficient | GateInsufficientCoverage | GateInsufficientBudget | GateContradicted
  datatype Gate = Gate(reason: GateReason, canLoop: bool, budgetExhausted: bool)

  function CoverageGate(coverageOk: bool, verdict: Verdict, b: Budget, canLoop: bool): Gate {
    var exhausted := BudgetBlocksLoop(b);
    var loopOpen := canLoop && !exhausted;
    Gate(if verdict == Contradicted then GateContradicted
         else if coverageOk && verdict == Sufficient then GateSufficient
         else if !coverageOk && !loopOpen then GateInsufficientBudget
         else if !coverageOk then GateInsufficientCoverage
         else GateSufficient,
         loopOpen, exhausted)
  }

  /* ------------------------------------------------------------------ the state of a run */

  /** One critic visit as the history keeps it. */
  datatype Entry = Entry(sources: int, must: int, depth: int)

  datatype Status = Researching | OutOfScope | Cancelled | Approved | Revising | RevisingQuality
                  | IntegrityResearch | Draft | Completed

  /** `followups`: some follow-up query is pending. `cached`: a prior answer is served as it is. `agents`:
      agents are to run. `revise`: the human's last decision sends the work back. `patience`: how often
      the human will still do so. */
  datatype State = State(node: Node, budget: Budget, verdict: Verdict, followups: bool, must: int, depth: int,
                         history: seq<Entry>, outOfScope: bool, cached: bool, agents: bool, status: Status,
                         revise: bool, integrityRetries: nat, qualityCount: nat, mandatoryRetries: nat,
                         patience: nat)

  function Abs(x: int): int {
    if x < 0 then -x else x
  }

  /** The last three entries show no movement. */
  predicate Flat(history: seq<Entry>) {
    |history| >= 3 &&
    var a, b, c := history[|history| - 3], history[|history| - 2], history[|history| - 1];
    && a.sources == b.sources == c.sources
    && Abs(c.must - b.must) < 2 && Abs(b.must - a.must) < 2
    && Abs(c.depth - b.depth) < 3 && Abs(b.depth - a.depth) < 3
  }

  /* ------------------------------------------------------------------ the routers */

  function AfterBriefing(s: State): Node {
    if s.outOfScope || s.status == Cancelled then Report else Planner
  }

  function AfterPlanner(s: State): Node {
    if s.outOfScope then Report else if s.cached then Report else PlanGate
  }

  function AfterPlanGate(s: State): Node {
    if s.outOfScope || s.status == Cancelled then Report
    else if s.cached then Report
    else if !s.agents then Collector
    else Agents
  }

  function AfterCritic(s: State, stop: Node): Node {
    if Exhausted(s.budget) || RemainingCalls(s.budget) <= 0 then stop
    else if s.verdict == Sufficient then stop
    else if s.followups && RemainingIterations(s.budget) > 0 then
      if s.must >= 75 && s.depth >= 80 then stop
      else if Flat(s.history) then stop
      else Planner
    else stop
  }

  function AfterHitl(s: State): Node {
    if s.revise then Planner else Report
  }

  function AfterReport(s: State): Node {
    if s.status == IntegrityResearch then Planner else MemoGate
  }

  function AfterMemoGate(s: State): Node {
    if s.status == Revising then Critic else if s.status == RevisingQuality then Report else End
  }

  /** The edge table; `hitl`: the graph is built with the human review node. */
  function Route(hitl: bool, from: Node, s: State): Node {
    match from
    case Briefing => AfterBriefing(s)
    case Planner => AfterPlanner(s)
    case PlanGate => AfterPlanGate(s)
    case Agents => Collector
    case Collector => Enrich
    case Enrich => Retrieve
    case Retrieve => Extract
    case Extract => Critic
    case Critic => AfterCritic(s, if hitl then Hitl else Report)
    case Hitl => AfterHitl(s)
    case Report => AfterReport(s)
    case MemoGate => AfterMemoGate(s)
    case End => End
  }

  /* ------------------------------------------------------------------ what the nodes write */

  /** Iteration count and limit stay. */
  predicate SameIterations(s: State, t: State) {
    t.budget.iterations == s.budget.iterations && t.budget.maxIterations == s.budget.maxIterations
  }

  predicate SameRetries(s: State, t: State) {
    t.integrityRetries == s.integrityRetries && t.qualityCount == s.qualityCount
    && t.mandatoryRetries == s.mandatoryRetries
  }

  /** Each planner visit counts an iteration; the first one lifts the limit to at least 6. */
  predicate PlannerWrites(s: State, t: State) {
    && t.budget.iterations == s.budget.iterations + 1
    && t.budget.maxIterations ==
       (if t.budget.iterations == 1 then Max(s.budget.maxIterations, 6) else s.budget.maxIterations)
    && t.history == s.history && SameRetries(s, t) && t.patience == s.patience
  }

  predicate CriticWrites(s: State, t: State) {
    && SameIterations(s, t) && SameRetries(s, t) && t.patience == s.patience
    && |t.history| == |s.history| + 1 && t.history[..|s.history|] == s.history
  }

  /** Sending the work back buys one more iteration, up to 8. */
  predicate HitlWrites(s: State, t: State) {
    && t.history == s.history && SameRetries(s, t) && t.budget.iterations == s.budget.iterations
    && (if t.revise then
          && s.patience > 0 && t.patience == s.patience - 1
          && t.budget.maxIterations == Min(8, Max(s.budget.maxIterations, s.budget.iterations + 1))
        else t.patience == s.patience && t.budget.maxIterations == s.budget.maxIterations)
  }

  /** The report asks for more research at most once. */
  predicate ReportWrites(s: State, t: State) {
    && t.history == s.history && SameIterations(s, t) && t.patience == s.patience
    && t.qualityCount == s.qualityCount && t.mandatoryRetries == s.mandatoryRetries
    && (if t.status == IntegrityResearch then
          s.integrityRetries < 1 && RemainingIterations(s.budget) > 0 && t.integrityRetries == s.integrityRetries + 1
        else t.integrityRetries == s.integrityRetries)
  }

  /** Back to the critic once for missing mandatory sources or as the human decides; back to the report
      at most twice for quality. */
  predicate MemoGateWrites(s: State, t: State) {
    && t.history == s.history && SameIterations(s, t) && t.integrityRetries == s.integrityRetries
    && (if t.status == RevisingQuality then
          && s.qualityCount < 2 && t.qualityCount == s.qualityCount + 1
          && t.mandatoryRetries == s.mandatoryRetries && t.patience == s.patience
        else if t.status == Revising then
          && t.qualityCount == s.qualityCount
          && (|| (s.mandatoryRetries < 1 && t.mandatoryRetries == s.mandatoryRetries + 1 && t.patience == s.patience)
              || (s.patience > 0 && t.patience == s.patience - 1 && t.mandatoryRetries == s.mandatoryRetries))
        else t.qualityCount == s.qualityCount && t.mandatoryRetries == s.mandatoryRetries && t.patience == s.patience)
  }

  predicate Writes(s: State, t: State) {
    match s.node
    case Planner => PlannerWrites(s, t)
    case Critic => CriticWrites(s, t)
    case Hitl => HitlWrites(s, t)
    case Report => ReportWrites(s, t)
    case MemoGate => MemoGateWrites(s, t)
    case End => false
    case _ => t.history == s.history && SameIterations(s, t) && SameRetries(s, t) && t.patience == s.patience
  }

  /** One node runs and the router picks the next. */
  predicate Next(hitl: bool, s: State, t: State) {
    Writes(s, t) && t.node == Route(hitl, s.node, t)
  }

  predicate Run(hitl: bool, states: seq<State>) {
    |states| < 2 || (Next(hitl, states[0], states[1]) && Run(hitl, states[1..]))
  }

  predicate Start(s: State) {
    s.node == Briefing && s.budget.iterations == 0 && s.history == []
    && s.integrityRetries == 0 && s.qualityCount == 0 && s.mandatoryRetries == 0
  }

  /* ------------------------------------------------------------------ when the critic loops */

  /** Something is left of retrieval calls, tokens and iterations; the enrich pool does not count. */
  predicate Affordable(b: Budget) {
    b.usedRetrieval < b.maxRetrieval && b.usedTokens < b.maxTokens && b.iterations < b.maxIterations
  }

  /** The gate lets the loop go on exactly while it is affordable and wanted. It names a contradiction
      first, then whether coverage is reached, whatever the verdict, and last whether the loop is shut. */
  lemma {:induction false} GateMeans(coverageOk: bool, verdict: Verdict, b: Budget, canLoop: bool)
    ensures
      var gate := CoverageGate(coverageOk, verdict, b, canLoop);
      && (gate.budgetExhausted <==> !Affordable(b))
      && (gate.canLoop <==> canLoop && Affordable(b))
      && (gate.reason == GateContradicted <==> verdict == Contradicted)
      && (gate.reason == GateSufficient <==> verdict != Contradicted && coverageOk)
      && (gate.reason == GateInsufficientBudget <==> verdict != Contradicted && !coverageOk && !gate.canLoop)
  {
  }

  /** From one critic visit to the next the sources changed, or coverage by 2 points, or depth by 3. */
  predicate Moves(a: Entry, b: Entry) {
    || a.sources != b.sources
    || a.must + 2 <= b.must || b.must + 2 <= a.must
    || a.depth + 3 <= b.depth || b.depth + 3 <= a.depth
  }

  predicate Moving(history: seq<Entry>) {
    var n := |history|;
    n >= 3 ==> Moves(history[n - 3], history[n - 2]) || Moves(history[n - 2], history[n - 1])
  }

  /** The critic's edge to the planner is open exactly when the loop is affordable, the verdict is not
      sufficient, follow-ups are pending, quality is not yet excellent and one of the last two visits moved. */
  lemma {:induction false} CriticLoopsIff(s: State, stop: Node)
    requires stop != Planner
    ensures AfterCritic(s, stop) == Planner <==>
            && Affordable(s.budget) && s.verdict != Sufficient && s.followups
            && (s.must < 75 || s.depth < 80) && Moving(s.history)
  {
  }

  /** How often a run takes the edge from critic to planner. */
  function Loops(states: seq<State>): nat {
    if |states| < 2 then 0
    else (if states[0].node == Critic && states[1].node == Planner then 1 else 0) + Loops(states[1..])
  }

  function Pending(s: State): nat {
    if s.node == Planner then 1 else 0
  }

  /** The limit a run may reach: the configured one, 6 after the first planner visit, 8 with a human. */
  function Limit(s: State): int {
    Max(s.budget.maxIterations, if s.patience > 0 then 8 else 6)
  }

  lemma {:induction false} StepCapped(hitl: bool, s: State, t: State, cap: int)
    requires Next(hitl, s, t) && Limit(s) <= cap
    ensures Limit(t) <= cap
    ensures s.node == Critic && t.node == Planner ==> s.budget.iterations + 1 <= cap
    ensures s.node == Planner ==> t.node != Planner && t.budget.iterations == s.budget.iterations + 1
    ensures s.node != Planner ==> t.budget.iterations == s.budget.iterations
  {
  }

  lemma {:induction false} LoopsBounded(hitl: bool, states: seq<State>, cap: int)
    requires states != [] && Run(hitl, states) && Limit(states[0]) <= cap
    ensures states[0].budget.iterations + Pending(states[0]) + Loops(states) <=
            Max(cap, states[0].budget.iterations + Pending(states[0]))
  {
    if |states| >= 2 {
      var s, t := states[0], states[1];
      StepCapped(hitl, s, t, cap);
      LoopsBounded(hitl, states[1..], cap);
      assert states[1..][0] == t;
    }
  }

  /** From the start, the critic sends the run back to the planner at most as often as the limit allows. */
  lemma {:induction false} CriticLoopBound(hitl: bool, states: seq<State>)
    requires states != [] && Run(hitl, states) && Start(states[0])
    ensures Loops(states) <= Limit(states[0])
  {
    LoopsBounded(hitl, states, Limit(states[0]));
  }

  /** Every such edge of a run is affordable and wanted: the verdict is not sufficient, the quality not
      excellent, and one of the last two critic visits moved. */
  lemma {:induction false} LoopEdgesAreOpen(hitl: bool, states: seq<State>, i: nat)
    requires Run(hitl, states) && i + 1 < |states| && states[i].node == Critic && states[i + 1].node == Planner
    ensures
      var s := states[i + 1];
      && |s.history| == |states[i].history| + 1
      && Affordable(s.budget) && s.verdict != Sufficient && s.followups
      && (s.must < 75 || s.depth < 80) && Moving(s.history)
    decreases |states|
  {
    if i > 0 {
      LoopEdgesAreOpen(hitl, states[1..], i - 1);
    } else {
      CriticLoopsIff(states[1], if hitl then Hitl else Report);
    }
  }

  /* ------------------------------------------------------------------ every run ends */

  /** Distance to the end along edges that go forward. */
  function Rank(n: Node): nat {
    match n
    case Briefing => 12 case Planner => 11 case PlanGate => 10 case Agents => 9 case Collector => 8
    case Enrich => 7 case Retrieve => 6 case Extract => 5 case Critic => 4 case Hitl => 3
    case Report => 2 case MemoGate => 1 case End => 0
  }

  /** The times an edge may still lead back: research loops, human revisions, and the three retry counters. */
  function Credit(s: State, cap: int): nat {
    Max(0, cap - s.budget.iterations - Pending(s)) + s.patience
    + Max(0, 1 - s.integrityRetries) + Max(0, 2 - s.qualityCount) + Max(0, 1 - s.mandatoryRetries)
  }

  function Potential(s: State, cap: int): nat {
    13 * Credit(s, cap) + Rank(s.node)
  }

  lemma {:induction false} CreditNeverGrows(hitl: bool, s: State, t: State, cap: int)
    requires Next(hitl, s, t) && Limit(s) <= cap
    ensures Credit(t, cap) <= Credit(s, cap)
  {
  }

  /** Nodes that write no counter only go forward. */
  lemma {:induction false} PlainGoesForward(hitl: bool, s: State, t: State)
    requires Next(hitl, s, t) && s.node !in {Critic, Hitl, Report, MemoGate}
    ensures Rank(t.node) < Rank(s.node)
  {
  }

  lemma {:induction false} CriticPays(hitl: bool, s: State, t: State, cap: int)
    requires Next(hitl, s, t) && s.node == Critic && Limit(s) <= cap
    ensures Rank(t.node) < Rank(s.node) || Credit(t, cap) < Credit(s, cap)
  {
  }

  lemma {:induction false} HitlPays(hitl: bool, s: State, t: State, cap: int)
    requires Next(hitl, s, t) && s.node == Hitl && Limit(s) <= cap
    ensures Rank(t.node) < Rank(s.node) || Credit(t, cap) < Credit(s, cap)
  {
  }

  lemma {:induction false} ReportPays(hitl: bool, s: State, t: State, cap: int)
    requires Next(hitl, s, t) && s.node in {Report, MemoGate} && Limit(s) <= cap
    ensures Rank(t.node) < Rank(s.node) || Credit(t, cap) < Credit(s, cap)
  {
  }

  /** Every step goes forward or pays for going back. */
  lemma {:induction false} ForwardOrPaid(hitl: bool, s: State, t: State, cap: int)
    requires Next(hitl, s, t) && Limit(s) <= cap
    ensures Rank(t.node) < Rank(s.node) || Credit(t, cap) < Credit(s, cap)
  {
    if s.node == Critic {
      CriticPays(hitl, s, t, cap);
    } else if s.node == Hitl {
      HitlPays(hitl, s, t, cap);
    } else if s.node in {Report, MemoGate} {
      ReportPays(hitl, s, t, cap);
    } else {
      PlainGoesForward(hitl, s, t);
    }
  }

  lemma {:induction false} StepDescends(hitl: bool, s: State, t: State, cap: int)
    requires Next(hitl, s, t) && Limit(s) <= cap
    ensures Potential(t, cap) < Potential(s, cap)
  {
    CreditNeverGrows(hitl, s, t, cap);
    ForwardOrPaid(hitl, s, t, cap);
  }

  lemma {:induction false} RunLength(hitl: bool, states: seq<State>, cap: int)
    requires states != [] && Run(hitl, states) && Limit(states[0]) <= cap
    ensures |states| - 1 <= Potential(states[0], cap)
  {
    if |states| >= 2 {
      StepCapped(hitl, states[0], states[1], cap);
      StepDescends(hitl, states[0], states[1], cap);
      RunLength(hitl, states[1..], cap);
      assert states[1..][0] == states[1];
    }
  }

  /** Every run ends: with limit L and a human who sends the work back at most p times, after at most
      13 (L + p + 4) + 12 steps. */
  lemma {:induction false} EveryRunEnds(hitl: bool, states: seq<State>)
    requires states != [] && Run(hitl, states) && Start(states[0])
    ensures |states| - 1 <= 13 * (Limit(states[0]) + states[0].patience + 4) + 12
  {
    RunLength(hitl, states, Limit(states[0]));
  }
}
