/** The ways a run of the research graph takes: what lies between a plan and its review, what every
    published answer has passed, and where work that is sent back goes. */
module ResearchPaths {
  import opened Common
  import opened ResearchLoop

  /** One step of a run. */
  lemma {:induction false} RunStep(hitl: bool, states: seq<State>, i: nat)
    requires Run(hitl, states) && i + 1 < |states|
    ensures Next(hitl, states[i], states[i + 1])
    decreases |states|
  {
    if i == 0 {
    } else {
      RunStep(hitl, states[1..], i - 1);
    }
  }

  function Visits(states: seq<State>, n: Node): nat {
    if states == [] then 0 else (if states[0].node == n then 1 else 0) + Visits(states[1..], n)
  }

  /* ------------------------------------------------------------------ from the plan to its review */

  /** Research is called off: the question is out of scope or cancelled, or a prior answer is served. */
  predicate CalledOff(s: State) {
    s.outOfScope || s.status == Cancelled || s.cached
  }

  /** Neither briefing nor planner nor plan gate calls the research off. */
  predicate CarriedOut(states: seq<State>) {
    forall k :: 0 <= k < |states| - 1 && states[k].node in {Briefing, Planner, PlanGate} ==> !CalledOff(states[k + 1])
  }

  /** The stations from the plan gate to the critic. */
  function Path(agents: bool): seq<Node> {
    if agents then [PlanGate, Agents, Collector, Enrich, Retrieve, Extract, Critic]
    else [PlanGate, Collector, Enrich, Retrieve, Extract, Critic]
  }

  /** What the plan gate at i has decided. */
  predicate Granted(states: seq<State>, i: nat) {
    i + 1 < |states| && states[i].node == PlanGate && !CalledOff(states[i + 1])
  }

  /** From the gate at i on, the run follows the path, as far as it has come. */
  predicate Follows(states: seq<State>, i: nat, path: seq<Node>) {
    forall k :: 0 <= k < |path| && i + k < |states| ==> states[i + k].node == path[k]
  }

  lemma {:induction false} Onward(hitl: bool, s: State, t: State, agents: bool, k: nat)
    requires Next(hitl, s, t) && k + 1 < |Path(agents)| && s.node == Path(agents)[k]
    requires k == 0 ==> !CalledOff(t) && t.agents == agents
    ensures t.node == Path(agents)[k + 1]
  {
    if agents {
      assert k <= 5;
    } else {
      assert k <= 4;
    }
  }

  lemma {:induction false} OnwardAt(hitl: bool, states: seq<State>, at: nat, agents: bool, k: nat)
    requires Run(hitl, states) && at + 1 < |states| && k + 1 < |Path(agents)|
    requires states[at].node == Path(agents)[k]
    requires k == 0 ==> !CalledOff(states[at + 1]) && states[at + 1].agents == agents
    ensures states[at + 1].node == Path(agents)[k + 1]
  {
    RunStep(hitl, states, at);
    Onward(hitl, states[at], states[at + 1], agents, k);
  }

  lemma {:induction false} PathStep(hitl: bool, states: seq<State>, i: nat, k: nat, agents: bool)
    requires Run(hitl, states) && Granted(states, i) && agents == states[i + 1].agents
    requires k < |Path(agents)| && i + k < |states|
    ensures states[i + k].node == Path(agents)[k]
    decreases k
  {
    if k == 0 {
    } else {
      PathStep(hitl, states, i, k - 1, agents);
      OnwardAt(hitl, states, i + (k - 1), agents, k - 1);
    }
  }

  /** After a plan gate that lets research go on, the run passes through the agents when some are to run,
      then collector, enrich, retrieve and extract, and stops nowhere else before the critic. */
  lemma {:induction false} GrantedFollows(hitl: bool, states: seq<State>, i: nat)
    requires Run(hitl, states) && Granted(states, i)
    ensures Follows(states, i, Path(states[i + 1].agents))
  {
    var path := Path(states[i + 1].agents);
    forall k | 0 <= k < |path| && i + k < |states| ensures states[i + k].node == path[k] {
      PathStep(hitl, states, i, k, states[i + 1].agents);
    }
  }

  lemma {:induction false} VisitsConcat(a: seq<State>, b: seq<State>, n: Node)
    ensures Visits(a + b, n) == Visits(a, n) + Visits(b, n)
  {
    if a == [] {
      assert a + b == b;
    } else {
      assert (a + b)[1..] == a[1..] + b;
      VisitsConcat(a[1..], b, n);
    }
  }

  lemma {:induction false} NoVisits(states: seq<State>, n: Node)
    requires forall k :: 0 <= k < |states| ==> states[k].node != n
    ensures Visits(states, n) == 0
  {
    if states == [] {
    } else {
      NoVisits(states[1..], n);
    }
  }

  lemma {:induction false} OneVisit(states: seq<State>, n: Node, at: nat)
    requires at < |states| && states[at].node == n
    requires forall k :: 0 <= k < |states| && k != at ==> states[k].node != n
    ensures Visits(states, n) == 1
  {
    assert states == states[..at] + ([states[at]] + states[at + 1..]);
    VisitsConcat(states[..at], [states[at]] + states[at + 1..], n);
    NoVisits(states[..at], n);
    NoVisits(states[at + 1..], n);
    assert ([states[at]] + states[at + 1..])[1..] == states[at + 1..];
  }

  /** Along the path the agents have one place, or none. */
  lemma {:induction false} AgentsOnPath(states: seq<State>, agents: bool)
    requires 1 <= |states| < |Path(agents)| && Follows(states, 0, Path(agents)) && (agents ==> |states| > 1)
    ensures Visits(states, Agents) == if agents then 1 else 0
  {
    var path := Path(agents);
    forall k | 0 <= k < |states| ensures states[k].node == path[k] {
      assert states[0 + k].node == path[k];
    }
    if agents {
      OneVisit(states, Agents, 1);
    } else {
      NoVisits(states, Agents);
    }
  }

  lemma {:induction false} AgentsOnStretch(states: seq<State>, i: nat, j: nat, agents: bool)
    requires Follows(states, i, Path(agents)) && i < j < |states| && states[j].node == Critic
    requires forall k :: i < k < j ==> states[k].node != Critic
    ensures Visits(states[i..j], Agents) == if agents then 1 else 0
  {
    var path, n, stretch := Path(agents), j - i, states[i..j];
    var last := |path| - 1;
    assert i + last < |states| ==> states[i + last].node == path[last];
    assert states[i + n].node == path[n];
    forall k | 0 <= k < |path| && 0 + k < |stretch| ensures stretch[0 + k].node == path[k] {
      assert stretch[k] == states[i + k];
    }
    AgentsOnPath(stretch, agents);
  }

  /** Between a plan gate that lets research go on and the next critic visit the agents run exactly once,
      and not at all when none are to run. */
  lemma {:induction false} AgentsRunOnce(hitl: bool, states: seq<State>, i: nat, j: nat)
    requires Run(hitl, states) && Granted(states, i) && i < j < |states| && states[j].node == Critic
    requires forall k :: i < k < j ==> states[k].node != Critic
    ensures Visits(states[i..j], Agents) == if states[i + 1].agents then 1 else 0
  {
    GrantedFollows(hitl, states, i);
    AgentsOnStretch(states, i, j, states[i + 1].agents);
  }

  /** Plan gates passed with agents to run. */
  function Grants(states: seq<State>): nat {
    if |states| < 2 then 0
    else (if Granted(states, 0) && states[1].agents then 1 else 0) + Grants(states[1..])
  }

  /** Over a whole run the agents run exactly as often as a plan gate granted them. */
  lemma {:induction false} AgentsNeedGrants(hitl: bool, states: seq<State>)
    requires states != [] && Run(hitl, states)
    ensures Visits(states, Agents) == Grants(states) + if states[0].node == Agents then 1 else 0
  {
    if |states| == 1 {
      assert states[1..] == [];
    } else {
      AgentsNeedGrants(hitl, states[1..]);
      assert states[1..][0] == states[1];
    }
  }

  /* ------------------------------------------------------------------ research that is called off */

  /** A question out of scope goes from the briefing to the report, as does a cancelled one; a served prior
      answer goes there from the planner; the plan gate sees to all three. Nothing else skips the research. */
  lemma {:induction false} SkipsIff(hitl: bool, states: seq<State>, i: nat)
    requires Run(hitl, states) && i + 1 < |states| && states[i].node in {Briefing, Planner, PlanGate}
    ensures
      var s, t := states[i], states[i + 1];
      t.node == Report <==>
      t.outOfScope || (t.status == Cancelled && s.node != Planner) || (t.cached && s.node != Briefing)
  {
    RunStep(hitl, states, i);
  }

  /** While every state is out of scope or has a prior answer to serve, nothing is researched. */
  lemma {:induction false} NothingResearched(hitl: bool, states: seq<State>, i: nat)
    requires Run(hitl, states) && i < |states| && states[0].node == Briefing
    requires forall k :: 0 < k < |states| ==> states[k].outOfScope || states[k].cached
    ensures states[i].node in {Briefing, Planner, Critic, Hitl, Report, MemoGate, End}
    decreases i
  {
    if i > 0 {
      NothingResearched(hitl, states, i - 1);
      RunStep(hitl, states, i - 1);
      StaysOut(hitl, states[i - 1], states[i]);
    }
  }

  lemma {:induction false} StaysOut(hitl: bool, s: State, t: State)
    requires Next(hitl, s, t) && s.node in {Briefing, Planner, Critic, Hitl, Report, MemoGate, End}
    requires t.outOfScope || t.cached
    ensures t.node in {Planner, Critic, Hitl, Report, MemoGate, End}
  {
  }

  /* ------------------------------------------------------------------ what lies before a station */

  lemma {:induction false} BeforeMemoGate(hitl: bool, states: seq<State>, i: nat)
    requires Run(hitl, states) && i + 1 < |states| && states[i + 1].node == MemoGate
    ensures states[i].node == Report && states[i + 1].status != IntegrityResearch
  {
    RunStep(hitl, states, i);
  }

  /** A run that has ended came from the report through the memo gate, which found nothing left to revise. */
  lemma {:induction false} EndPassesReport(hitl: bool, states: seq<State>, e: nat)
    requires Run(hitl, states) && e < |states| && Start(states[0]) && states[e].node == End
    ensures e >= 3 && states[e - 1].node == MemoGate && states[e - 2].node == Report
    ensures states[e].status != Revising && states[e].status != RevisingQuality && e == |states| - 1
  {
    assert e > 0;
    RunStep(hitl, states, e - 1);
    assert states[e - 1].node == MemoGate;
    BeforeMemoGate(hitl, states, e - 2);
    if e + 1 < |states| {
      RunStep(hitl, states, e);
    }
  }

  /** The review at c: the critic was reached from the extraction, or was called by the memo gate. */
  predicate Reviewed(states: seq<State>, c: nat) {
    && 0 < c < |states|
    && states[c].node == Critic
    && (states[c - 1].node == Extract || (states[c - 1].node == MemoGate && states[c].status == Revising))
  }

  /** Behind the review at c the run went straight on to j: to the human, who did not send it back, if
      there is one, and then only between report and memo gate. */
  predicate Cleared(hitl: bool, states: seq<State>, c: nat, j: nat) {
    && c < j < |states|
    && (hitl ==> c + 2 < |states| && states[c + 1].node == Hitl && !states[c + 2].revise)
    && forall k :: (if hitl then c + 2 else c + 1) <= k <= j ==> states[k].node in {Report, MemoGate, End}
  }

  lemma {:induction false} BeforeCritic(hitl: bool, s: State, t: State)
    requires Next(hitl, s, t) && t.node == Critic
    ensures s.node == Extract || (s.node == MemoGate && t.status == Revising)
  {
  }

  lemma {:induction false} CriticReviewed(hitl: bool, states: seq<State>, c: nat)
    requires Run(hitl, states) && c < |states| && states[0].node == Briefing && states[c].node == Critic
    ensures Reviewed(states, c)
  {
    RunStep(hitl, states, c - 1);
    BeforeCritic(hitl, states[c - 1], states[c]);
  }

  lemma {:induction false} ClearedOn(hitl: bool, states: seq<State>, c: nat, j: nat)
    requires Cleared(hitl, states, c, j) && j + 1 < |states| && states[j + 1].node in {Report, MemoGate, End}
    ensures Cleared(hitl, states, c, j + 1)
  {
  }

  /** With no research called off, a report comes from the critic, from a human who agrees, or from the
      memo gate. */
  predicate Leads(hitl: bool, s: State, report: State) {
    s.node == MemoGate || (s.node == Hitl && !report.revise) || (!hitl && s.node == Critic)
  }

  lemma {:induction false} BeforeReport(hitl: bool, states: seq<State>, i: nat)
    requires Run(hitl, states) && i + 1 < |states| && states[i + 1].node == Report && CarriedOut(states)
    ensures Leads(hitl, states[i], states[i + 1])
  {
    RunStep(hitl, states, i);
    LeadsToReport(hitl, states[i], states[i + 1]);
  }

  lemma {:induction false} LeadsToReport(hitl: bool, s: State, t: State)
    requires Next(hitl, s, t) && t.node == Report && (s.node in {Briefing, Planner, PlanGate} ==> !CalledOff(t))
    ensures Leads(hitl, s, t)
  {
  }

  lemma {:induction false} BeforeHitl(hitl: bool, states: seq<State>, i: nat)
    requires Run(hitl, states) && i + 1 < |states| && states[i + 1].node == Hitl
    ensures hitl && states[i].node == Critic
  {
    RunStep(hitl, states, i);
  }

  /** The report at j, when nothing was called off, follows a review that was cleared. */
  lemma {:induction false} ReportCleared(hitl: bool, states: seq<State>, j: nat) returns (c: nat)
    requires Run(hitl, states) && j < |states| && states[0].node == Briefing && states[j].node == Report
    requires CarriedOut(states)
    ensures Reviewed(states, c) && Cleared(hitl, states, c, j)
    decreases j
  {
    BeforeReport(hitl, states, j - 1);
    if states[j - 1].node == MemoGate {
      BeforeMemoGate(hitl, states, j - 2);
      c := ReportCleared(hitl, states, j - 2);
      ClearedOn(hitl, states, c, j - 2);
      ClearedOn(hitl, states, c, j - 1);
    } else {
      if states[j - 1].node == Hitl {
        BeforeHitl(hitl, states, j - 2);
        c := j - 2;
      } else {
        c := j - 1;
      }
      CriticReviewed(hitl, states, c);
    }
  }

  /** No answer is published unreviewed: unless it was called off, a run that has ended passed the critic,
      after that the human if there is one, and from there on only wrote and checked the report. */
  lemma {:induction false} EndIsReviewed(hitl: bool, states: seq<State>, e: nat)
    requires Run(hitl, states) && e < |states| && Start(states[0]) && states[e].node == End
    requires CarriedOut(states)
    ensures exists c :: Reviewed(states, c) && Cleared(hitl, states, c, e)
  {
    EndPassesReport(hitl, states, e);
    var c := ReportCleared(hitl, states, e - 2);
    ClearedOn(hitl, states, c, e - 2);
    ClearedOn(hitl, states, c, e - 1);
  }

  /* ------------------------------------------------------------------ work that is sent back */

  /** Work the human sends back goes to the planner, and a report in need of research does too; what the
      memo gate sends back goes to the critic for missing sources and to the report for quality. */
  lemma {:induction false} SentBack(hitl: bool, states: seq<State>, i: nat)
    requires Run(hitl, states) && i + 1 < |states|
    ensures states[i].node == Hitl ==> (states[i + 1].node == Planner <==> states[i + 1].revise)
    ensures states[i].node == Report ==> (states[i + 1].node == Planner <==> states[i + 1].status == IntegrityResearch)
    ensures states[i].node == MemoGate ==> (states[i + 1].node == Critic <==> states[i + 1].status == Revising)
    ensures states[i].node == MemoGate ==> (states[i + 1].node == Report <==> states[i + 1].status == RevisingQuality)
  {
    RunStep(hitl, states, i);
  }

  /** How often a run goes from one station straight to another. */
  function Steps(states: seq<State>, from: Node, to: Node): nat {
    if |states| < 2 then 0
    else (if states[0].node == from && states[1].node == to then 1 else 0) + Steps(states[1..], from, to)
  }

  lemma {:induction false} StepPaid(hitl: bool, s: State, t: State)
    requires Next(hitl, s, t)
    ensures t.integrityRetries == s.integrityRetries + if s.node == Report && t.node == Planner then 1 else 0
    ensures t.qualityCount == s.qualityCount + if s.node == MemoGate && t.node == Report then 1 else 0
    ensures t.integrityRetries > s.integrityRetries ==> t.integrityRetries <= 1
    ensures t.qualityCount > s.qualityCount ==> t.qualityCount <= 2
    ensures
      var back := (s.node == MemoGate && t.node == Critic) || (s.node == Hitl && t.node == Planner);
      t.mandatoryRetries <= Max(1, s.mandatoryRetries)
      && s.patience + t.mandatoryRetries == t.patience + s.mandatoryRetries + if back then 1 else 0
  {
  }

  /** A run sends work back from the report at most once, for quality at most twice, and otherwise at most
      once more than the human does. */
  lemma {:induction false} SendBacksBounded(hitl: bool, states: seq<State>)
    requires states != [] && Run(hitl, states)
    ensures Steps(states, Report, Planner) <= Max(0, 1 - states[0].integrityRetries)
    ensures Steps(states, MemoGate, Report) <= Max(0, 2 - states[0].qualityCount)
    ensures Steps(states, MemoGate, Critic) + Steps(states, Hitl, Planner) <=
            states[0].patience + Max(0, 1 - states[0].mandatoryRetries)
  {
    if |states| >= 2 {
      StepPaid(hitl, states[0], states[1]);
      SendBacksBounded(hitl, states[1..]);
      assert states[1..][0] == states[1];
    }
  }

  /** Whatever brought the run to the planner, unless it is called off it comes to the critic again: five
      stations after the plan gate, or six with the agents. */
  lemma {:induction false} PlannedIsReviewed(hitl: bool, states: seq<State>, i: nat)
    requires Run(hitl, states) && i + 8 < |states| && states[i].node == Planner
    requires CarriedOut(states)
    ensures Follows(states, i + 1, Path(states[i + 2].agents))
    ensures states[i + if states[i + 2].agents then 7 else 6].node == Critic
  {
    RunStep(hitl, states, i);
    GrantedFollows(hitl, states, i + 1);
    var path := Path(states[i + 2].agents);
    var last := |path| - 1;
    assert path[last] == Critic;
    assert states[i + 1 + last].node == path[last];
  }

  /** A run stops nowhere but at the end: every other state has a next one. */
  lemma {:induction false} NeverStuck(hitl: bool, s: State)
    requires s.node != End
    ensures exists t :: Next(hitl, s, t)
  {
    var w := s.(status := Researching, revise := false);
    if s.node == Planner {
      w := w.(budget := s.budget.(iterations := s.budget.iterations + 1,
                                  maxIterations := if s.budget.iterations == 0 then Max(s.budget.maxIterations, 6)
                                                   else s.budget.maxIterations));
    } else if s.node == Critic {
      w := w.(history := s.history + [Entry(0, 0, 0)]);
    }
    var t := w.(node := Route(hitl, s.node, w));
    assert Next(hitl, s, t);
  }

  /** So a run that cannot go on has ended. */
  lemma {:induction false} MaximalRunEnds(hitl: bool, states: seq<State>, last: State)
    requires states != [] && Run(hitl, states) && last == states[|states| - 1]
    requires forall t :: !Next(hitl, last, t)
    ensures last.node == End
  {
    if last.node != End {
      NeverStuck(hitl, last);
    }
  }
}
