/** The execution protocol over one durable checkpoint: start, resume, crash and redelivery.

    One run has one checkpoint and one advisory lock. A worker that takes the lock reads the
    checkpoint, decides what to feed the graph, commits that input together with its
    execution id, lets the graph advance or park at a human gate, and leaves; it may die
    between any two of these steps. `Step` is that small-step system; `Run` folds it over
    any schedule of actions. */
module Execution {
  import opened Common

  type ExecId = nat

  datatype Status = Working | Failed | Completed | Cancelled | OutOfScope

  predicate Terminal(s: Status) {
    s.Completed? || s.Cancelled? || s.OutOfScope?
  }

  /** What the graph waits for: a human review (brief, plan, report or memo draft), or fresh
      credits. */
  datatype Gate = Review | CreditsPause

  /** A decision consumed by gate number `gate`, delivered by execution `by`. */
  datatype Answer = Answer(gate: nat, decidedBy: ExecId)

  /** `parked` is the recorded interrupt and `atHuman` says that the next node is a human
      node whose interrupt need not be recorded yet. `gates` counts the gates opened so far,
      and `answers` lists the decisions the graph has consumed. */
  datatype Checkpoint =
    | Empty
    | Saved(status: Status, lastExec: ExecId, parked: Option<Gate>, atHuman: bool, hasNext: bool,
            gates: nat, answers: seq<Answer>)

  datatype Request = Start(id: ExecId) | Resume(id: ExecId, credits: bool)

  /** What is fed to the graph: a fresh state, nothing, a decision, or only the new id. */
  datatype Input = Fresh(id: ExecId) | Continue | Decide(id: ExecId) | Reenter(id: ExecId)

  datatype Closing = TerminalFrame | ErrorFrame | InterruptFrame

  datatype Plan = Close(frame: Closing) | Go(input: Input)

  predicate Waiting(cp: Checkpoint) {
    cp.Saved? && (cp.parked.Some? || cp.atHuman)
  }

  /** The choice made under the lock from the snapshot and the request. */
  function Choose(cp: Checkpoint, req: Request): Plan {
    if cp.Saved? && Terminal(cp.status) then Close(TerminalFrame)
    else if cp.Saved? && cp.status.Failed? && !(req.Resume? && req.credits) then Close(ErrorFrame)
    else match req
      case Start(id) =>
        if cp.Empty? then Go(Fresh(id))
        else if Waiting(cp) then Close(InterruptFrame)
        else Go(Continue)
      case Resume(id, credits) =>
        if cp.Empty? then Close(ErrorFrame)
        else if cp.lastExec == id then Go(Continue)
        else if Waiting(cp) then Go(Decide(id))
        else if credits then Go(Reenter(id))
        else Go(Continue)
  }

  /** The first durable write of a stream: the input and its execution id land together. */
  function Commit(cp: Checkpoint, input: Input): Checkpoint {
    match input
    case Fresh(id) => if cp.Empty? then Saved(Working, id, None, false, true, 0, []) else cp
    case Continue => cp
    case Decide(id) =>
      if !Waiting(cp) then cp
      else cp.(status := Working, lastExec := id, parked := None, atHuman := false,
               answers := cp.answers + [Answer(cp.gates, id)])
    case Reenter(id) => if cp.Empty? then cp else cp.(status := Working, lastExec := id)
  }

  /** Steps of the graph itself. It cannot pass a gate it is parked at: without a decision
      the interrupted node only raises its interrupt again. */
  datatype Move = Advance(status: Status, hasNext: bool) | ReachHuman | ParkAt(gate: Gate)

  function Advanced(cp: Checkpoint, m: Move): Checkpoint {
    if cp.Empty? || cp.parked.Some? then cp
    else match m
      case Advance(status, hasNext) =>
        if cp.atHuman then cp else cp.(status := status, hasNext := hasNext)
      case ReachHuman =>
        if cp.atHuman then cp else cp.(atHuman := true, hasNext := true, gates := cp.gates + 1)
      case ParkAt(gate) =>
        cp.(parked := Some(gate), hasNext := true, gates := if cp.atHuman then cp.gates else cp.gates + 1)
  }

  datatype Session = Session(req: Request, input: Input, committed: bool)

  /** `taken` lists the ids of the resume requests in the order in which they took the lock. */
  datatype System = System(cp: Checkpoint, holder: Option<Session>, taken: seq<ExecId>)

  datatype Action = Take(req: Request) | Write | Graph(move: Move) | Leave

  function Step(s: System, a: Action): System {
    match a
    case Take(req) =>
      if s.holder.Some? then s
      else
        var taken := if req.Resume? then s.taken + [req.id] else s.taken;
        (match Choose(s.cp, req)
         case Close(_) => s.(taken := taken)
         case Go(input) => s.(taken := taken, holder := Some(Session(req, input, false))))
    case Write =>
      if s.holder.Some? && !s.holder.value.committed then
        s.(cp := Commit(s.cp, s.holder.value.input), holder := Some(s.holder.value.(committed := true)))
      else s
    case Graph(move) =>
      if s.holder.Some? && s.holder.value.committed then s.(cp := Advanced(s.cp, move)) else s
    case Leave => s.(holder := None)
  }

  function Run(s: System, actions: seq<Action>): System
    decreases |actions|
  {
    if actions == [] then s else Run(Step(s, actions[0]), actions[1..])
  }

  lemma {:induction false} RunConcat(s: System, a: seq<Action>, b: seq<Action>)
    ensures Run(s, a + b) == Run(Run(s, a), b)
    decreases |a|
  {
    if a == [] {
      assert a + b == b;
    } else {
      assert (a + b)[1..] == a[1..] + b;
      RunConcat(Step(s, a[0]), a[1..], b);
    }
  }

  const INIT := System(Empty, None, [])

  /* ------------------------------------------------------------------ terminal checkpoints */

  /** Once the run is completed, cancelled or out of scope, no later request changes anything, in any
      schedule. */
  lemma {:induction false} TerminalAbsorbs(s: System, actions: seq<Action>)
    requires s.cp.Saved? && s.cp.status in {Completed, Cancelled, OutOfScope} && s.holder.None?
    ensures Run(s, actions).cp == s.cp && Run(s, actions).holder.None?
    decreases |actions|
  {
    if actions == [] {
    } else {
      TerminalAbsorbs(Step(s, actions[0]), actions[1..]);
    }
  }

  /* ------------------------------------------------------------------ at-most-once decisions */

  function Answerers(cp: Checkpoint): seq<ExecId> {
    if cp.Empty? then [] else seq(|cp.answers|, i requires 0 <= i < |cp.answers| => cp.answers[i].decidedBy)
  }

  /** An id comes back only before any other id: every id occupies one contiguous block. */
  predicate InBlocks(ids: seq<ExecId>) {
    |ids| == 0 ||
    (var front, last := ids[..|ids| - 1], ids[|ids| - 1];
     InBlocks(front) && (last !in front || last == front[|front| - 1]))
  }

  /** Every decision consumed so far came from a resume request that took the lock; the
      newest one that did is remembered in the checkpoint; and a decision about to be
      committed is not yet in the log. */
  ghost predicate OnceSoFar(s: System) {
    && Distinct(Answerers(s.cp))
    && (forall x :: x in Answerers(s.cp) ==> x in s.taken)
    && (|s.taken| > 0 && s.taken[|s.taken| - 1] in Answerers(s.cp) ==> s.cp.lastExec == s.taken[|s.taken| - 1])
    && (s.holder.Some? && !s.holder.value.committed && s.holder.value.input.Decide? ==>
          && |s.taken| > 0 && s.holder.value.input.id == s.taken[|s.taken| - 1]
          && s.cp.Saved? && s.cp.lastExec != s.holder.value.input.id)
    && (s.holder.Some? && !s.holder.value.committed && s.holder.value.input.Reenter? ==>
          |s.taken| > 0 && s.holder.value.input.id == s.taken[|s.taken| - 1])
    && (s.holder.Some? && !s.holder.value.committed && s.holder.value.input.Fresh? ==> s.cp.Empty?)
  }

  lemma {:induction false} StepTaken(s: System, a: Action)
    ensures s.taken <= Step(s, a).taken
  {
  }

  lemma {:induction false} InBlocksPrefix(ids: seq<ExecId>, n: nat)
    requires InBlocks(ids) && n <= |ids|
    ensures InBlocks(ids[..n])
    decreases |ids|
  {
    if n == |ids| {
      assert ids[..n] == ids;
    } else {
      InBlocksPrefix(ids[..|ids| - 1], n);
      assert ids[..|ids| - 1][..n] == ids[..n];
    }
  }

  lemma {:induction false} TakeOnce(s: System, req: Request)
    requires OnceSoFar(s) && InBlocks(Step(s, Take(req)).taken)
    ensures OnceSoFar(Step(s, Take(req)))
  {
    var t := Step(s, Take(req));
    if s.holder.None? && req.Resume? {
      assert t.taken[..|t.taken| - 1] == s.taken;
      assert t.taken[|t.taken| - 1] == req.id;
    }
  }

  lemma {:induction false} WriteOnce(s: System)
    requires OnceSoFar(s)
    ensures OnceSoFar(Step(s, Write))
  {
    var t := Step(s, Write);
    if s.holder.Some? && !s.holder.value.committed && s.holder.value.input.Decide? && Waiting(s.cp) {
      var id := s.holder.value.input.id;
      assert Answerers(t.cp) == Answerers(s.cp) + [id];
      assert id !in Answerers(s.cp);
    } else {
      assert Answerers(t.cp) == Answerers(s.cp);
    }
  }

  lemma {:induction false} StepOnce(s: System, a: Action)
    requires OnceSoFar(s) && InBlocks(Step(s, a).taken)
    ensures OnceSoFar(Step(s, a))
  {
    match a
    case Take(req) => TakeOnce(s, req);
    case Write => WriteOnce(s);
    case Graph(move) => assert Answerers(Step(s, a).cp) == Answerers(s.cp);
    case Leave =>
  }

  lemma {:induction false} RunTaken(s: System, actions: seq<Action>)
    ensures s.taken <= Run(s, actions).taken
    decreases |actions|
  {
    if actions == [] {
    } else {
      StepTaken(s, actions[0]);
      RunTaken(Step(s, actions[0]), actions[1..]);
    }
  }

  lemma {:induction false} RunOnce(s: System, actions: seq<Action>)
    requires OnceSoFar(s) && InBlocks(Run(s, actions).taken)
    ensures OnceSoFar(Run(s, actions))
    decreases |actions|
  {
    if actions == [] {
    } else {
      var t := Step(s, actions[0]);
      RunTaken(t, actions[1..]);
      InBlocksPrefix(Run(s, actions).taken, |t.taken|);
      assert Run(s, actions).taken[..|t.taken|] == t.taken;
      StepOnce(s, actions[0]);
      RunOnce(t, actions[1..]);
    }
  }

  /** In any schedule of workers, crashes and redeliveries in which every id comes back only
      before a later one, each execution's decision is consumed at most once. */
  lemma {:induction false} AtMostOnce(actions: seq<Action>)
    requires InBlocks(Run(INIT, actions).taken)
    ensures Distinct(Answerers(Run(INIT, actions).cp))
  {
    RunOnce(INIT, actions);
  }

  /* ------------------------------------------------------------------ each gate once */

  ghost predicate GatesOrdered(cp: Checkpoint) {
    cp.Saved? ==>
      && (forall i, j :: 0 <= i < j < |cp.answers| ==> cp.answers[i].gate < cp.answers[j].gate)
      && (forall i :: 0 <= i < |cp.answers| ==> cp.answers[i].gate <= cp.gates)
      && (Waiting(cp) ==> forall i :: 0 <= i < |cp.answers| ==> cp.answers[i].gate < cp.gates)
  }

  lemma {:induction false} StepKeepsGates(s: System, a: Action)
    requires GatesOrdered(s.cp)
    ensures GatesOrdered(Step(s, a).cp)
  {
  }

  /** No gate is answered twice, in any schedule and with any ids. */
  lemma {:induction false} EachGateOnce(s: System, actions: seq<Action>)
    requires GatesOrdered(s.cp)
    ensures GatesOrdered(Run(s, actions).cp)
    decreases |actions|
  {
    if actions == [] {
    } else {
      StepKeepsGates(s, actions[0]);
      EachGateOnce(Step(s, actions[0]), actions[1..]);
    }
  }

  /** How often the graph stops for a human in a schedule. */
  function Stops(actions: seq<Action>): nat {
    if actions == [] then 0
    else (if actions[0].Graph? && !actions[0].move.Advance? then 1 else 0) + Stops(actions[1..])
  }

  /** The decisions consumed, and the one that is waited for. */
  function Spent(cp: Checkpoint): nat {
    if cp.Empty? then 0 else |cp.answers| + if Waiting(cp) then 1 else 0
  }

  /** A decision is consumed only where the graph has stopped for one: over any schedule, with any ids,
      there are at most as many decisions as stops. */
  lemma {:induction false} DecisionsNeedStops(s: System, actions: seq<Action>)
    ensures Spent(Run(s, actions).cp) <= Spent(s.cp) + Stops(actions)
    decreases |actions|
  {
    if actions == [] {
    } else {
      assert Spent(Step(s, actions[0]).cp) <= Spent(s.cp) + Stops([actions[0]]);
      DecisionsNeedStops(Step(s, actions[0]), actions[1..]);
    }
  }

  /* ------------------------------------------------------------------ the exact condition */

  /** A run in which every delivery finds the graph parked: one worker start to finish per
      resume request. */
  function Deliver(id: ExecId): seq<Action> {
    [Take(Resume(id, false)), Write, Graph(ParkAt(Review)), Leave]
  }

  function Deliveries(start: ExecId, ids: seq<ExecId>): seq<Action> {
    if ids == [] then [Take(Start(start)), Write, Graph(ParkAt(Review)), Leave]
    else Deliveries(start, ids[..|ids| - 1]) + Deliver(ids[|ids| - 1])
  }

  lemma {:induction false} RunFour(s: System, a: Action, b: Action, c: Action, d: Action)
    ensures Run(s, [a, b, c, d]) == Step(Step(Step(Step(s, a), b), c), d)
  {
    var s1 := Step(s, a);
    var s2 := Step(s1, b);
    var s3 := Step(s2, c);
    assert [a, b, c, d][1..] == [b, c, d];
    assert [b, c, d][1..] == [c, d];
    assert [c, d][1..] == [d];
    assert Run(s3, [d]) == Run(Step(s3, d), []);
    assert Run(s2, [c, d]) == Run(s3, [d]);
    assert Run(s1, [b, c, d]) == Run(s2, [c, d]);
  }

  /** One delivery at a parked checkpoint is answered unless its id was the last one. */
  lemma {:induction false} DeliverEffect(s: System, id: ExecId)
    requires s.holder.None? && s.cp.Saved? && s.cp.status.Working? && s.cp.parked.Some?
    ensures
      var t := Run(s, Deliver(id));
      && t.holder.None? && t.taken == s.taken + [id]
      && t.cp.Saved? && t.cp.status.Working? && t.cp.parked.Some? && t.cp.lastExec == id
      && Answerers(t.cp) == Answerers(s.cp) + if id == s.cp.lastExec then [] else [id]
  {
    RunFour(s, Take(Resume(id, false)), Write, Graph(ParkAt(Review)), Leave);
  }

  lemma {:induction false} DeliveriesEffect(start: ExecId, ids: seq<ExecId>)
    requires start !in ids
    ensures
      var t := Run(INIT, Deliveries(start, ids));
      && t.holder.None? && t.taken == ids
      && t.cp.Saved? && t.cp.status.Working? && t.cp.parked.Some?
      && t.cp.lastExec == (if ids == [] then start else ids[|ids| - 1])
      && (forall x :: x in ids ==> x in Answerers(t.cp))
      && (!InBlocks(ids) ==> !Distinct(Answerers(t.cp)))
    decreases |ids|
  {
    if ids == [] {
      RunFour(INIT, Take(Start(start)), Write, Graph(ParkAt(Review)), Leave);
    } else {
      var front, last := ids[..|ids| - 1], ids[|ids| - 1];
      DeliveriesEffect(start, front);
      var s := Run(INIT, Deliveries(start, front));
      RunConcat(INIT, Deliveries(start, front), Deliver(last));
      DeliverEffect(s, last);
      var t := Run(INIT, Deliveries(start, ids));
      assert ids == front + [last];
      assert Answerers(s.cp) <= Answerers(t.cp);
      if !InBlocks(ids) && InBlocks(front) {
        var i :| 0 <= i < |Answerers(s.cp)| && Answerers(s.cp)[i] == last;
        assert Answerers(t.cp)[i] == Answerers(t.cp)[|Answerers(s.cp)|];
      }
    }
  }

  function FreshId(ids: seq<ExecId>): (x: ExecId)
    ensures forall y :: y in ids ==> y < x
  {
    if ids == [] then 0
    else
      var rest := FreshId(ids[1..]);
      assert ids == [ids[0]] + ids[1..];
      if ids[0] < rest then rest else ids[0] + 1
  }

  /** Exactly when at-most-once holds: an order in which resume requests take the lock is
      safe in every schedule if and only if each id occupies one contiguous block of it. */
  lemma {:induction false} AtMostOnceIff(ids: seq<ExecId>)
    ensures (forall actions :: Run(INIT, actions).taken == ids ==> Distinct(Answerers(Run(INIT, actions).cp)))
       <==> InBlocks(ids)
  {
    if InBlocks(ids) {
      forall actions | Run(INIT, actions).taken == ids
        ensures Distinct(Answerers(Run(INIT, actions).cp))
      {
        AtMostOnce(actions);
      }
    } else {
      DeliveriesEffect(FreshId(ids), ids);
      assert !Distinct(Answerers(Run(INIT, Deliveries(FreshId(ids), ids)).cp));
    }
  }

  /* ------------------------------------------------------------------ crash and redelivery */

  function Moves(moves: seq<Move>): seq<Action> {
    seq(|moves|, i requires 0 <= i < |moves| => Graph(moves[i]))
  }

  lemma {:induction false} MovesEffect(s: System, moves: seq<Move>)
    requires s.cp.Saved?
    ensures
      var t := Run(s, Moves(moves));
      && t.holder == s.holder && t.taken == s.taken
      && t.cp.Saved? && t.cp.lastExec == s.cp.lastExec && t.cp.answers == s.cp.answers
    decreases |moves|
  {
    if moves == [] {
    } else {
      assert Moves(moves)[1..] == Moves(moves[1..]);
      MovesEffect(Step(s, Graph(moves[0])), moves[1..]);
    }
  }

  /** A worker that dies before its write leaves no trace, so the redelivered request makes
      the same choice. One that dies anywhere after it has been counted exactly once, and
      the redelivered request only continues (or finds the run closed). */
  lemma {:induction false} RedeliveryAfterCrash(s: System, req: Request, moves: seq<Move>)
    requires s.holder.None? && req.Resume? && Choose(s.cp, req) == Go(Decide(req.id))
    ensures
      var died := Run(s, [Take(req)] + Moves(moves) + [Leave]);
      died.holder.None? && died.cp == s.cp
    ensures
      var died := Run(s, [Take(req), Write] + Moves(moves) + [Leave]);
      && Answerers(died.cp) == Answerers(s.cp) + [req.id]
      && (Choose(died.cp, req).Close? || Choose(died.cp, req) == Go(Continue))
  {
    var s1 := Step(s, Take(req));
    RunConcat(s, [Take(req)] + Moves(moves), [Leave]);
    RunConcat(s, [Take(req)], Moves(moves));
    assert Run(s, [Take(req)]) == s1;
    MovesBeforeWrite(s1, moves);
    var s2 := Step(s1, Write);
    RunConcat(s, [Take(req), Write] + Moves(moves), [Leave]);
    RunConcat(s, [Take(req), Write], Moves(moves));
    assert [Take(req), Write][1..] == [Write];
    assert Run(s, [Take(req), Write]) == Run(s1, [Write]) == s2;
    MovesEffect(s2, moves);
  }

  lemma {:induction false} MovesBeforeWrite(s: System, moves: seq<Move>)
    requires s.holder.Some? && !s.holder.value.committed
    ensures Run(s, Moves(moves)) == s
    decreases |moves|
  {
    if moves == [] {
    } else {
      assert Moves(moves)[1..] == Moves(moves[1..]);
      MovesBeforeWrite(s, moves[1..]);
    }
  }

  /* ------------------------------------------------------------------ requests that consume no decision */

  lemma {:induction false} RunTwo(s: System, a: Action, b: Action)
    ensures Run(s, [a, b]) == Step(Step(s, a), b)
  {
    assert [a, b][1..] == [b] && [b][1..] == [];
    assert Run(Step(s, a), [b]) == Run(Step(Step(s, a), b), []);
  }

  /** A start writes a fresh checkpoint only where there is none, and otherwise changes nothing. */
  lemma {:induction false} StartsOnce(cp: Checkpoint, id: ExecId)
    ensures
      var after := Run(System(cp, None, []), [Take(Start(id)), Write]).cp;
      if cp.Empty? then
        after.Saved? && after.lastExec == id && !Waiting(after) && Answerers(after) == [] && after.hasNext
      else after == cp
  {
    RunTwo(System(cp, None, []), Take(Start(id)), Write);
  }

  /** Where the graph waits for nobody, a resume changes something only if it brings credits and is new: then
      the run works again, failed or not, and no decision is consumed. */
  lemma {:induction false} RetriesOnlyForCredits(cp: Checkpoint, id: ExecId, credits: bool)
    requires !Waiting(cp)
    ensures
      var after := Run(System(cp, None, []), [Take(Resume(id, credits)), Write]).cp;
      if cp.Saved? && !Terminal(cp.status) && credits && id != cp.lastExec then
        after == cp.(status := Working, lastExec := id)
      else after == cp
  {
    RunTwo(System(cp, None, []), Take(Resume(id, credits)), Write);
  }

  /* ------------------------------------------------------------------ stops and decisions */

  /** At a stop the graph holds: whatever it does it waits on, with the same status and gate, and once the
      interrupt is recorded nothing changes at all. */
  lemma {:induction false} WaitingHolds(s: System, moves: seq<Move>)
    requires Waiting(s.cp)
    ensures
      var t := Run(s, Moves(moves));
      && Waiting(t.cp) && t.cp.status == s.cp.status && t.cp.gates == s.cp.gates && t.cp.answers == s.cp.answers
      && (s.cp.parked.Some? ==> t == s)
    decreases |moves|
  {
    if moves == [] {
    } else {
      assert Moves(moves)[1..] == Moves(moves[1..]);
      WaitingHolds(Step(s, Graph(moves[0])), moves[1..]);
    }
  }

  /** A graph that waits for nobody moves as it is told: a stop opens one gate, at which it waits with work
      left; any other step leaves the status and the work left that it names. */
  lemma {:induction false} FreeMoves(s: System, m: Move)
    requires s.cp.Saved? && !Waiting(s.cp) && s.holder.Some? && s.holder.value.committed
    ensures
      var after := Run(s, [Graph(m)]).cp;
      && after.Saved? && after.answers == s.cp.answers && after.lastExec == s.cp.lastExec
      && match m
         case Advance(status, hasNext) =>
           after.status == status && after.hasNext == hasNext && after.gates == s.cp.gates && !Waiting(after)
         case _ => Waiting(after) && after.hasNext && after.gates == s.cp.gates + 1 && after.status == s.cp.status
  {
    assert [Graph(m)][1..] == [];
    assert Run(s, [Graph(m)]) == Run(Step(s, Graph(m)), []);
  }

  /** A decision is consumed where the graph waits, the id is new and the run is not over, or has failed and
      is given credits. It lets the graph go on: the run works, waits for nobody and remembers the id. */
  lemma {:induction false} DecisionReopens(cp: Checkpoint, id: ExecId, credits: bool)
    requires Waiting(cp) && id != cp.lastExec && !Terminal(cp.status) && (cp.status.Failed? ==> credits)
    ensures
      var after := Run(System(cp, None, []), [Take(Resume(id, credits)), Write]).cp;
      && after.Saved? && after.status == Working && !Waiting(after) && after.lastExec == id
      && after.answers == cp.answers + [Answer(cp.gates, id)]
      && after.gates == cp.gates && after.hasNext == cp.hasNext
  {
    RunTwo(System(cp, None, []), Take(Resume(id, credits)), Write);
  }

  /* ------------------------------------------------------------------ what a redelivery finds */

  function Moved(cp: Checkpoint, moves: seq<Move>): Checkpoint
    decreases |moves|
  {
    if moves == [] then cp else Moved(Advanced(cp, moves[0]), moves[1..])
  }

  lemma {:induction false} MovedConcat(cp: Checkpoint, a: seq<Move>, b: seq<Move>)
    ensures Moved(cp, a + b) == Moved(Moved(cp, a), b)
    decreases |a|
  {
    if a == [] {
      assert a + b == b;
    } else {
      assert (a + b)[1..] == a[1..] + b;
      MovedConcat(Advanced(cp, a[0]), a[1..], b);
    }
  }

  lemma {:induction false} MovedKeeps(cp: Checkpoint, moves: seq<Move>)
    requires cp.Saved?
    ensures Moved(cp, moves).Saved? && Moved(cp, moves).lastExec == cp.lastExec
    ensures Moved(cp, moves).answers == cp.answers
    decreases |moves|
  {
    if moves == [] {
    } else {
      MovedKeeps(Advanced(cp, moves[0]), moves[1..]);
    }
  }

  lemma {:induction false} MovesMove(s: System, moves: seq<Move>)
    requires s.holder.Some? && s.holder.value.committed
    ensures Run(s, Moves(moves)) == s.(cp := Moved(s.cp, moves))
    decreases |moves|
  {
    if moves == [] {
    } else {
      assert Moves(moves)[1..] == Moves(moves[1..]);
      MovesMove(Step(s, Graph(moves[0])), moves[1..]);
    }
  }

  /** One worker with its request: it writes the input, the graph moves, and it leaves or dies. */
  function Delivery(req: Request, moves: seq<Move>): seq<Action> {
    [Take(req), Write] + Moves(moves) + [Leave]
  }

  lemma {:induction false} DeliveryIs(s: System, req: Request, moves: seq<Move>)
    requires s.holder.None? && Choose(s.cp, req).Go?
    ensures
      var t := Run(s, Delivery(req, moves));
      t.holder.None? && t.cp == Moved(Commit(s.cp, Choose(s.cp, req).input), moves)
  {
    var t := Step(Step(s, Take(req)), Write);
    RunConcat(s, [Take(req), Write] + Moves(moves), [Leave]);
    RunConcat(s, [Take(req), Write], Moves(moves));
    RunTwo(s, Take(req), Write);
    MovesMove(t, moves);
    var u := Run(t, Moves(moves));
    assert Run(u, [Leave]) == Run(Step(u, Leave), []);
  }

  /** The first delivery leaves its id behind: it is consumed, brings credits, or was there before. */
  predicate Remembered(cp: Checkpoint, id: ExecId, credits: bool) {
    cp.Saved? && (Waiting(cp) || credits || id == cp.lastExec)
  }

  /** The run may go on for this request. */
  predicate Admits(cp: Checkpoint, credits: bool) {
    cp.Saved? && !Terminal(cp.status) && (cp.status.Failed? ==> credits)
  }

  lemma {:induction false} ResumeCommits(cp: Checkpoint, id: ExecId, credits: bool)
    requires Admits(cp, credits)
    ensures
      var plan := Choose(cp, Resume(id, credits));
      && plan.Go?
      && var next := Commit(cp, plan.input);
         && next.Saved?
         && (next.lastExec == id <==> Remembered(cp, id, credits))
         && (id == cp.lastExec ==> next == cp)
         && next.answers == if Waiting(cp) && id != cp.lastExec then cp.answers + [Answer(cp.gates, id)] else cp.answers
  {
  }

  /** A crash is not seen: when the first delivery is remembered, what a redelivered request leaves is what
      one worker would have left that made all the moves. */
  lemma {:induction false} CrashUnseen(s: System, id: ExecId, credits: bool, before: seq<Move>, later: seq<Move>)
    requires s.holder.None? && Admits(s.cp, credits) && Remembered(s.cp, id, credits)
    requires Admits(Run(s, Delivery(Resume(id, credits), before)).cp, credits)
    ensures
      var req := Resume(id, credits);
      Run(Run(s, Delivery(req, before)), Delivery(req, later)).cp == Run(s, Delivery(req, before + later)).cp
  {
    var req := Resume(id, credits);
    ResumeCommits(s.cp, id, credits);
    var first := Commit(s.cp, Choose(s.cp, req).input);
    DeliveryIs(s, req, before);
    DeliveryIs(s, req, before + later);
    MovedConcat(first, before, later);
    MovedKeeps(first, before);
    var died := Run(s, Delivery(req, before));
    ResumeCommits(died.cp, id, credits);
    DeliveryIs(died, req, later);
  }

  /** A redelivered request is consumed as a decision exactly when its first delivery was not remembered, for
      the run then waited for nobody, and the run has come to wait for one since. */
  lemma {:induction false} StaleDecisionIff(s: System, id: ExecId, credits: bool, moves: seq<Move>)
    requires s.holder.None? && Admits(s.cp, credits)
    requires Admits(Run(s, Delivery(Resume(id, credits), moves)).cp, credits)
    ensures
      var req := Resume(id, credits);
      var left := Run(s, Delivery(req, moves));
      Answerers(Run(left, Delivery(req, [])).cp) == Answerers(left.cp) + [id] <==>
      !Remembered(s.cp, id, credits) && Waiting(left.cp)
  {
    var req := Resume(id, credits);
    ResumeCommits(s.cp, id, credits);
    DeliveryIs(s, req, moves);
    MovedKeeps(Commit(s.cp, Choose(s.cp, req).input), moves);
    var left := Run(s, Delivery(req, moves));
    ResumeCommits(left.cp, id, credits);
    DeliveryIs(left, req, []);
    var again := Run(left, Delivery(req, [])).cp;
    assert Moved(again, []) == again;
    if Waiting(left.cp) && id != left.cp.lastExec {
      assert Answerers(again) == Answerers(left.cp) + [id];
    } else {
      assert |Answerers(again)| == |Answerers(left.cp)|;
    }
  }

  /** It happens: a resume that comes while the graph works is delivered again, and answers the first gate,
      which was opened after it was sent. */
  lemma {:induction false} EarlyResumeAnswersLater()
    ensures
      var working := Saved(Working, 0, None, false, true, 0, []);
      var left := Run(System(working, None, []), Delivery(Resume(1, false), [ParkAt(Review)]));
      && left.cp.parked == Some(Review) && left.cp.answers == [] && left.cp.lastExec == 0
      && Run(left, Delivery(Resume(1, false), [])).cp.answers == [Answer(1, 1)]
  {
    var working := Saved(Working, 0, None, false, true, 0, []);
    var s := System(working, None, []);
    DeliveryIs(s, Resume(1, false), [ParkAt(Review)]);
    assert Moved(working, [ParkAt(Review)]) == Moved(Advanced(working, ParkAt(Review)), []);
    DeliveryIs(Run(s, Delivery(Resume(1, false), [ParkAt(Review)])), Resume(1, false), []);
  }
}
