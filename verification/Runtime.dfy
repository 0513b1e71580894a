/** Streaming one execution: the frames a client sees, and their sequence numbers. The
    environment decides when the graph moves, when a heartbeat is due, and what fails. */
module Runtime {
  import opened Common
  import opened Execution

  datatype Kind = Update | Heartbeat | Interrupt | Closed | Error

  predicate Closes(k: Kind) {
    !k.Update? && !k.Heartbeat?
  }

  datatype Frame = Frame(kind: Kind, sequence: nat)

  /** What happens while the graph streams: a heartbeat, the durable write of the input, or a
      move of the graph, which is reported as an update. */
  datatype Tick = Beat | Durable | Progress(move: Move)

  /** How the graph's own stream ends. */
  datatype Exit = Ended | RaisedInterrupt | RaisedCredits | RaisedOther | WasCancelled

  /** `credentialOk`: the request has a usable key; `ready`: the runtime is initialised;
      `lockOk`, `unlockOk`: the advisory lock calls succeed; `readOk`, `rereadOk`: the
      snapshot reads before and after the stream succeed; `looksLikeCredits`: an exception
      that reaches the outer handler is about credits. */
  datatype Environment = Environment(
    credentialOk: bool, ready: bool, lockOk: bool, unlockOk: bool, readOk: bool, rereadOk: bool,
    looksLikeCredits: bool, ticks: seq<Tick>, exit: Exit)

  datatype End = Finished | Threw | Aborted

  datatype Locked = Locked(cp: Checkpoint, kinds: seq<Kind>, end: End)

  function KindOf(c: Closing): Kind {
    match c
    case TerminalFrame => Closed
    case ErrorFrame => Error
    case InterruptFrame => Interrupt
  }

  /** The closing frame, if any, after the graph's stream has run out. */
  function ClosingFrames(cp: Checkpoint): seq<Kind> {
    if Waiting(cp) then [Interrupt]
    else if cp.Saved? && cp.status.Failed? then [Error]
    else if cp.Empty? || Terminal(cp.status) || !cp.hasNext then [Closed]
    else []
  }

  function Ticked(s: System, ticks: seq<Tick>): System
    decreases |ticks|
  {
    if ticks == [] then s
    else Ticked(Tock(s, ticks[0]), ticks[1..])
  }

  function Tock(s: System, t: Tick): System {
    match t
    case Beat => s
    case Durable => Step(s, Write)
    case Progress(move) => Step(s, Graph(move))
  }

  function TickFrame(t: Tick): seq<Kind> {
    match t case Beat => [Heartbeat] case Durable => [] case Progress(_) => [Update]
  }

  function TickFrames(ticks: seq<Tick>): seq<Kind> {
    if ticks == [] then [] else TickFrame(ticks[0]) + TickFrames(ticks[1..])
  }

  lemma {:induction false} TickHead(s: System, ticks: seq<Tick>)
    requires ticks != []
    ensures Ticked(s, ticks) == Ticked(Tock(s, ticks[0]), ticks[1..])
  {
  }

  lemma {:induction false} FramesHead(kinds: seq<Kind>, ticks: seq<Tick>)
    requires ticks != []
    ensures kinds + TickFrames(ticks) == (kinds + TickFrame(ticks[0])) + TickFrames(ticks[1..])
  {
  }

  /** One request while it holds the lock. */
  function StreamLocked(cp: Checkpoint, req: Request, env: Environment): Locked {
    if !env.readOk then Locked(cp, [], Threw)
    else match Choose(cp, req)
      case Close(frame) => Locked(cp, [KindOf(frame)], Finished)
      case Go(input) =>
        var after := Ticked(System(cp, Some(Session(req, input, false)), []), env.ticks).cp;
        var kinds := TickFrames(env.ticks);
        match env.exit
        case RaisedOther => Locked(after, kinds, Threw)
        case WasCancelled => Locked(after, kinds, Aborted)
        case _ =>
          if !env.rereadOk then Locked(after, kinds, Threw)
          else Locked(after, kinds + if env.exit.Ended? then ClosingFrames(after) else [Interrupt], Finished)
  }

  /** The frame of the outer exception handler. */
  function HandlerKind(env: Environment): Kind {
    if env.looksLikeCredits then Interrupt else Error
  }

  function StreamBound(cp: Checkpoint, req: Request, env: Environment): (Checkpoint, seq<Kind>) {
    if !env.credentialOk || !env.ready then (cp, [Error])
    else if !env.lockOk then (cp, [HandlerKind(env)])
    else
      var l := StreamLocked(cp, req, env);
      (l.cp, l.kinds + if l.end.Threw? || !env.unlockOk then [HandlerKind(env)] else [])
  }

  lemma {:induction false} BoundFrames(cp: Checkpoint, req: Request, env: Environment)
    requires env.credentialOk && env.ready && env.lockOk
    ensures
      var l := StreamLocked(cp, req, env);
      && StreamBound(cp, req, env).0 == l.cp
      && StreamBound(cp, req, env).1 ==
         if l.end.Threw? || !env.unlockOk then l.kinds + [HandlerKind(env)] else l.kinds
  {
    var l := StreamLocked(cp, req, env);
    assert l.kinds + [] == l.kinds;
  }

  function Numbered(kinds: seq<Kind>): seq<Frame> {
    seq(|kinds|, i requires 0 <= i < |kinds| => Frame(kinds[i], i))
  }

  function Under(cp: Checkpoint, req: Request, input: Input, committed: bool): System {
    System(cp, Some(Session(req, input, committed)), [])
  }

  /** What a tick does to the checkpoint while the session holds the lock. */
  lemma {:induction false} TockUnder(cp: Checkpoint, req: Request, input: Input, committed: bool, t: Tick)
    ensures Tock(Under(cp, req, input, committed), t) ==
            match t
            case Beat => Under(cp, req, input, committed)
            case Durable => Under(if committed then cp else Commit(cp, input), req, input, true)
            case Progress(move) => Under(if committed then Advanced(cp, move) else cp, req, input, committed)
  {
  }

  lemma {:induction false} OneFrame(k: Kind)
    ensures Numbered([k]) == [Frame(k, 0)]
  {
  }

  lemma {:induction false} NumberedSnoc(kinds: seq<Kind>, k: Kind)
    ensures Numbered(kinds + [k]) == Numbered(kinds) + [Frame(k, |kinds|)]
  {
  }

  /** The runtime of one run: its durable checkpoint and the code that streams requests. */
  class RunRuntime {
    var checkpoint: Checkpoint

    constructor ()
      ensures checkpoint == Empty
    {
      checkpoint := Empty;
    }

    /** One turn of the loop: a frame for it, and what it does to the checkpoint. */
    method OnTick(req: Request, input: Input, tick: Tick, committed: bool)
      returns (committed': bool, frame: seq<Kind>)
      modifies this
      ensures Under(checkpoint, req, input, committed') == Tock(old(Under(checkpoint, req, input, committed)), tick)
      ensures frame == TickFrame(tick)
    {
      committed', frame := committed, [];
      TockUnder(checkpoint, req, input, committed, tick);
      match tick {
        case Beat =>
          frame := [Heartbeat];
        case Durable =>
          if !committed {
            checkpoint := Commit(checkpoint, input);
            committed' := true;
          }
        case Progress(move) =>
          if committed {
            checkpoint := Advanced(checkpoint, move);
          }
          frame := [Update];
      }
    }

    /** Drive the graph on the chosen input: an update per move, a heartbeat while it is busy. */
    method UpdatesWithHeartbeats(req: Request, input: Input, ticks: seq<Tick>) returns (kinds: seq<Kind>)
      modifies this
      ensures checkpoint == Ticked(System(old(checkpoint), Some(Session(req, input, false)), []), ticks).cp
      ensures kinds == TickFrames(ticks)
    {
      kinds := [];
      var committed := false;
      ghost var first := Under(checkpoint, req, input, false);
      var i := 0;
      while i < |ticks|
        invariant 0 <= i <= |ticks|
        invariant Ticked(Under(checkpoint, req, input, committed), ticks[i..]) == Ticked(first, ticks)
        invariant kinds + TickFrames(ticks[i..]) == TickFrames(ticks)
      {
        TickHead(Under(checkpoint, req, input, committed), ticks[i..]);
        FramesHead(kinds, ticks[i..]);
        assert ticks[i..][1..] == ticks[i + 1..];
        var frame: seq<Kind>;
        committed, frame := OnTick(req, input, ticks[i], committed);
        kinds := kinds + frame;
        i := i + 1;
      }
    }

    method StreamUnderLock(req: Request, env: Environment) returns (kinds: seq<Kind>, end: End)
      modifies this
      ensures Locked(checkpoint, kinds, end) == StreamLocked(old(checkpoint), req, env)
    {
      if !env.readOk {
        return [], Threw;
      }
      var plan := Choose(checkpoint, req);
      if plan.Close? {
        return [KindOf(plan.frame)], Finished;
      }
      kinds := UpdatesWithHeartbeats(req, plan.input, env.ticks);
      if env.exit.RaisedOther? {
        return kinds, Threw;
      }
      if env.exit.WasCancelled? {
        return kinds, Aborted;
      }
      if !env.rereadOk {
        return kinds, Threw;
      }
      if env.exit.Ended? {
        return kinds + ClosingFrames(checkpoint), Finished;
      }
      return kinds + [Interrupt], Finished;
    }

    /** The layer that takes the lock, numbers the frames, and turns exceptions into a frame. */
    method StreamExecutionBound(req: Request, env: Environment) returns (frames: seq<Frame>)
      modifies this
      ensures checkpoint == StreamBound(old(checkpoint), req, env).0
      ensures frames == Numbered(StreamBound(old(checkpoint), req, env).1)
    {
      frames := [];
      var sequence := 0;
      if !env.credentialOk || !env.ready {
        OneFrame(Error);
        return [Frame(Error, sequence)];
      }
      if !env.lockOk {
        OneFrame(HandlerKind(env));
        return [Frame(HandlerKind(env), sequence)];
      }
      var kinds, end := StreamUnderLock(req, env);
      while sequence < |kinds|
        invariant 0 <= sequence <= |kinds|
        invariant Locked(checkpoint, kinds, end) == StreamLocked(old(checkpoint), req, env)
        invariant frames == Numbered(kinds[..sequence])
      {
        assert kinds[..sequence + 1] == kinds[..sequence] + [kinds[sequence]];
        NumberedSnoc(kinds[..sequence], kinds[sequence]);
        frames := frames + [Frame(kinds[sequence], sequence)];
        sequence := sequence + 1;
      }
      assert kinds[..sequence] == kinds;
      assert frames == Numbered(kinds);
      if end.Threw? || !env.unlockOk {
        NumberedSnoc(kinds, HandlerKind(env));
        frames := frames + [Frame(HandlerKind(env), sequence)];
      }
      BoundFrames(old(checkpoint), req, env);
    }

    /** The outermost layer numbers the frames again, over everything it passes on. */
    method StreamExecution(req: Request, env: Environment) returns (frames: seq<Frame>)
      modifies this
      ensures checkpoint == StreamBound(old(checkpoint), req, env).0
      ensures frames == Numbered(StreamBound(old(checkpoint), req, env).1)
      ensures forall i :: 0 <= i < |frames| ==> frames[i].sequence == i
    {
      var inner := StreamExecutionBound(req, env);
      frames := [];
      var sequence := 0;
      while sequence < |inner|
        invariant 0 <= sequence <= |inner|
        invariant frames == inner[..sequence]
      {
        frames := frames + [inner[sequence].(sequence := sequence)];
        sequence := sequence + 1;
      }
    }
  }

  /* ------------------------------------------------------------------ frame discipline */

  lemma {:induction false} TickFramesOpen(ticks: seq<Tick>)
    ensures forall i :: 0 <= i < |TickFrames(ticks)| ==> !Closes(TickFrames(ticks)[i])
    decreases |ticks|
  {
    if ticks == [] {
    } else {
      TickFramesOpen(ticks[1..]);
    }
  }

  /** Only updates and heartbeats, then at most one closing frame, which is last. */
  ghost predicate WellFormed(kinds: seq<Kind>) {
    forall i :: 0 <= i < |kinds| - 1 ==> !Closes(kinds[i])
  }

  ghost predicate SelfClosed(kinds: seq<Kind>) {
    |kinds| > 0 && Closes(kinds[|kinds| - 1])
  }

  lemma {:induction false} LockedShape(cp: Checkpoint, req: Request, env: Environment)
    ensures
      var l := StreamLocked(cp, req, env);
      WellFormed(l.kinds) && (SelfClosed(l.kinds) ==> l.end.Finished?)
  {
    TickFramesOpen(env.ticks);
  }

  /** Every stream is well formed, except exactly when it closed itself and the lock could
      then not be released: the handler adds a second closing frame. */
  lemma {:induction false} FrameDiscipline(cp: Checkpoint, req: Request, env: Environment)
    ensures WellFormed(StreamBound(cp, req, env).1)
       <==> !(env.credentialOk && env.ready && env.lockOk && !env.unlockOk &&
              SelfClosed(StreamLocked(cp, req, env).kinds))
  {
    LockedShape(cp, req, env);
    var l := StreamLocked(cp, req, env);
    if env.credentialOk && env.ready && env.lockOk && SelfClosed(l.kinds) && !env.unlockOk {
      assert StreamBound(cp, req, env).1[|l.kinds| - 1] == l.kinds[|l.kinds| - 1];
    }
  }

  /* ------------------------------------------------------------------ the link to the protocol */

  function ActionsOf(ticks: seq<Tick>): seq<Action> {
    if ticks == [] then []
    else
      (match ticks[0] case Beat => [] case Durable => [Write] case Progress(move) => [Graph(move)])
      + ActionsOf(ticks[1..])
  }

  lemma {:induction false} TickedIsRun(s: System, t: System, ticks: seq<Tick>)
    requires s.cp == t.cp && s.holder == t.holder
    ensures Ticked(s, ticks).cp == Run(t, ActionsOf(ticks)).cp
    decreases |ticks|
  {
    if ticks == [] {
    } else {
      var a := (match ticks[0] case Beat => [] case Durable => [Write] case Progress(move) => [Graph(move)]);
      RunConcat(t, a, ActionsOf(ticks[1..]));
      var t' := Run(t, a);
      if a != [] {
        assert Run(t, a) == Run(Step(t, a[0]), []);
      }
      TickedIsRun(Tock(s, ticks[0]), t', ticks[1..]);
    }
  }

  /** Whatever happens to a stream, its effect on the checkpoint is a run of the protocol that
      takes the lock once and leaves: every guarantee about `Run` holds of the runtime. */
  lemma {:induction false} StreamRefinesProtocol(s: System, req: Request, env: Environment)
    requires s.holder.None?
    ensures exists actions ::
      StreamBound(s.cp, req, env).0 == Run(s, actions).cp && Run(s, actions).holder.None?
    ensures env.credentialOk && env.ready && env.lockOk && env.readOk ==>
      var actions := [Take(req)] + ActionsOf(env.ticks) + [Leave];
      StreamBound(s.cp, req, env).0 == Run(s, actions).cp && Run(s, actions).holder.None?
  {
    if !(env.credentialOk && env.ready && env.lockOk && env.readOk) {
      assert Run(s, []) == s;
      return;
    }
    var s1 := Step(s, Take(req));
    RunConcat(s, [Take(req)] + ActionsOf(env.ticks), [Leave]);
    RunConcat(s, [Take(req)], ActionsOf(env.ticks));
    assert Run(s, [Take(req)]) == s1;
    var s2 := Run(s1, ActionsOf(env.ticks));
    assert Run(s2, [Leave]) == Run(Step(s2, Leave), []);
    match Choose(s.cp, req)
    case Close(_) =>
      IdleRun(s1, env.ticks);
    case Go(input) =>
      TickedIsRun(System(s.cp, Some(Session(req, input, false)), []), s1, env.ticks);
  }

  lemma {:induction false} IdleRun(s: System, ticks: seq<Tick>)
    requires s.holder.None?
    ensures Run(s, ActionsOf(ticks)).cp == s.cp
    decreases |ticks|
  {
    if ticks == [] {
    } else {
      var a := (match ticks[0] case Beat => [] case Durable => [Write] case Progress(move) => [Graph(move)]);
      RunConcat(s, a, ActionsOf(ticks[1..]));
      if a != [] {
        assert Run(s, a) == Run(Step(s, a[0]), []);
      }
      IdleRun(Run(s, a), ticks[1..]);
    }
  }

  /** Redelivering anything to a finished run replays exactly the terminal frame. */
  lemma {:induction false} TerminalReplays(cp: Checkpoint, req: Request, env: Environment)
    requires cp.Saved? && Terminal(cp.status)
    requires env.credentialOk && env.ready && env.lockOk && env.readOk && env.unlockOk
    ensures StreamBound(cp, req, env) == (cp, [Closed])
  {
    var l := StreamLocked(cp, req, env);
    assert l == Locked(cp, [Closed], Finished);
    assert l.kinds + [] == l.kinds;
  }

  /* ------------------------------------------------------------------ which frame a stream closes with */

  predicate EndsIn(kinds: seq<Kind>, k: Kind) {
    |kinds| > 0 && kinds[|kinds| - 1] == k
  }

  /** Nothing fails around the stream. */
  predicate Undisturbed(env: Environment) {
    env.credentialOk && env.ready && env.lockOk && env.unlockOk && env.readOk && env.rereadOk
  }

  /** The graph's stream runs out by itself. */
  predicate RunsOut(env: Environment) {
    Undisturbed(env) && env.exit.Ended?
  }

  /** A resume with this id is consumed as a decision. */
  predicate Decides(cp: Checkpoint, id: ExecId) {
    Answerers(Run(System(cp, None, []), [Take(Resume(id, false)), Write]).cp) == Answerers(cp) + [id]
  }

  /** A start that is delivered again would let the graph run on. */
  predicate RunsOn(cp: Checkpoint, id: ExecId) {
    cp.Saved? && Choose(cp, Start(id)) == Go(Continue) && cp.hasNext
  }

  /** The run is over: its status says so, as a success or as a failure. */
  predicate Over(cp: Checkpoint) {
    cp.Saved? && (Terminal(cp.status) || cp.status.Failed?)
  }

  lemma {:induction false} DecidesIffWaiting(cp: Checkpoint, id: ExecId)
    requires cp.Saved? && !Over(cp) && id != cp.lastExec
    ensures Decides(cp, id) <==> Waiting(cp)
  {
    var s := System(cp, None, []);
    RunTwo(s, Take(Resume(id, false)), Write);
    var t := Step(Step(s, Take(Resume(id, false))), Write);
    if Waiting(cp) {
      assert Answerers(t.cp) == Answerers(cp) + [id];
    } else {
      assert Answerers(t.cp) == Answerers(cp);
      assert |Answerers(cp) + [id]| == |Answerers(cp)| + 1;
    }
  }

  /** The frames of a stream whose graph has run out: updates, heartbeats, and how it closes. */
  lemma {:induction false} RunOutFrames(cp: Checkpoint, req: Request, env: Environment)
    requires RunsOut(env) && Choose(cp, req).Go?
    ensures
      var (after, kinds) := StreamBound(cp, req, env);
      && kinds == TickFrames(env.ticks) + ClosingFrames(after)
      && forall k :: Closes(k) ==> (EndsIn(kinds, k) <==> ClosingFrames(after) == [k])
  {
    TickFramesOpen(env.ticks);
    BoundFrames(cp, req, env);
  }

  /** While the run is not over, a stream that runs out closes with an interrupt exactly when the next resume
      is consumed as a decision, and does not close exactly when a start delivered again would run on. */
  lemma {:induction false} InterruptsIffDecides(cp: Checkpoint, req: Request, env: Environment, id: ExecId)
    requires RunsOut(env) && Choose(cp, req).Go?
    ensures
      var (after, kinds) := StreamBound(cp, req, env);
      after.Saved? && !Over(after) && id != after.lastExec ==>
        && (EndsIn(kinds, Interrupt) <==> Decides(after, id))
        && (!SelfClosed(kinds) <==> RunsOn(after, id))
        && (EndsIn(kinds, Closed) <==> !Decides(after, id) && !RunsOn(after, id))
        && !EndsIn(kinds, Error)
  {
    RunOutFrames(cp, req, env);
    var (after, kinds) := StreamBound(cp, req, env);
    TickFramesOpen(env.ticks);
    if after.Saved? && !Over(after) && id != after.lastExec {
      DecidesIffWaiting(after, id);
    }
  }

  /** Once the run is over or waits, delivering a start again gives the frame the stream closed with, and
      changes nothing, exactly when it is not both. */
  lemma {:induction false} RedeliveryAgreesIff(cp: Checkpoint, req: Request, env: Environment, id: ExecId,
                                               env': Environment)
    requires RunsOut(env) && Choose(cp, req).Go? && Undisturbed(env')
    ensures
      var (after, kinds) := StreamBound(cp, req, env);
      after.Saved? && (Over(after) || Waiting(after)) ==>
        && SelfClosed(kinds)
        && (StreamBound(after, Start(id), env') == (after, [kinds[|kinds| - 1]]) <==> !(Over(after) && Waiting(after)))
  {
    RunOutFrames(cp, req, env);
    var (after, kinds) := StreamBound(cp, req, env);
    if after.Saved? && (Over(after) || Waiting(after)) {
      BoundFrames(after, Start(id), env');
    }
  }

  /** Without a key or a runtime there is only an error. An interrupt raised by the graph, for a human or for
      credits, closes the stream with an interrupt; a cancelled stream does not close; an exception ends it
      with an interrupt if it is about credits and with an error otherwise. */
  lemma {:induction false} RaisedEndings(cp: Checkpoint, req: Request, env: Environment)
    ensures !env.credentialOk || !env.ready ==> StreamBound(cp, req, env) == (cp, [Error])
    ensures env.credentialOk && env.ready ==>
      var kinds := StreamBound(cp, req, env).1;
      && (!env.lockOk || !env.readOk || !env.unlockOk ==>
            EndsIn(kinds, if env.looksLikeCredits then Interrupt else Error))
      && (env.lockOk && env.readOk && env.unlockOk && Choose(cp, req).Go? ==>
            match env.exit
            case WasCancelled => !SelfClosed(kinds)
            case RaisedOther => EndsIn(kinds, if env.looksLikeCredits then Interrupt else Error)
            case Ended => env.rereadOk || EndsIn(kinds, if env.looksLikeCredits then Interrupt else Error)
            case _ => EndsIn(kinds, if env.rereadOk || env.looksLikeCredits then Interrupt else Error))
  {
    TickFramesOpen(env.ticks);
    if env.credentialOk && env.ready && env.lockOk {
      BoundFrames(cp, req, env);
    }
  }

  /** A request that is not fed to the graph changes nothing and gets one frame: closed for a run that is
      completed, cancelled or out of scope; an error for a failed one, unless credits come, and for a resume
      with no checkpoint; an interrupt for a start while the run waits. All others are fed to the graph. */
  lemma {:induction false} RefusedStreams(cp: Checkpoint, req: Request, env: Environment)
    requires Undisturbed(env)
    ensures
      var done := cp.Saved? && cp.status in {Completed, Cancelled, OutOfScope};
      var broken := (cp.Saved? && cp.status == Failed && !(req.Resume? && req.credits)) || (cp.Empty? && req.Resume?);
      && (done ==> StreamBound(cp, req, env) == (cp, [Closed]))
      && (broken ==> StreamBound(cp, req, env) == (cp, [Error]))
      && (!done && !broken && req.Start? && Waiting(cp) ==> StreamBound(cp, req, env) == (cp, [Interrupt]))
      && (!done && !broken && !(req.Start? && Waiting(cp)) ==> Choose(cp, req).Go?)
  {
    BoundFrames(cp, req, env);
  }

  /* ------------------------------------------------------------------ what the client sees of the graph */

  function Occurrences(kinds: seq<Kind>, k: Kind): nat {
    if kinds == [] then 0 else (if kinds[0] == k then 1 else 0) + Occurrences(kinds[1..], k)
  }

  lemma {:induction false} OccurrencesConcat(a: seq<Kind>, b: seq<Kind>, k: Kind)
    ensures Occurrences(a + b, k) == Occurrences(a, k) + Occurrences(b, k)
  {
    if a == [] {
      assert a + b == b;
    } else {
      assert (a + b)[1..] == a[1..] + b;
      OccurrencesConcat(a[1..], b, k);
    }
  }

  function Progresses(ticks: seq<Tick>): nat {
    if ticks == [] then 0 else (if ticks[0].Progress? then 1 else 0) + Progresses(ticks[1..])
  }

  function Beats(ticks: seq<Tick>): nat {
    if ticks == [] then 0 else (if ticks[0].Beat? then 1 else 0) + Beats(ticks[1..])
  }

  lemma {:induction false} TicksCounted(ticks: seq<Tick>)
    ensures Occurrences(TickFrames(ticks), Update) == Progresses(ticks)
    ensures Occurrences(TickFrames(ticks), Heartbeat) == Beats(ticks)
  {
    if ticks == [] {
    } else {
      TicksCounted(ticks[1..]);
      OccurrencesConcat(TickFrame(ticks[0]), TickFrames(ticks[1..]), Update);
      OccurrencesConcat(TickFrame(ticks[0]), TickFrames(ticks[1..]), Heartbeat);
    }
  }

  /** The same frames, or one closing frame more. */
  predicate MayClose(kinds: seq<Kind>, all: seq<Kind>) {
    all == kinds || (all != [] && Closes(all[|all| - 1]) && all[..|all| - 1] == kinds)
  }

  lemma {:induction false} ClosingUncounted(kinds: seq<Kind>, all: seq<Kind>, k: Kind)
    requires MayClose(kinds, all) && !Closes(k)
    ensures Occurrences(all, k) == Occurrences(kinds, k)
  {
    if all != kinds {
      var last := [all[|all| - 1]];
      assert all == kinds + last && last[1..] == [];
      OccurrencesConcat(kinds, last, k);
    }
  }

  lemma {:induction false} LockedMayClose(cp: Checkpoint, req: Request, env: Environment)
    requires env.readOk && Choose(cp, req).Go?
    ensures MayClose(TickFrames(env.ticks), StreamLocked(cp, req, env).kinds)
  {
    var kinds, all := TickFrames(env.ticks), StreamLocked(cp, req, env).kinds;
    assert |all| > |kinds| ==> all[..|all| - 1] == kinds;
    assert |all| == |kinds| ==> all == kinds;
  }

  /** However a stream that was fed to the graph ends, the client has seen one update for each move of the
      graph and one heartbeat for each beat. */
  lemma {:induction false} MovesAreSeen(cp: Checkpoint, req: Request, env: Environment)
    requires env.credentialOk && env.ready && env.lockOk && env.readOk && Choose(cp, req).Go?
    ensures Occurrences(StreamBound(cp, req, env).1, Update) == Progresses(env.ticks)
    ensures Occurrences(StreamBound(cp, req, env).1, Heartbeat) == Beats(env.ticks)
  {
    var ticked, locked, bound := TickFrames(env.ticks), StreamLocked(cp, req, env).kinds, StreamBound(cp, req, env).1;
    TicksCounted(env.ticks);
    LockedMayClose(cp, req, env);
    BoundFrames(cp, req, env);
    assert MayClose(locked, bound);
    ClosingUncounted(ticked, locked, Update);
    ClosingUncounted(ticked, locked, Heartbeat);
    ClosingUncounted(locked, bound, Update);
    ClosingUncounted(locked, bound, Heartbeat);
  }
}
