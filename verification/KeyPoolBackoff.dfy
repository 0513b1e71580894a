/** When a request sleeps: the staged backoff, read from the log, and what it is good for. */
module KeyPoolBackoff {
  import opened KeyPool
  import opened KeyPoolTheorems

  /** The pauses slept since `from`, in order. */
  function Sleeps(log: seq<Event>, from: nat): seq<nat> {
    if |log| <= from then []
    else Sleeps(log[..|log| - 1], from) + if log[|log| - 1].Slept? then [log[|log| - 1].seconds] else []
  }

  /** A failure that waiting does not mend: anything but a rate limit or an overload. */
  predicate Lasting(e: Event) {
    e.Attempted? && e.outcome.Failed? && e.outcome.reason != Retryable
  }

  /** Every failure since `from` may pass. */
  ghost predicate OnlyPassing(log: seq<Event>, from: nat) {
    forall k :: from <= k < |log| ==> !Lasting(log[k])
  }

  /** Since `from`, no pause follows a lasting failure. */
  ghost predicate SleepsFirst(log: seq<Event>, from: nat) {
    forall j, k :: from <= j < k < |log| && Lasting(log[j]) ==> !log[k].Slept?
  }

  /** The pauses behind a request that has `passes` left. */
  function Slept20Then40(passes: nat): seq<nat> {
    if passes >= 2 then [] else if passes == 1 then [20] else [20, 40]
  }

  lemma {:induction false} SleepsSnoc(log: seq<Event>, e: Event, from: nat)
    requires from <= |log|
    ensures Sleeps(log + [e], from) == Sleeps(log, from) + if e.Slept? then [e.seconds] else []
  {
    assert (log + [e])[..|log|] == log;
  }

  lemma {:induction false} PassingSnoc(log: seq<Event>, e: Event, from: nat)
    requires from <= |log|
    ensures OnlyPassing(log + [e], from) <==> OnlyPassing(log, from) && !Lasting(e)
  {
    var more := log + [e];
    assert more[|log|] == e;
    assert forall k :: from <= k < |log| ==> more[k] == log[k];
  }

  lemma {:induction false} FirstSnoc(log: seq<Event>, e: Event, from: nat)
    requires from <= |log| && SleepsFirst(log, from) && (e.Slept? ==> OnlyPassing(log, from))
    ensures SleepsFirst(log + [e], from)
  {
    var more := log + [e];
    forall j, k | from <= j < k < |more| && Lasting(more[j]) ensures !more[k].Slept? {
      assert more[j] == log[j];
      assert k < |log| ==> more[k] == log[k];
    }
  }

  /* ------------------------------------------------------------------ rotations do not sleep */

  /** The log as the backoff sees it: the pauses, and whether all failures may pass. */
  ghost predicate SamePace(log: seq<Event>, log': seq<Event>, from: nat) {
    && |log| <= |log'|
    && Sleeps(log', from) == Sleeps(log, from)
    && (OnlyPassing(log', from) <==> OnlyPassing(log, from))
    && (SleepsFirst(log, from) ==> SleepsFirst(log', from))
  }

  lemma {:induction false} ActivationPace(log: seq<Event>, slot: nat, ok: bool, from: nat)
    requires from <= |log|
    ensures SamePace(log, log + [Activated(slot, ok)], from)
  {
    var e := Activated(slot, ok);
    SleepsSnoc(log, e, from);
    PassingSnoc(log, e, from);
    if SleepsFirst(log, from) {
      FirstSnoc(log, e, from);
    }
  }

  lemma {:induction false} PaceTrans(a: seq<Event>, b: seq<Event>, c: seq<Event>, from: nat)
    requires SamePace(a, b, from) && SamePace(b, c, from)
    ensures SamePace(a, c, from)
  {
  }

  lemma {:induction false} SelfPace(log: seq<Event>, from: nat)
    ensures SamePace(log, log, from)
  {
  }

  lemma {:induction false} ScanPace(w: World, p: Pool, tried: set<nat>, step: nat, permanent: bool, from: nat)
    requires p.size > 0 && Valid(p) && from <= |p.log|
    ensures SamePace(p.log, Scan(w, p, tried, step, permanent).pool.log, from)
    decreases p.size + 1 - step
  {
    if step > p.size {
      SelfPace(p.log, from);
    } else {
      ScanStep(w, p, tried, step, permanent);
      var nxt := Ahead(p, step);
      if nxt in tried || nxt in p.dead {
        ScanPace(w, p, tried, step + 1, permanent, from);
      } else {
        var q := Activate(w, p, nxt);
        ActivationPace(p.log, nxt, q.available, from);
        if !q.available {
          ScanPace(w, if permanent then MarkDead(q) else q, tried + {nxt}, step + 1, permanent, from);
          PaceTrans(p.log, q.log, Scan(w, p, tried, step, permanent).pool.log, from);
        }
      }
    }
  }

  lemma {:induction false} FailoverPace(w: World, p: Pool, tried: set<nat>, permanent: bool, from: nat)
    requires Valid(p) && from <= |p.log|
    ensures SamePace(p.log, Failover(w, p, tried, permanent).pool.log, from)
  {
    if p.size > 0 {
      ScanPace(w, if permanent then MarkDead(p) else p, tried + {p.index}, 1, permanent, from);
    }
  }

  /* ------------------------------------------------------------------ a whole request */

  /** Between two rounds: the pauses taken are those of the passes spent, and the flag of the call says
      whether all failures so far may pass. */
  ghost predicate Paced(c: Call, from: nat) {
    && from <= |c.pool.log|
    && Sleeps(c.pool.log, from) == Slept20Then40(c.passes)
    && (c.onlyRetryable <==> OnlyPassing(c.pool.log, from))
    && SleepsFirst(c.pool.log, from)
  }

  /** At the end: pauses of 20 and then 40 seconds at most, none after a lasting failure, and giving up on
      a pool with a client only after both or after a lasting failure. */
  ghost predicate WellPaced(r: Result, from: nat) {
    && from <= |r.pool.log| && Sleeps(r.pool.log, from) in {[], [20], [20, 40]}
    && SleepsFirst(r.pool.log, from)
    && (r.verdict.Exhausted? && r.pool.available && OnlyPassing(r.pool.log, from) ==>
          Sleeps(r.pool.log, from) == [20, 40])
  }

  ghost predicate NextPaced(n: Next, from: nat) {
    match n case Again(c) => Paced(c, from) case Done(r) => WellPaced(r, from)
  }

  lemma {:induction false} EnterPaced(w: World, p: Pool)
    requires Valid(p)
    ensures Paced(Enter(w, p), |p.log|)
  {
    FailoverPace(w, p, {}, true, |p.log|);
  }

  lemma {:induction false} AttemptPace(log: seq<Event>, slot: nat, dead: set<nat>, o: Outcome, from: nat)
    requires from <= |log| && SleepsFirst(log, from)
    ensures
      var log' := log + [Attempted(slot, dead, o)];
      && Sleeps(log', from) == Sleeps(log, from) && SleepsFirst(log', from)
      && (OnlyPassing(log', from) <==> OnlyPassing(log, from) && !(o.Failed? && o.reason != Retryable))
  {
    var e := Attempted(slot, dead, o);
    SleepsSnoc(log, e, from);
    PassingSnoc(log, e, from);
    FirstSnoc(log, e, from);
  }

  lemma {:induction false} BackoffPaced(p: Pool, passes: nat, from: nat)
    requires from <= |p.log| && 1 <= passes <= MAX_BACKOFF_PASSES
    requires Sleeps(p.log, from) == Slept20Then40(passes) && OnlyPassing(p.log, from) && SleepsFirst(p.log, from)
    ensures Paced(Call(Backoff(p, passes), {}, passes - 1, true), from)
  {
    var e := Slept(BACKOFF_SECONDS * (MAX_BACKOFF_PASSES - passes + 1));
    SleepsSnoc(p.log, e, from);
    PassingSnoc(p.log, e, from);
    FirstSnoc(p.log, e, from);
  }

  lemma {:induction false} AttemptPaced(w: World, c: Call, from: nat)
    requires CallValid(c) && c.pool.available && Paced(c, from)
    ensures NextPaced(Turn(w, c), from)
  {
    var (o, p) := Attempt(w, c.pool);
    AttemptPace(c.pool.log, c.pool.index, c.pool.dead, o, from);
    if o.Failed? {
      FailoverPace(w, p, c.tried, Permanent(o.reason), from);
      var s := Failover(w, p, c.tried, Permanent(o.reason));
      if !s.moved && Turn(w, c).Again? {
        BackoffPaced(s.pool, c.passes, from);
      }
    }
  }

  lemma {:induction false} NoClientPaced(w: World, c: Call, from: nat)
    requires CallValid(c) && !c.pool.available && Paced(c, from)
    ensures NextPaced(Turn(w, c), from)
  {
    FailoverPace(w, c.pool, c.tried, true, from);
    if c.pool.size > 0 {
      FailoverShaped(w, c.pool, c.tried, true);
      var s := Failover(w, c.pool, c.tried, true);
      FailoverPace(w, s.pool, s.tried, true, from);
      FailoverShaped(w, s.pool, s.tried, true);
    }
  }

  lemma {:induction false} ServePaced(w: World, c: Call, from: nat)
    requires CallValid(c) && Paced(c, from)
    ensures WellPaced(Serve(w, c), from)
    decreases c.passes, if c.pool.size > 0 then Unvisited(c) + 1 else 0
  {
    if c.pool.available {
      AttemptPaced(w, c, from);
    } else {
      NoClientPaced(w, c, from);
    }
    ServeTurn(w, c);
    if Turn(w, c).Again? {
      TurnProgress(w, c);
      ServePaced(w, Turn(w, c).call, from);
    }
  }

  /** In every world a request pauses for 20 seconds and then 40 at most, never after a failure that is not
      a rate limit, and while all failures are rate limits it gives up on a pool with a client only after
      both pauses. */
  lemma {:induction false} BackoffLaw(w: World, p: Pool)
    requires Valid(p)
    ensures WellPaced(GenerateOnce(w, p), |p.log|)
  {
    EnterValid(w, p);
    EnterPaced(w, p);
    ServePaced(w, Enter(w, p), |p.log|);
  }

  /* ------------------------------------------------------------------ with every client up */

  /** Before every pause since the start of the request, each slot not dead then was attempted since the
      pause before it. */
  ghost predicate FullRounds(p0: Pool, log: seq<Event>) {
    |log| <= |p0.log| ||
    (FullRounds(p0, log[..|log| - 1]) && (log[|log| - 1].Slept? ==> RoundDone(p0, log[..|log| - 1])))
  }

  ghost predicate RoundDone(p0: Pool, log: seq<Event>) {
    forall s :: s in Slots(p0.size) && s !in p0.dead ==> s in LastRound(log, |p0.log|)
  }

  lemma {:induction false} FullRoundsSnoc(p0: Pool, log: seq<Event>, e: Event)
    requires FullRounds(p0, log) && (e.Slept? ==> RoundDone(p0, log))
    ensures FullRounds(p0, log + [e])
  {
    assert (log + [e])[..|log|] == log;
  }

  /** The log and the pool right after an attempt that failed. */
  lemma {:induction false} AttemptFullRounds(w: World, p0: Pool, c: Call)
    requires Accounted(p0, c) && FullRounds(p0, c.pool.log)
    ensures
      var (o, p) := Attempt(w, c.pool);
      && FullRounds(p0, p.log) && Valid(p) && p.size == p0.size && p.available && |p0.log| <= |p.log|
      && c.tried + {p.index} <= p0.dead + LastRound(p.log, |p0.log|)
      && c.pool.dead <= p0.dead + LastRound(p.log, |p0.log|)
  {
    var (o, p) := Attempt(w, c.pool);
    var e := Attempted(c.pool.index, c.pool.dead, o);
    FullRoundsSnoc(p0, c.pool.log, e);
    LogStep(c.pool.log, e, |p0.log|);
  }

  lemma {:induction false} MovedFullRounds(w: World, p0: Pool, p: Pool, tried: set<nat>, permanent: bool)
    requires AlwaysUp(w, p0.size) && Valid(p) && 0 < p.size == p0.size && p.available && |p0.log| <= |p.log|
    requires FullRounds(p0, p.log)
    ensures var s := Failover(w, p, tried, permanent); FullRounds(p0, s.pool.log) && s.pool.available
  {
    FailoverUp(w, p, tried, permanent);
    var s := Failover(w, p, tried, permanent);
    if s.moved {
      FullRoundsSnoc(p0, p.log, Activated(s.pool.index, true));
    }
  }

  lemma {:induction false} StuckRoundDone(w: World, p0: Pool, p: Pool, tried: set<nat>, permanent: bool)
    requires AlwaysUp(w, p0.size) && Valid(p) && 0 < p.size == p0.size
    requires tried + {p.index} <= p0.dead + LastRound(p.log, |p0.log|)
    requires p.dead <= p0.dead + LastRound(p.log, |p0.log|)
    requires !Failover(w, p, tried, permanent).moved
    ensures Failover(w, p, tried, permanent).pool.log == p.log && RoundDone(p0, p.log)
  {
    FailoverUp(w, p, tried, permanent);
  }

  ghost predicate NextFull(p0: Pool, n: Next) {
    match n
    case Again(c) => FullRounds(p0, c.pool.log)
    case Done(r) => FullRounds(p0, r.pool.log) && r.pool.available
  }

  /** The end of a round after a failed attempt and the rotation that followed it. */
  lemma {:induction false} RotatedTurn(w: World, c: Call)
    requires CallValid(c) && c.pool.available
    requires Attempt(w, c.pool).0.Failed?
    ensures
      var (o, p) := Attempt(w, c.pool);
      var only := c.onlyRetryable && o.reason.Retryable?;
      var s := Failover(w, p, c.tried, Permanent(o.reason));
      Turn(w, c) ==
      if s.moved then Again(Call(s.pool, s.tried, c.passes, only))
      else if only && c.passes > 0 && s.pool.size > 0 then
        Again(Call(Backoff(s.pool, c.passes), {}, c.passes - 1, only))
      else Done(Result(s.pool, if s.pool.size > 0 then Exhausted else Blank))
  {
  }

  lemma {:induction false} RotatedFull(w: World, p0: Pool, c: Call)
    requires AlwaysUp(w, p0.size) && Accounted(p0, c) && FullRounds(p0, c.pool.log)
    requires Attempt(w, c.pool).0.Failed?
    ensures NextFull(p0, Turn(w, c))
  {
    AttemptFullRounds(w, p0, c);
    var (o, p) := Attempt(w, c.pool);
    MovedFullRounds(w, p0, p, c.tried, Permanent(o.reason));
    RotatedTurn(w, c);
    if !Failover(w, p, c.tried, Permanent(o.reason)).moved {
      StuckRoundDone(w, p0, p, c.tried, Permanent(o.reason));
      FullRoundsSnoc(p0, p.log, Slept(BACKOFF_SECONDS * (MAX_BACKOFF_PASSES - c.passes + 1)));
    }
  }

  lemma {:induction false} TurnFullRounds(w: World, p0: Pool, c: Call)
    requires AlwaysUp(w, p0.size) && Accounted(p0, c) && FullRounds(p0, c.pool.log)
    ensures NextFull(p0, Turn(w, c))
  {
    if Attempt(w, c.pool).0.Failed? {
      RotatedFull(w, p0, c);
    } else {
      FullRoundsSnoc(p0, c.pool.log, Attempted(c.pool.index, c.pool.dead, Attempt(w, c.pool).0));
    }
  }

  lemma {:induction false} ServeFullRounds(w: World, p0: Pool, c: Call)
    requires AlwaysUp(w, p0.size) && Accounted(p0, c) && FullRounds(p0, c.pool.log)
    ensures FullRounds(p0, Serve(w, c).pool.log) && Serve(w, c).pool.available
    decreases c.passes, if c.pool.size > 0 then Unvisited(c) + 1 else 0
  {
    TurnAccounted(w, p0, c);
    TurnFullRounds(w, p0, c);
    ServeTurn(w, c);
    if Turn(w, c).Again? {
      TurnProgress(w, c);
      ServeFullRounds(w, p0, Turn(w, c).call);
    }
  }

  lemma {:induction false} EnterFullRounds(w: World, p: Pool)
    requires Valid(p) && AlwaysUp(w, p.size) && p.available
    ensures FullRounds(p, Enter(w, p).pool.log)
  {
    if p.index in p.dead {
      FailoverUp(w, p, {}, true);
      var s := Failover(w, p, {}, true);
      if s.moved {
        FullRoundsSnoc(p, p.log, Activated(s.pool.index, true));
      }
    }
  }

  /** If every client comes up, a request pauses only after a full round, and while all failures are rate
      limits it ends without text only after the pauses of 20 and 40 seconds, that is after three rounds. */
  lemma {:induction false} PausesAndRounds(w: World, p: Pool)
    requires Valid(p) && p.available && AlwaysUp(w, p.size)
    ensures
      var r := GenerateOnce(w, p);
      && FullRounds(p, r.pool.log)
      && (OnlyPassing(r.pool.log, |p.log|) && !r.verdict.Text? ==>
            r.verdict.Exhausted? && Sleeps(r.pool.log, |p.log|) == [20, 40] && AllAttempted(p, r.pool))
  {
    EnterAccounted(w, p);
    EnterFullRounds(w, p);
    ServeFullRounds(w, p, Enter(w, p));
    PoolCompleteness(w, p);
    BackoffLaw(w, p);
  }

  /* ------------------------------------------------------------------ a rate limit that lifts */

  lemma {:induction false} SleptSince(log: seq<Event>, from: nat)
    requires from <= |log|
    ensures SleepTime(log) == SleepTime(log[..from]) + Total(Sleeps(log, from))
    decreases |log|
  {
    if |log| == from {
      assert log[..from] == log;
    } else {
      var front := log[..|log| - 1];
      SleptSince(front, from);
      assert front[..from] == log[..from];
      if log[|log| - 1].Slept? {
        TotalSnoc(Sleeps(front, from), log[|log| - 1].seconds);
      } else {
        assert Sleeps(front, from) + [] == Sleeps(front, from);
      }
    }
  }

  function Total(pauses: seq<nat>): nat {
    if pauses == [] then 0 else pauses[0] + Total(pauses[1..])
  }

  lemma {:induction false} TotalSnoc(pauses: seq<nat>, x: nat)
    ensures Total(pauses + [x]) == Total(pauses) + x
  {
    if pauses == [] {
      assert [x][1..] == [];
    } else {
      assert (pauses + [x])[1..] == pauses[1..] + [x];
      TotalSnoc(pauses[1..], x);
    }
  }

  /** An attempt of the last round comes after all pauses. */
  lemma {:induction false} LastAttempt(log: seq<Event>, from: nat, s: nat) returns (k: nat)
    requires s in LastRound(log, from)
    ensures from <= k < |log| && log[k].Attempted? && log[k].slot == s && SleepTime(log[..k]) == SleepTime(log)
  {
    var last, front := log[|log| - 1], log[..|log| - 1];
    if last.Attempted? && last.slot == s {
      k := |log| - 1;
    } else {
      k := LastAttempt(front, from, s);
      assert front[..k] == log[..k];
    }
  }

  /** Once the request has slept `seconds` seconds, the provider of slot `s` answers. */
  ghost predicate Lifts(w: World, log: seq<Event>, from: nat, s: nat, seconds: nat) {
    forall k: nat :: from <= k < |log| && SleepTime(log[..k]) >= SleepTime(log[..from]) + seconds ==>
      w.answers(k, s).Answer?
  }

  /** Every failure is a rate limit. */
  ghost predicate RateLimited(w: World) {
    forall t: nat, x: nat :: w.answers(t, x).Answer? || w.answers(t, x) == Failed(Retryable)
  }

  lemma {:induction false} RateLimitedPasses(w: World, log: seq<Event>, from: nat)
    requires RateLimited(w) && Refused(w, log, from)
    ensures OnlyPassing(log, from)
  {
    forall k | from <= k < |log| ensures !Lasting(log[k]) {
      if log[k].Attempted? {
        assert log[k].outcome == w.answers(k, log[k].slot);
      }
    }
  }

  /** Where the limit lifts within a minute, the attempts after both pauses cannot all have failed. */
  lemma {:induction false} LiftsAnswers(w: World, log: seq<Event>, from: nat, s: nat, seconds: nat)
    requires from <= |log| && Lifts(w, log, from, s, seconds) && seconds <= 60
    requires Sleeps(log, from) == [20, 40] && s in LastRound(log, from)
    ensures !Refused(w, log, from)
  {
    var k := LastAttempt(log, from, s);
    SleptSince(log, from);
    assert [20, 40][1..] == [40] && [40][1..] == [];
    assert Total([40]) == 40 && Total([20, 40]) == 60;
    assert w.answers(k, s).Answer?;
  }

  /** A pool that only meets rate limits, one of which lifts within a minute of sleep, returns text. */
  lemma {:induction false} RateLimitOutlived(w: World, p: Pool, s: nat, seconds: nat)
    requires Valid(p) && p.available && AlwaysUp(w, p.size) && s in Slots(p.size) && s !in p.dead
    requires RateLimited(w) && seconds <= 60
    requires Lifts(w, GenerateOnce(w, p).pool.log, |p.log|, s, seconds)
    ensures GenerateOnce(w, p).verdict.Text?
  {
    var r := GenerateOnce(w, p);
    EnterValid(w, p);
    FailoverRefused(w, p, {}, true, |p.log|);
    ServeRefused(w, Enter(w, p), |p.log|);
    if !r.verdict.Text? {
      RateLimitedPasses(w, r.pool.log, |p.log|);
      PausesAndRounds(w, p);
      LiftsAnswers(w, r.pool.log, |p.log|, s, seconds);
    }
  }

  /* ------------------------------------------------------------------ which failures bench a key */

  /** The provider turned slot `s` away for good: out of credits, a dead key, or a failed generation. */
  predicate TurnedAway(e: Event, s: nat) {
    e.Attempted? && e.slot == s && e.outcome.Failed? && e.outcome.reason in {Credits, DeadKey, GenerateFailed}
  }

  ghost predicate WasTurnedAway(log: seq<Event>, from: nat, s: nat) {
    exists k :: from <= k < |log| && TurnedAway(log[k], s)
  }

  /** Since `from`, exactly the slots turned away have died, apart from those that were dead. */
  ghost predicate DeadExplained(p0: Pool, p: Pool) {
    && |p0.log| <= |p.log|
    && forall s: nat :: s in p.dead <==> s in p0.dead || WasTurnedAway(p.log, |p0.log|, s)
  }

  lemma {:induction false} TurnedAwaySnoc(log: seq<Event>, e: Event, from: nat, s: nat)
    requires from <= |log|
    ensures WasTurnedAway(log + [e], from, s) <==> WasTurnedAway(log, from, s) || TurnedAway(e, s)
  {
    var more := log + [e];
    assert more[|log|] == e;
    if WasTurnedAway(log, from, s) {
      var k :| from <= k < |log| && TurnedAway(log[k], s);
      assert more[k] == log[k];
    }
    if WasTurnedAway(more, from, s) {
      var k :| from <= k < |more| && TurnedAway(more[k], s);
      assert k < |log| ==> more[k] == log[k];
    }
  }

  lemma {:induction false} ExplainedSnoc(p0: Pool, p: Pool, q: Pool, e: Event)
    requires DeadExplained(p0, p) && q.log == p.log + [e] && q.dead == p.dead
    requires forall s: nat :: !TurnedAway(e, s)
    ensures DeadExplained(p0, q)
  {
    forall s: nat ensures s in q.dead <==> s in p0.dead || WasTurnedAway(q.log, |p0.log|, s) {
      TurnedAwaySnoc(p.log, e, |p0.log|, s);
    }
  }

  /** After a failed attempt: the slot is marked before the rotation exactly if it was turned away. */
  lemma {:induction false} AttemptExplained(w: World, p0: Pool, p: Pool)
    requires DeadExplained(p0, p) && Attempt(w, p).0.Failed?
    ensures
      var (o, q) := Attempt(w, p);
      DeadExplained(p0, if Permanent(o.reason) then MarkDead(q) else q)
  {
    var (o, q) := Attempt(w, p);
    var e := Attempted(p.index, p.dead, o);
    var r := if Permanent(o.reason) then MarkDead(q) else q;
    forall s: nat ensures s in r.dead <==> s in p0.dead || WasTurnedAway(r.log, |p0.log|, s) {
      TurnedAwaySnoc(p.log, e, |p0.log|, s);
    }
  }

  lemma {:induction false} RotatedExplained(w: World, p0: Pool, p: Pool, tried: set<nat>, permanent: bool)
    requires AlwaysUp(w, p.size) && Valid(p) && p.size > 0
    requires DeadExplained(p0, if permanent then MarkDead(p) else p)
    ensures DeadExplained(p0, Failover(w, p, tried, permanent).pool)
  {
    FailoverUp(w, p, tried, permanent);
    var q, s := if permanent then MarkDead(p) else p, Failover(w, p, tried, permanent);
    if s.moved {
      ExplainedSnoc(p0, q, s.pool, Activated(s.pool.index, true));
    }
  }

  ghost predicate NextExplained(p0: Pool, n: Next) {
    match n case Again(c) => DeadExplained(p0, c.pool) case Done(r) => DeadExplained(p0, r.pool)
  }

  lemma {:induction false} TurnExplained(w: World, p0: Pool, c: Call)
    requires AlwaysUp(w, c.pool.size) && CallValid(c) && c.pool.available && DeadExplained(p0, c.pool)
    ensures NextExplained(p0, Turn(w, c))
  {
    var (o, p) := Attempt(w, c.pool);
    if o.Failed? {
      AttemptExplained(w, p0, c.pool);
      RotatedExplained(w, p0, p, c.tried, Permanent(o.reason));
      RotatedTurn(w, c);
      var s := Failover(w, p, c.tried, Permanent(o.reason));
      var pause := Slept(BACKOFF_SECONDS * (MAX_BACKOFF_PASSES - c.passes + 1));
      ExplainedSnoc(p0, s.pool, Backoff(s.pool, c.passes), pause);
    } else {
      ExplainedSnoc(p0, c.pool, p, Attempted(c.pool.index, c.pool.dead, o));
    }
  }

  lemma {:induction false} ServeExplained(w: World, p0: Pool, c: Call)
    requires AlwaysUp(w, p0.size) && Accounted(p0, c) && DeadExplained(p0, c.pool)
    ensures DeadExplained(p0, Serve(w, c).pool)
    decreases c.passes, if c.pool.size > 0 then Unvisited(c) + 1 else 0
  {
    TurnExplained(w, p0, c);
    TurnAccounted(w, p0, c);
    ServeTurn(w, c);
    if Turn(w, c).Again? {
      TurnProgress(w, c);
      ServeExplained(w, p0, Turn(w, c).call);
    }
  }

  /** If every client comes up, a request benches exactly the keys whose provider reported missing credits,
      a dead key or a failed generation; rate limits, transport errors and empty answers bench none. */
  lemma {:induction false} BenchedIffTurnedAway(w: World, p: Pool)
    requires Valid(p) && p.available && AlwaysUp(w, p.size)
    ensures DeadExplained(p, GenerateOnce(w, p).pool)
  {
    EnterAccounted(w, p);
    if p.index in p.dead {
      assert MarkDead(p) == p;
      RotatedExplained(w, p, p, {}, true);
    }
    ServeExplained(w, p, Enter(w, p));
  }

  /* ------------------------------------------------------------------ what a request returns */

  /** Text is what the last attempt answered; nothing is returned only where there are no slots. */
  ghost predicate Truthful(r: Result) {
    && (r.verdict.Blank? <==> r.pool.size == 0)
    && (r.verdict.Text? ==>
          && |r.pool.log| > 0
          && r.pool.log[|r.pool.log| - 1] == Attempted(r.pool.index, r.pool.dead, Answer(r.verdict.text)))
  }

  lemma {:induction false} ServeTruthful(w: World, c: Call)
    requires CallValid(c)
    ensures Truthful(Serve(w, c)) && Serve(w, c).pool.size == c.pool.size
    decreases c.passes, if c.pool.size > 0 then Unvisited(c) + 1 else 0
  {
    TurnProgress(w, c);
    ServeTurn(w, c);
    if Turn(w, c).Again? {
      ServeTruthful(w, Turn(w, c).call);
    }
  }

  /** In every world the text returned is the answer to the last attempt. */
  lemma {:induction false} ReturnsTheAnswer(w: World, p: Pool)
    requires Valid(p)
    ensures Truthful(GenerateOnce(w, p)) && GenerateOnce(w, p).pool.size == p.size
  {
    EnterValid(w, p);
    ServeTruthful(w, Enter(w, p));
  }

  /** The first answer to a pause that is not to continue, or Continue when there is none. */
  function Stopper(pauses: seq<Pause>): Pause {
    if pauses == [] then Continue else if pauses[0].Continue? then Stopper(pauses[1..]) else pauses[0]
  }

  /** With pauses in between: the caller sees a cancelled request only if the human cancelled the first pause
      he did not continue, a handover only if he asked for one there, and an open pause only if he continued
      all of them; text is the answer to the last attempt, and no text only where there are no slots. */
  lemma {:induction false} PausesDecide(w: World, p: Pool, pauses: seq<Pause>)
    requires Valid(p)
    ensures
      var (q, reply) := Generate(w, p, pauses);
      match reply
      case Raised => Stopper(pauses) == Cancel
      case HandedOver => Stopper(pauses) == Rebind
      case Waiting => Stopper(pauses) == Continue && p.size > 0
      case Returned(text) =>
        if p.size == 0 then text == ""
        else |q.log| > 0 && q.log[|q.log| - 1] == Attempted(q.index, q.dead, Answer(text))
    decreases |pauses|
  {
    ServeValid(w, p);
    ReturnsTheAnswer(w, p);
    var r := GenerateOnce(w, p);
    if r.verdict.Exhausted? && pauses != [] && pauses[0].Continue? {
      PausesDecide(w, Revive(w, r.pool), pauses[1..]);
    }
  }
}
