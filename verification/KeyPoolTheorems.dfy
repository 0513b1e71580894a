/** What the key pool guarantees against every adversary: bounded effort, dead-slot
    discipline over whole sessions, completeness, and the exact limits of the rotation. */
module KeyPoolTheorems {
  import opened KeyPool

  /* ------------------------------------------------------------------ reading the log */

  function Attempts(log: seq<Event>): nat {
    if log == [] then 0
    else Attempts(log[..|log| - 1]) + if log[|log| - 1].Attempted? then 1 else 0
  }

  function SleepTime(log: seq<Event>): nat {
    if log == [] then 0
    else SleepTime(log[..|log| - 1]) + if log[|log| - 1].Slept? then log[|log| - 1].seconds else 0
  }

  /** The slots attempted after the last backoff, looking back no further than `from`. */
  function LastRound(log: seq<Event>, from: nat): set<nat> {
    if |log| <= from || log[|log| - 1].Slept? then {}
    else LastRound(log[..|log| - 1], from) + if log[|log| - 1].Attempted? then {log[|log| - 1].slot} else {}
  }

  lemma {:induction false} LogStep(log: seq<Event>, e: Event, from: nat)
    ensures Attempts(log + [e]) == Attempts(log) + if e.Attempted? then 1 else 0
    ensures SleepTime(log + [e]) == SleepTime(log) + if e.Slept? then e.seconds else 0
    ensures from <= |log| ==>
              LastRound(log + [e], from) ==
              if e.Slept? then {} else LastRound(log, from) + if e.Attempted? then {e.slot} else {}
  {
    assert (log + [e])[..|log|] == log;
  }

  /* ------------------------------------------------------------------ bounded effort */

  lemma {:induction false} ScanEffort(w: World, p: Pool, tried: set<nat>, step: nat, permanent: bool)
    requires p.size > 0 && Valid(p)
    ensures
      var log' := Scan(w, p, tried, step, permanent).pool.log;
      Attempts(log') == Attempts(p.log) && SleepTime(log') == SleepTime(p.log) && |p.log| <= |log'|
    decreases p.size + 1 - step
  {
    if step <= p.size {
      var nxt := Ahead(p, step);
      if nxt in tried || nxt in p.dead {
        ScanEffort(w, p, tried, step + 1, permanent);
      } else {
        var q := Activate(w, p, nxt);
        LogStep(p.log, Activated(nxt, q.available), 0);
        if !q.available {
          ScanEffort(w, if permanent then MarkDead(q) else q, tried + {nxt}, step + 1, permanent);
        }
      }
    }
  }

  lemma {:induction false} FailoverEffort(w: World, p: Pool, tried: set<nat>, permanent: bool)
    requires Valid(p)
    ensures
      var log' := Failover(w, p, tried, permanent).pool.log;
      Attempts(log') == Attempts(p.log) && SleepTime(log') == SleepTime(p.log) && |p.log| <= |log'|
  {
    if p.size > 0 {
      ScanEffort(w, if permanent then MarkDead(p) else p, tried + {p.index}, 1, permanent);
    }
  }

  /** Attempts still possible from a round on: every unvisited slot once, plus the current
      one, plus a full pass for every backoff left. */
  function AttemptsLeft(c: Call): int {
    if c.pool.size == 0 then 0 else Rounds(c.passes, c.pool.size) + Unvisited(c) + 1
  }

  /** The attempts of `passes` full rounds over `size` slots. */
  function Rounds(passes: nat, size: nat): nat {
    if passes == 0 then 0 else size + Rounds(passes - 1, size)
  }

  function SleepLeft(passes: nat): nat {
    if passes == 0 || passes > MAX_BACKOFF_PASSES then 0
    else BACKOFF_SECONDS * (MAX_BACKOFF_PASSES - passes + 1) + SleepLeft(passes - 1)
  }

  ghost predicate EffortKept(c: Call, n: Next) {
    match n
    case Done(r) =>
      && Attempts(r.pool.log) <= Attempts(c.pool.log) + AttemptsLeft(c)
      && SleepTime(r.pool.log) == SleepTime(c.pool.log)
    case Again(c') =>
      && Attempts(c'.pool.log) + AttemptsLeft(c') <= Attempts(c.pool.log) + AttemptsLeft(c)
      && SleepTime(c'.pool.log) + SleepLeft(c'.passes) == SleepTime(c.pool.log) + SleepLeft(c.passes)
  }

  lemma {:induction false} AttemptEffort(w: World, c: Call)
    requires CallValid(c) && c.pool.available
    ensures EffortKept(c, Turn(w, c))
  {
    AttemptProgress(w, c);
    VisitedBound(c);
    var (o, p) := Attempt(w, c.pool);
    LogStep(c.pool.log, Attempted(c.pool.index, c.pool.dead, o), 0);
    if o.Failed? {
      FailoverEffort(w, p, c.tried, Permanent(o.reason));
      var s := Failover(w, p, c.tried, Permanent(o.reason));
      if !s.moved && Turn(w, c).Again? {
        BackoffEffort(c, s.pool, Turn(w, c).call);
      }
    }
  }

  /** A round that ends in a backoff pays for the next one with the pass it spends. */
  lemma {:induction false} BackoffEffort(c: Call, p: Pool, c': Call)
    requires CallValid(c) && c.pool.size > 0 && c.passes > 0 && p.size == c.pool.size
    requires Attempts(p.log) == Attempts(c.pool.log) + 1 && SleepTime(p.log) == SleepTime(c.pool.log)
    requires c'.pool == Backoff(p, c.passes) && c'.tried == {} && c'.passes == c.passes - 1
    ensures EffortKept(c, Again(c'))
  {
    LogStep(p.log, Slept(BACKOFF_SECONDS * (MAX_BACKOFF_PASSES - c.passes + 1)), 0);
    PassRenewed(c, c');
  }

  /** Trading a backoff pass for a fresh round does not add attempts. */
  lemma {:induction false} PassRenewed(c: Call, c': Call)
    requires CallValid(c) && c.pool.size > 0
    requires c'.pool.size == c.pool.size && c'.tried == {} && c'.passes + 1 == c.passes
    ensures 1 + AttemptsLeft(c') <= AttemptsLeft(c)
  {
    VisitedBound(c);
    assert c'.tried + {c'.pool.index} == {c'.pool.index};
  }

  lemma {:induction false} NoClientEffort(w: World, c: Call)
    requires CallValid(c) && !c.pool.available
    ensures EffortKept(c, Turn(w, c))
  {
    VisitedBound(c);
    FailoverEffort(w, c.pool, c.tried, true);
    if c.pool.size > 0 {
      NoClientProgress(w, c);
      FailoverShaped(w, c.pool, c.tried, true);
      var s := Failover(w, c.pool, c.tried, true);
      FailoverEffort(w, s.pool, s.tried, true);
    }
  }

  lemma {:induction false} VisitedBound(c: Call)
    requires CallValid(c)
    ensures c.pool.size > 0 ==> 0 <= Unvisited(c)
    ensures 0 <= AttemptsLeft(c)
  {
    if c.pool.size > 0 {
      SubsetSize(c.tried + {c.pool.index}, Slots(c.pool.size));
    }
  }

  lemma {:induction false} ServeEffort(w: World, c: Call)
    requires CallValid(c)
    ensures Attempts(Serve(w, c).pool.log) <= Attempts(c.pool.log) + AttemptsLeft(c)
    ensures SleepTime(Serve(w, c).pool.log) <= SleepTime(c.pool.log) + SleepLeft(c.passes)
    decreases c.passes, if c.pool.size > 0 then Unvisited(c) + 1 else 0
  {
    if c.pool.available {
      AttemptEffort(w, c);
    } else {
      NoClientEffort(w, c);
    }
    if Turn(w, c).Again? {
      TurnProgress(w, c);
      ServeEffort(w, Turn(w, c).call);
    }
  }

  /** Whatever the providers answer, a call ends after at most one attempt per slot and pass,
      and sleeps at most 20 + 40 seconds. */
  lemma {:induction false} GenerateEffort(w: World, p: Pool)
    requires Valid(p)
    ensures
      var r := GenerateOnce(w, p);
      && Attempts(r.pool.log) <= Attempts(p.log) + (1 + MAX_BACKOFF_PASSES) * p.size
      && SleepTime(r.pool.log) <= SleepTime(p.log) + 20 + 40
  {
    EnterValid(w, p);
    FailoverEffort(w, p, {}, true);
    var c := Enter(w, p);
    ServeEffort(w, c);
    assert SleepLeft(0) == 0 && SleepLeft(1) == 40 && SleepLeft(2) == 60;
    assert Rounds(0, p.size) == 0 && Rounds(1, p.size) == p.size && Rounds(2, p.size) == 2 * p.size;
    if p.size > 0 {
      SubsetSize({c.pool.index}, c.tried + {c.pool.index});
    }
  }

  /* ------------------------------------------------------------------ dead-slot discipline */

  /** Since `from`, a provider was called on a dead slot only when every slot was dead. */
  ghost predicate Disciplined(log: seq<Event>, from: nat, n: nat) {
    forall k :: from <= k < |log| && log[k].Attempted? && log[k].slot in log[k].dead ==> Slots(n) <= log[k].dead
  }

  /** Event `e` benches slot `s`: its client did not come up, or its provider refused it
      for good. */
  predicate Benches(e: Event, s: nat) {
    || e == Activated(s, false)
    || (e.Attempted? && e.slot == s && e.outcome.Failed? && Permanent(e.outcome.reason))
  }

  ghost predicate Benched(log: seq<Event>, from: nat, s: nat) {
    exists k :: from <= k < |log| && Benches(log[k], s)
  }

  /** What has happened between `p0` and `p`, with no revival in between. */
  ghost predicate Kept(p0: Pool, p: Pool) {
    && Valid(p) && p.size == p0.size
    && p0.log <= p.log
    && p0.dead <= p.dead
    && Disciplined(p.log, |p0.log|, p.size)
    && forall d :: d in p.dead && d !in p0.dead ==> Excused(p0, p, d)
  }

  /** Slot `d` may count as dead: it was benched since `p0`, or the pool already stood on it
      without a client. */
  ghost predicate Excused(p0: Pool, p: Pool, d: nat) {
    Benched(p.log, |p0.log|, d) || (d == p0.index && !p0.available)
  }

  lemma {:induction false} KeptAppend(p0: Pool, p: Pool, q: Pool, e: Event)
    requires Kept(p0, p) && Valid(q) && q.size == p.size && q.dead == p.dead
    requires q.log == p.log + [e]
    requires e.Attempted? && e.slot in e.dead ==> Slots(p.size) <= e.dead
    ensures Kept(p0, q)
    ensures forall d :: Excused(p0, p, d) ==> Excused(p0, q, d)
    ensures forall d :: Benches(e, d) ==> Excused(p0, q, d)
  {
    forall d | Benches(e, d) ensures Excused(p0, q, d) {
      assert Benches(q.log[|p.log|], d);
    }
    forall d | Benched(p.log, |p0.log|, d) ensures Benched(q.log, |p0.log|, d) {
      var k :| |p0.log| <= k < |p.log| && Benches(p.log[k], d);
      assert Benches(q.log[k], d);
    }
    forall k | |p0.log| <= k < |q.log| && q.log[k].Attempted? && q.log[k].slot in q.log[k].dead
      ensures Slots(p.size) <= q.log[k].dead
    {
      assert k < |p.log| ==> q.log[k] == p.log[k];
    }
  }

  lemma {:induction false} KeptMark(p0: Pool, p: Pool)
    requires Kept(p0, p) && (p.index in p.dead || Excused(p0, p, p.index))
    ensures Kept(p0, MarkDead(p))
  {
    var q := MarkDead(p);
    forall d | d in q.dead && d !in p0.dead ensures Excused(p0, q, d) {
      assert Excused(p0, p, d);
    }
  }

  /** A slot whose client does not come up is excused, whether or not it is marked dead. */
  lemma {:induction false} DownKept(w: World, p0: Pool, p: Pool, slot: nat, permanent: bool)
    requires Kept(p0, p) && slot < p.size && !w.activates(|p.log|, slot)
    ensures
      var q := Activate(w, p, slot);
      var q' := if permanent then MarkDead(q) else q;
      Kept(p0, q') && Excused(p0, q', slot)
  {
    var q := Activate(w, p, slot);
    KeptAppend(p0, p, q, Activated(slot, false));
    assert Benches(Activated(slot, false), slot);
    if permanent {
      KeptMark(p0, q);
    }
  }

  /** One step of a scan, without what it means for the pool. */
  lemma {:induction false} ScanStep(w: World, p: Pool, tried: set<nat>, step: nat, permanent: bool)
    requires p.size > 0 && Valid(p) && step <= p.size
    ensures
      var nxt := Ahead(p, step);
      var q := Activate(w, p, nxt);
      Scan(w, p, tried, step, permanent) ==
      if nxt in tried || nxt in p.dead then Scan(w, p, tried, step + 1, permanent)
      else if q.available then Shift(q, tried, true)
      else Scan(w, if permanent then MarkDead(q) else q, tried + {nxt}, step + 1, permanent)
  {
  }

  lemma {:induction false} ScanKept(w: World, p0: Pool, p: Pool, tried: set<nat>, step: nat, permanent: bool)
    requires Kept(p0, p) && p.size > 0
    ensures var s := Scan(w, p, tried, step, permanent);
            && Kept(p0, s.pool)
            && (s.pool == p || s.pool.available || Excused(p0, s.pool, s.pool.index))
    decreases p.size + 1 - step
  {
    if step <= p.size {
      ScanStep(w, p, tried, step, permanent);
      var nxt := Ahead(p, step);
      if nxt in tried || nxt in p.dead {
        ScanKept(w, p0, p, tried, step + 1, permanent);
      } else if w.activates(|p.log|, nxt) {
        KeptAppend(p0, p, Activate(w, p, nxt), Activated(nxt, true));
      } else {
        DownKept(w, p0, p, nxt, permanent);
        var q := Activate(w, p, nxt);
        ScanKept(w, p0, if permanent then MarkDead(q) else q, tried + {nxt}, step + 1, permanent);
      }
    }
  }

  lemma {:induction false} FailoverKept(w: World, p0: Pool, p: Pool, tried: set<nat>, permanent: bool)
    requires Kept(p0, p)
    requires permanent ==> p.index in p.dead || Excused(p0, p, p.index)
    requires !p.available ==> Excused(p0, p, p.index)
    ensures var s := Failover(w, p, tried, permanent);
            && Kept(p0, s.pool)
            && (!s.pool.available ==> Excused(p0, s.pool, s.pool.index))
  {
    var q := if permanent then MarkDead(p) else p;
    if permanent {
      KeptMark(p0, p);
    }
    assert !q.available ==> Excused(p0, q, q.index);
    if p.size > 0 {
      ScanKept(w, p0, q, tried + {q.index}, 1, permanent);
    }
  }

  /** A scan that never moved has looked at every slot ahead of it. */
  lemma {:induction false} ScanLooked(w: World, p: Pool, tried: set<nat>, step: nat, permanent: bool)
    requires p.size > 0 && Valid(p)
    requires Scan(w, p, tried, step, permanent).pool == p
    ensures forall k :: step <= k <= p.size ==> Ahead(p, k) in tried + p.dead
    decreases p.size + 1 - step
  {
    if step <= p.size {
      var nxt := Ahead(p, step);
      if nxt in tried || nxt in p.dead {
        ScanLooked(w, p, tried, step + 1, permanent);
      } else {
        var q := Activate(w, p, nxt);
        if !q.available {
          ScanEffort(w, if permanent then MarkDead(q) else q, tried + {nxt}, step + 1, permanent);
        }
        assert false;
      }
    }
  }

  /** Going around the ring from any slot meets every slot. */
  lemma {:induction false} RingCovers(p: Pool, s: nat) returns (k: nat)
    requires Valid(p) && s < p.size
    ensures 1 <= k <= p.size && Ahead(p, k) == s
  {
    k := if s > p.index then s - p.index else s + p.size - p.index;
  }

  lemma {:induction false} ScanLookedEverywhere(w: World, p: Pool, tried: set<nat>, permanent: bool)
    requires p.size > 0 && Valid(p)
    requires Scan(w, p, tried, 1, permanent).pool == p
    ensures Slots(p.size) <= tried + p.dead
  {
    ScanLooked(w, p, tried, 1, permanent);
    forall s | s in Slots(p.size) ensures s in tried + p.dead {
      var k := RingCovers(p, s);
    }
  }

  /** Where a call stands between two rounds, relative to its start `p0`. */
  ghost predicate Sound(p0: Pool, p: Pool) {
    && Kept(p0, p)
    && (p.available && p.index in p.dead ==> Slots(p.size) <= p.dead)
    && (!p.available ==> Excused(p0, p, p.index))
  }

  lemma {:induction false} EnterSound(w: World, p: Pool)
    requires Valid(p)
    ensures Sound(p, Enter(w, p).pool)
  {
    if p.index in p.dead || !p.available {
      FailoverKept(w, p, p, {}, true);
      if p.size > 0 {
        FailoverShaped(w, p, {}, true);
        var s := Failover(w, p, {}, true);
        if s.pool.available && !s.moved {
          assert {} + {p.index} == {p.index};
          ScanLookedEverywhere(w, MarkDead(p), {p.index}, true);
        }
      }
    }
  }

  /** What a finished call leaves behind. */
  ghost predicate Settled(p0: Pool, p: Pool) {
    Kept(p0, p) && (!p.available ==> Excused(p0, p, p.index))
  }

  ghost predicate NextSound(p0: Pool, n: Next) {
    match n
    case Done(r) => Settled(p0, r.pool)
    case Again(c) => Sound(p0, c.pool)
  }

  lemma {:induction false} AttemptSound(w: World, p0: Pool, c: Call)
    requires CallValid(c) && Sound(p0, c.pool) && c.pool.available
    ensures NextSound(p0, Turn(w, c))
  {
    var (o, p) := Attempt(w, c.pool);
    var e := Attempted(c.pool.index, c.pool.dead, o);
    KeptAppend(p0, c.pool, p, e);
    if o.Failed? {
      if Permanent(o.reason) {
        assert Benches(e, p.index);
      }
      FailoverKept(w, p0, p, c.tried, Permanent(o.reason));
      FailoverShaped(w, p, c.tried, Permanent(o.reason));
      var s := Failover(w, p, c.tried, Permanent(o.reason));
      if !s.moved && Turn(w, c).Again? {
        KeptAppend(p0, s.pool, Turn(w, c).call.pool, Slept(BACKOFF_SECONDS * (MAX_BACKOFF_PASSES - c.passes + 1)));
      }
    }
  }

  lemma {:induction false} NoClientSound(w: World, p0: Pool, c: Call)
    requires CallValid(c) && Sound(p0, c.pool) && !c.pool.available
    ensures NextSound(p0, Turn(w, c))
  {
    FailoverKept(w, p0, c.pool, c.tried, true);
    if c.pool.size > 0 {
      FailoverShaped(w, c.pool, c.tried, true);
      var s := Failover(w, c.pool, c.tried, true);
      if !s.moved {
        FailoverKept(w, p0, s.pool, s.tried, true);
        FailoverShaped(w, s.pool, s.tried, true);
      }
    }
  }

  lemma {:induction false} ServeSettled(w: World, p0: Pool, c: Call)
    requires CallValid(c) && Sound(p0, c.pool)
    ensures Settled(p0, Serve(w, c).pool)
    decreases c.passes, if c.pool.size > 0 then Unvisited(c) + 1 else 0
  {
    if c.pool.available {
      AttemptSound(w, p0, c);
    } else {
      NoClientSound(w, p0, c);
    }
    if Turn(w, c).Again? {
      TurnProgress(w, c);
      ServeSettled(w, p0, Turn(w, c).call);
    }
  }

  /** One call: providers are called on dead slots only when all slots are dead, no slot is
      revived, and a slot is killed only if its client did not come up or its provider
      refused it for good. A slot that comes up and fails only by rate limit, transport or an
      empty answer is therefore never killed. */
  lemma {:induction false} GenerateDiscipline(w: World, p: Pool)
    requires Valid(p)
    ensures Settled(p, GenerateOnce(w, p).pool)
  {
    EnterValid(w, p);
    EnterSound(w, p);
    ServeSettled(w, p, Enter(w, p));
  }

  /* ------------------------------------------------------------------ whole sessions */

  /** What the owner of a client may do with it, in any order and number. */
  datatype Op = CallOnce | ReviveAll

  function RunSession(w: World, p: Pool, ops: seq<Op>): Pool
    requires Valid(p)
    decreases |ops|
  {
    if ops == [] then p
    else
      ServeValid(w, p);
      RunSession(w, if ops[0].CallOnce? then GenerateOnce(w, p).pool else Revive(w, p), ops[1..])
  }

  /** Like `Settled`, but slots may have been revived in between. */
  ghost predicate Lawful(p0: Pool, p: Pool) {
    && Valid(p) && p.size == p0.size
    && p0.log <= p.log
    && Disciplined(p.log, |p0.log|, p.size)
    && (forall d :: d in p.dead ==> d in p0.dead || Excused(p0, p, d))
    && (!p.available ==> Excused(p0, p, p.index))
  }

  lemma {:induction false} LawfulTrans(p0: Pool, p1: Pool, p2: Pool)
    requires Lawful(p0, p1) && Lawful(p1, p2)
    ensures Lawful(p0, p2)
  {
    forall d | Excused(p0, p1, d) ensures Excused(p0, p2, d) {
      if Benched(p1.log, |p0.log|, d) {
        var k :| |p0.log| <= k < |p1.log| && Benches(p1.log[k], d);
        assert Benches(p2.log[k], d);
      }
    }
    forall d | Excused(p1, p2, d) ensures Excused(p0, p2, d) {
      if Benched(p2.log, |p1.log|, d) {
        var k :| |p1.log| <= k < |p2.log| && Benches(p2.log[k], d);
        assert Benches(p2.log[k], d);
      } else {
        assert Excused(p0, p1, d);
      }
    }
    forall k | |p0.log| <= k < |p2.log| && p2.log[k].Attempted? && p2.log[k].slot in p2.log[k].dead
      ensures Slots(p2.size) <= p2.log[k].dead
    {
      assert k < |p1.log| ==> p2.log[k] == p1.log[k];
    }
  }

  lemma {:induction false} ReviveLawful(w: World, p: Pool)
    requires Valid(p)
    ensures Lawful(p, Revive(w, p))
  {
    var q := Revive(w, p);
    if p.size > 0 && !q.available {
      assert Benches(q.log[|p.log|], 0);
    }
  }

  lemma {:induction false} SessionLawful(w: World, p: Pool, ops: seq<Op>)
    requires Valid(p)
    ensures Lawful(p, RunSession(w, p, ops))
    decreases |ops|
  {
    if ops == [] {
    } else {
      ServeValid(w, p);
      var q := if ops[0].CallOnce? then GenerateOnce(w, p).pool else Revive(w, p);
      if ops[0].CallOnce? {
        GenerateDiscipline(w, p);
      } else {
        ReviveLawful(w, p);
      }
      SessionLawful(w, q, ops[1..]);
      LawfulTrans(p, q, RunSession(w, q, ops[1..]));
    }
  }

  /** The pool right after the last revival of a session; the first pool when there is none. */
  function LastRevived(w: World, p: Pool, ops: seq<Op>): Pool
    requires Valid(p)
    decreases |ops|
  {
    if ops == [] then p
    else
      ServeValid(w, p);
      var q := if ops[0].CallOnce? then GenerateOnce(w, p).pool else Revive(w, p);
      if ReviveAll in ops[1..] then LastRevived(w, q, ops[1..]) else if ops[0].ReviveAll? then q else p
  }

  /** Over any session of calls and revivals: a provider is called on a dead slot only when
      all slots are dead, and every slot that ends up dead was benched by a failed activation
      or a permanent refusal since the last revival, which left none dead. */
  lemma {:induction false} SessionDiscipline(w: World, p: Pool, ops: seq<Op>)
    requires Valid(p)
    ensures
      var p1, p2 := LastRevived(w, p, ops), RunSession(w, p, ops);
      && Lawful(p, p2) && Lawful(p1, p2)
      && if ReviveAll in ops then p1.dead == {} else p1 == p
    decreases |ops|
  {
    SessionLawful(w, p, ops);
    if ops == [] {
    } else {
      ServeValid(w, p);
      var q := if ops[0].CallOnce? then GenerateOnce(w, p).pool else Revive(w, p);
      if ReviveAll in ops[1..] {
        SessionDiscipline(w, q, ops[1..]);
      } else if ops[0].ReviveAll? {
        SessionLawful(w, q, ops[1..]);
      } else {
        assert ReviveAll !in ops;
      }
    }
  }

  /** Only a revival brings a dead slot back. */
  lemma {:induction false} DeadGrowsUntilRevival(w: World, p: Pool, ops: seq<Op>)
    requires Valid(p) && ReviveAll !in ops
    ensures p.dead <= RunSession(w, p, ops).dead
    decreases |ops|
  {
    if ops == [] {
    } else {
      ServeValid(w, p);
      GenerateDiscipline(w, p);
      var q := GenerateOnce(w, p).pool;
      assert ops[0].CallOnce?;
      DeadGrowsUntilRevival(w, q, ops[1..]);
      assert RunSession(w, p, ops) == RunSession(w, q, ops[1..]);
    }
  }

  lemma {:induction false} ReviveEffort(w: World, p: Pool)
    requires Valid(p)
    ensures
      var q := Revive(w, p);
      Valid(q) && q.size == p.size && Attempts(q.log) == Attempts(p.log) && SleepTime(q.log) == SleepTime(p.log)
  {
    if p.size > 0 {
      LogStep(p.log, Activated(0, Revive(w, p).available), 0);
    }
  }

  lemma {:induction false} GenerateOnPause(w: World, p: Pool, pauses: seq<Pause>)
    requires Valid(p)
    ensures
      var r := GenerateOnce(w, p);
      Generate(w, p, pauses).0 ==
        if r.verdict.Exhausted? && pauses != [] && pauses[0].Continue? && Valid(Revive(w, r.pool))
        then Generate(w, Revive(w, r.pool), pauses[1..]).0 else r.pool
  {
    ServeValid(w, p);
  }

  /** A call with human pauses makes at most three rounds of attempts, and sleeps at most a
      minute, per pause answered. */
  lemma {:induction false} PausedEffort(w: World, p: Pool, pauses: seq<Pause>)
    requires Valid(p)
    ensures
      var q := Generate(w, p, pauses).0;
      && Attempts(q.log) <= Attempts(p.log) + Rounds(|pauses| + 1, 3 * p.size)
      && SleepTime(q.log) <= SleepTime(p.log) + 60 * (|pauses| + 1)
    decreases |pauses|
  {
    GenerateEffort(w, p);
    ServeValid(w, p);
    GenerateOnPause(w, p, pauses);
    var r := GenerateOnce(w, p);
    if r.verdict.Exhausted? && pauses != [] && pauses[0].Continue? {
      ReviveEffort(w, r.pool);
      PausedEffort(w, Revive(w, r.pool), pauses[1..]);
    }
  }

  /* ------------------------------------------------------------------ completeness */

  /** Every client of the pool comes up. */
  ghost predicate AlwaysUp(w: World, n: nat) {
    forall t: nat, s: nat :: s < n ==> w.activates(t, s)
  }

  lemma {:induction false} ScanUp(w: World, p: Pool, tried: set<nat>, step: nat, permanent: bool)
    requires AlwaysUp(w, p.size) && p.size > 0 && Valid(p)
    ensures
      var s := Scan(w, p, tried, step, permanent);
      && s.tried == tried && s.pool.dead == p.dead && s.pool.size == p.size
      && (s.moved ==> s.pool.available && s.pool.log == p.log + [Activated(s.pool.index, true)])
      && (!s.moved ==> s.pool == p)
    decreases p.size + 1 - step
  {
    if step <= p.size {
      var nxt := Ahead(p, step);
      if nxt in tried || nxt in p.dead {
        ScanUp(w, p, tried, step + 1, permanent);
      }
    }
  }

  /** Between two rounds, every slot tried or newly dead was attempted in this round, and
      nothing new is dead while only rate limits were seen. */
  ghost predicate Accounted(p0: Pool, c: Call) {
    && CallValid(c) && c.pool.size == p0.size && c.pool.available
    && |p0.log| <= |c.pool.log|
    && c.tried <= p0.dead + LastRound(c.pool.log, |p0.log|)
    && c.pool.dead <= p0.dead + LastRound(c.pool.log, |p0.log|)
    && (c.onlyRetryable ==> c.pool.dead <= p0.dead)
  }

  ghost predicate AllAttempted(p0: Pool, p: Pool) {
    forall s :: s in Slots(p0.size) && s !in p0.dead ==> s in LastRound(p.log, |p0.log|)
  }

  /** The rotation of a round with every client up: it moves on, or every slot has been visited. */
  lemma {:induction false} FailoverUp(w: World, p: Pool, tried: set<nat>, permanent: bool)
    requires AlwaysUp(w, p.size) && p.size > 0 && Valid(p)
    ensures
      var q, s := if permanent then MarkDead(p) else p, Failover(w, p, tried, permanent);
      && s.tried == tried + {p.index} && s.pool.dead == q.dead && s.pool.size == p.size
      && (s.moved ==> s.pool.available && s.pool.log == p.log + [Activated(s.pool.index, true)])
      && (!s.moved ==> s.pool == q && Slots(p.size) <= s.tried + q.dead)
  {
    var q := if permanent then MarkDead(p) else p;
    ScanUp(w, q, tried + {q.index}, 1, permanent);
    if !Failover(w, p, tried, permanent).moved {
      ScanLookedEverywhere(w, q, tried + {q.index}, permanent);
    }
  }

  /** A round whose rotation moved on. */
  lemma {:induction false} MovedAccounted(w: World, p0: Pool, c: Call)
    requires AlwaysUp(w, p0.size) && Accounted(p0, c)
    requires var (o, p) := Attempt(w, c.pool);
             o.Failed? && Failover(w, p, c.tried, Permanent(o.reason)).moved
    ensures Turn(w, c).Again? && Accounted(p0, Turn(w, c).call)
  {
    TurnProgress(w, c);
    var (o, p) := Attempt(w, c.pool);
    LogStep(c.pool.log, Attempted(c.pool.index, c.pool.dead, o), |p0.log|);
    FailoverUp(w, p, c.tried, Permanent(o.reason));
    LogStep(p.log, Activated(Failover(w, p, c.tried, Permanent(o.reason)).pool.index, true), |p0.log|);
  }

  /** A round whose rotation found no slot left. */
  lemma {:induction false} StuckAccounted(w: World, p0: Pool, c: Call)
    requires AlwaysUp(w, p0.size) && Accounted(p0, c)
    requires var (o, p) := Attempt(w, c.pool);
             o.Failed? && !Failover(w, p, c.tried, Permanent(o.reason)).moved
    ensures match Turn(w, c)
            case Again(c') => Accounted(p0, c')
            case Done(r) => r.verdict.Exhausted? && AllAttempted(p0, r.pool)
  {
    TurnProgress(w, c);
    var (o, p) := Attempt(w, c.pool);
    LogStep(c.pool.log, Attempted(c.pool.index, c.pool.dead, o), |p0.log|);
    FailoverUp(w, p, c.tried, Permanent(o.reason));
    if Turn(w, c).Again? {
      LogStep(p.log, Slept(BACKOFF_SECONDS * (MAX_BACKOFF_PASSES - c.passes + 1)), |p0.log|);
    }
  }

  lemma {:induction false} TurnAccounted(w: World, p0: Pool, c: Call)
    requires AlwaysUp(w, p0.size) && Accounted(p0, c)
    ensures match Turn(w, c)
            case Again(c') => Accounted(p0, c')
            case Done(r) => !r.verdict.Blank? && (r.verdict.Exhausted? ==> AllAttempted(p0, r.pool))
  {
    var (o, p) := Attempt(w, c.pool);
    if o.Failed? {
      if Failover(w, p, c.tried, Permanent(o.reason)).moved {
        MovedAccounted(w, p0, c);
      } else {
        StuckAccounted(w, p0, c);
      }
    }
  }

  lemma {:induction false} ServeComplete(w: World, p0: Pool, c: Call)
    requires AlwaysUp(w, p0.size) && Accounted(p0, c)
    ensures !Serve(w, c).verdict.Blank?
    ensures Serve(w, c).verdict.Exhausted? ==> AllAttempted(p0, Serve(w, c).pool)
    decreases c.passes, if c.pool.size > 0 then Unvisited(c) + 1 else 0
  {
    TurnAccounted(w, p0, c);
    if Turn(w, c).Again? {
      TurnProgress(w, c);
      ServeComplete(w, p0, Turn(w, c).call);
    }
  }

  lemma {:induction false} EnterAccounted(w: World, p: Pool)
    requires Valid(p) && AlwaysUp(w, p.size) && p.available
    ensures Accounted(p, Enter(w, p))
  {
    EnterValid(w, p);
    if p.index in p.dead {
      ScanUp(w, MarkDead(p), {} + {p.index}, 1, true);
      var s := Failover(w, p, {}, true);
      if s.moved {
        LogStep(p.log, Activated(s.pool.index, true), |p.log|);
      }
    }
  }

  /** If every client comes up, "slots exhausted" is reported only after every slot that was
      not dead on entry has been attempted in the last round. */
  lemma {:induction false} PoolCompleteness(w: World, p: Pool)
    requires Valid(p) && p.available && AlwaysUp(w, p.size)
    ensures GenerateOnce(w, p).verdict.Exhausted? ==> AllAttempted(p, GenerateOnce(w, p).pool)
    ensures !GenerateOnce(w, p).verdict.Blank?
  {
    EnterAccounted(w, p);
    ServeComplete(w, p, Enter(w, p));
  }

  /** Since `from`, every attempt failed, with the outcome the world gave it. */
  ghost predicate Refused(w: World, log: seq<Event>, from: nat) {
    forall k :: from <= k < |log| && log[k].Attempted? ==>
      log[k].outcome.Failed? && log[k].outcome == w.answers(k, log[k].slot)
  }

  lemma {:induction false} ScanRefused(w: World, p: Pool, tried: set<nat>, step: nat, permanent: bool, from: nat)
    requires p.size > 0 && Valid(p) && Refused(w, p.log, from)
    ensures Refused(w, Scan(w, p, tried, step, permanent).pool.log, from)
    decreases p.size + 1 - step
  {
    if step <= p.size {
      var nxt := Ahead(p, step);
      if nxt in tried || nxt in p.dead {
        ScanRefused(w, p, tried, step + 1, permanent, from);
      } else {
        var q := Activate(w, p, nxt);
        if !q.available {
          ScanRefused(w, if permanent then MarkDead(q) else q, tried + {nxt}, step + 1, permanent, from);
        }
      }
    }
  }

  lemma {:induction false} FailoverRefused(w: World, p: Pool, tried: set<nat>, permanent: bool, from: nat)
    requires Valid(p) && Refused(w, p.log, from)
    ensures Refused(w, Failover(w, p, tried, permanent).pool.log, from)
  {
    if p.size > 0 {
      var q := if permanent then MarkDead(p) else p;
      ScanRefused(w, q, tried + {q.index}, 1, permanent, from);
    }
  }

  lemma {:induction false} TurnRefused(w: World, c: Call, from: nat)
    requires CallValid(c) && Refused(w, c.pool.log, from)
    ensures match Turn(w, c)
            case Again(c') => Refused(w, c'.pool.log, from)
            case Done(r) => r.verdict.Text? || Refused(w, r.pool.log, from)
  {
    if c.pool.available {
      var (o, p) := Attempt(w, c.pool);
      if o.Failed? {
        assert Refused(w, p.log, from);
        FailoverRefused(w, p, c.tried, Permanent(o.reason), from);
      }
    } else {
      FailoverRefused(w, c.pool, c.tried, true, from);
      var s := Failover(w, c.pool, c.tried, true);
      FailoverRefused(w, s.pool, s.tried, true, from);
    }
  }

  lemma {:induction false} ServeRefused(w: World, c: Call, from: nat)
    requires CallValid(c) && Refused(w, c.pool.log, from)
    ensures Serve(w, c).verdict.Text? || Refused(w, Serve(w, c).pool.log, from)
    decreases c.passes, if c.pool.size > 0 then Unvisited(c) + 1 else 0
  {
    TurnRefused(w, c, from);
    if Turn(w, c).Again? {
      TurnProgress(w, c);
      ServeRefused(w, Turn(w, c).call, from);
    }
  }

  lemma {:induction false} RoundWitness(log: seq<Event>, from: nat, s: nat) returns (k: nat)
    requires s in LastRound(log, from)
    ensures from <= k < |log| && log[k].Attempted? && log[k].slot == s
  {
    k := |log| - 1;
    if !(log[k].Attempted? && log[k].slot == s) {
      k := RoundWitness(log[..k], from, s);
    }
  }

  /** A key that would answer is never missed: if every client comes up and one slot that is
      not dead always answers, the call returns text, whatever the other slots do. */
  lemma {:induction false} HealthyKeyFound(w: World, p: Pool, s: nat)
    requires Valid(p) && p.available && AlwaysUp(w, p.size)
    requires s in Slots(p.size) && s !in p.dead
    requires forall t :: w.answers(t, s).Answer?
    ensures GenerateOnce(w, p).verdict.Text?
  {
    PoolCompleteness(w, p);
    EnterValid(w, p);
    FailoverRefused(w, p, {}, true, |p.log|);
    ServeRefused(w, Enter(w, p), |p.log|);
    var r := GenerateOnce(w, p);
    if r.verdict.Exhausted? {
      var _ := RoundWitness(r.pool.log, |p.log|, s);
    }
  }

  /** After a credits pause is answered with Continue, a healthy key is found even if it was
      dead before. */
  lemma {:induction false} ContinueRecovers(w: World, p: Pool, s: nat, pauses: seq<Pause>)
    requires Valid(p) && AlwaysUp(w, p.size) && s in Slots(p.size)
    requires forall t :: w.answers(t, s).Answer?
    requires pauses != [] && pauses[0].Continue?
    ensures Generate(w, p, pauses).1.Returned?
  {
    ServeValid(w, p);
    var r := GenerateOnce(w, p);
    if r.verdict.Exhausted? {
      HealthyKeyFound(w, Revive(w, r.pool), s);
    }
  }

  /* ------------------------------------------------------------------ limits of the rotation */

  /** A world in which each slot either always or never comes up. */
  ghost function Static(ok: nat -> bool): World {
    World((t: nat, s: nat) => ok(s), (t: nat, s: nat) => Answer("text"))
  }

  /** "Tries every slot before giving up": from this state, the rotation moves unless no
      other slot that is neither tried nor dead would come up. */
  ghost predicate Thorough(ok: nat -> bool, p: Pool, tried: set<nat>, permanent: bool)
    requires Valid(p)
  {
    || Failover(Static(ok), p, tried, permanent).moved
    || forall s :: s in Slots(p.size) && s != p.index && s !in tried && s !in p.dead ==> !ok(s)
  }

  lemma {:induction false} ThoroughWhenAllUp(ok: nat -> bool, p: Pool, tried: set<nat>, permanent: bool)
    requires Valid(p) && forall s :: s in Slots(p.size) ==> ok(s)
    ensures Thorough(ok, p, tried, permanent)
  {
    if p.size > 0 {
      var q := if permanent then MarkDead(p) else p;
      ScanUpHere(ok, q, tried + {q.index}, 1, permanent);
      if !Failover(Static(ok), p, tried, permanent).moved {
        ScanLookedEverywhere(Static(ok), q, tried + {q.index}, permanent);
      }
    }
  }

  lemma {:induction false} ScanUpHere(ok: nat -> bool, p: Pool, tried: set<nat>, step: nat, permanent: bool)
    requires p.size > 0 && Valid(p) && forall s :: s in Slots(p.size) ==> ok(s)
    ensures var s := Scan(Static(ok), p, tried, step, permanent); !s.moved ==> s.pool == p
    decreases p.size + 1 - step
  {
    if step <= p.size {
      var nxt := Ahead(p, step);
      if nxt in tried || nxt in p.dead {
        ScanUpHere(ok, p, tried, step + 1, permanent);
      }
    }
  }

  lemma {:induction false} ThoroughWhenSmall(ok: nat -> bool, p: Pool, tried: set<nat>, permanent: bool)
    requires Valid(p) && p.size <= 2
    ensures Thorough(ok, p, tried, permanent)
  {
    forall s | s in Slots(p.size) && s != p.index && s !in tried && s !in p.dead && ok(s)
      ensures Failover(Static(ok), p, tried, permanent).moved
    {
      var q := if permanent then MarkDead(p) else p;
      NextOfTwo(q, s);
      StepMoves(ok, q, tried + {q.index}, 1, permanent);
    }
  }

  lemma {:induction false} NextOfTwo(p: Pool, s: nat)
    requires Valid(p) && s < p.size <= 2 && s != p.index
    ensures Ahead(p, 1) == s
  {
  }

  lemma {:induction false} StepMoves(ok: nat -> bool, p: Pool, tried: set<nat>, step: nat, permanent: bool)
    requires Valid(p) && 0 < p.size && step <= p.size
    requires Ahead(p, step) !in tried && Ahead(p, step) !in p.dead && ok(Ahead(p, step))
    ensures Scan(Static(ok), p, tried, step, permanent).moved
  {
  }

  /** The slot after `u` on a ring of `n`. */
  function After(u: nat, n: nat): nat {
    if u + 1 < n then u + 1 else 0
  }

  /** On a ring with slots that come up and slots that do not, some slot that does follows
      one that does not. */
  lemma {:induction false} EdgeExists(ok: nat -> bool, n: nat, down: nat, up: nat) returns (u: nat)
    requires down < n && !ok(down) && up < n && ok(up)
    ensures u < n && !ok(u) && ok(After(u, n))
    decreases if up > down then up - down else up + n - down
  {
    var next := After(down, n);
    if ok(next) {
      u := down;
    } else {
      u := EdgeExists(ok, n, next, up);
    }
  }

  /** The failing family: from the slot before `u`, with only `u` and its successor left, the
      scan moves to `u`, finds it down, and then steps over the successor. */
  lemma {:induction false} SkipsSuccessor(ok: nat -> bool, n: nat, u: nat) returns (p: Pool, tried: set<nat>)
    requires n >= 3 && u < n && !ok(u) && ok(After(u, n))
    ensures Valid(p) && p.size == n && !Thorough(ok, p, tried, false)
  {
    var i := if u == 0 then n - 1 else u - 1;
    p := Pool(n, i, {}, true, []);
    var v := After(u, n);
    tried := Slots(n) - {u, v};
    var q := Activate(Static(ok), p, u);
    var tried' := tried + {i} + {u};
    forall k | 2 <= k <= n ensures Ahead(q, k) in tried' {
    }
    ScanBlocked(Static(ok), q, tried', 2, false);
    StepOver(ok, p, tried + {i}, u);
  }

  lemma {:induction false} StepOver(ok: nat -> bool, p: Pool, tried: set<nat>, u: nat)
    requires Valid(p) && 0 < p.size && Ahead(p, 1) == u && u !in tried && u !in p.dead && !ok(u)
    ensures Scan(Static(ok), p, tried, 1, false) == Scan(Static(ok), Activate(Static(ok), p, u), tried + {u}, 2, false)
  {
  }

  lemma {:induction false} ScanBlocked(w: World, p: Pool, tried: set<nat>, step: nat, permanent: bool)
    requires p.size > 0 && Valid(p)
    requires forall k :: step <= k <= p.size ==> Ahead(p, k) in tried || Ahead(p, k) in p.dead
    ensures Scan(w, p, tried, step, permanent) == Shift(p, tried, false)
    decreases p.size + 1 - step
  {
    if step <= p.size {
      ScanBlocked(w, p, tried, step + 1, permanent);
    }
  }

  /** The docstring's promise holds from every state exactly when the pool has at most two
      slots, or all clients come up, or none does. */
  lemma {:induction false} RotationThoroughIff(ok: nat -> bool, n: nat)
    ensures (forall p, tried, permanent :: Valid(p) && p.size == n ==> Thorough(ok, p, tried, permanent))
       <==> n <= 2 || (forall s :: s in Slots(n) ==> ok(s)) || (forall s :: s in Slots(n) ==> !ok(s))
  {
    if n <= 2 {
      forall p, tried, permanent | Valid(p) && p.size == n ensures Thorough(ok, p, tried, permanent) {
        ThoroughWhenSmall(ok, p, tried, permanent);
      }
    } else if forall s :: s in Slots(n) ==> ok(s) {
      forall p, tried, permanent | Valid(p) && p.size == n ensures Thorough(ok, p, tried, permanent) {
        ThoroughWhenAllUp(ok, p, tried, permanent);
      }
    } else if exists s :: s in Slots(n) && ok(s) {
      var up :| up in Slots(n) && ok(up);
      var down :| down in Slots(n) && !ok(down);
      var u := EdgeExists(ok, n, down, up);
      var p, tried := SkipsSuccessor(ok, n, u);
    }
  }

  /** A whole call that gives up without trying a slot that would have answered: three slots,
      the first out of credits, the second not coming up. */
  lemma {:induction false} CallMissesHealthySlot()
    ensures
      var w := World((t, s) => s != 1, (t, s) => if s == 0 then Failed(Credits) else Answer("text"));
      var r := GenerateOnce(w, Pool(3, 0, {}, true, []));
      r.verdict.Exhausted? && 2 !in r.pool.dead && 2 !in LastRound(r.pool.log, 0)
  {
    var w := World((t, s) => s != 1, (t, s) => if s == 0 then Failed(Credits) else Answer("text"));
    var p := Pool(3, 0, {}, true, []);
    var c := Enter(w, p);
    assert c == Call(p, {}, 2, true);
    var (o, p1) := Attempt(w, p);
    var q := MarkDead(p1);
    assert Ahead(q, 1) == 1;
    var q1 := MarkDead(Activate(w, q, 1));
    assert Ahead(q1, 2) == 0 && Ahead(q1, 3) == 1;
    assert Scan(w, q1, {0} + {1}, 4, true) == Shift(q1, {0} + {1}, false);
    assert Scan(w, q1, {0} + {1}, 3, true) == Shift(q1, {0} + {1}, false);
    assert Scan(w, q1, {0} + {1}, 2, true) == Shift(q1, {0} + {1}, false);
    assert {} + {0} == {0};
    assert Failover(w, p1, {}, true) == Shift(q1, {0} + {1}, false);
    assert Turn(w, c) == Done(Result(q1, Exhausted));
    LogStep([], Attempted(0, {}, o), 0);
    LogStep([Attempted(0, {}, o)], Activated(1, false), 0);
    assert q1.log == [Attempted(0, {}, o)] + [Activated(1, false)];
  }
}
