/** The LLM key pool: rotation over key slots with a persistent set of dead slots, a per-call
    set of tried slots, staged backoff, and a final "slots exhausted" error.

    Whether a slot activates and how a provider answers is decided by an adversary, a `World`,
    which may depend on the slot and on everything that has happened so far (the position in
    the event log). The pure functions below are the specification; class `LLMClient` in
    module `LlmClient` is the imperative client, proved to compute exactly them. */
module KeyPool {

  const BACKOFF_SECONDS: nat := 20
  const MAX_BACKOFF_PASSES: nat := 2

  /** Why a slot could not serve a call. `OtherReason` stands for the free-text reasons
      (an `http_NNN` status or a scrubbed provider message). */
  datatype Failure = Credits | DeadKey | GenerateFailed | Retryable | Transport | EmptyResponse | OtherReason

  datatype Outcome = Answer(text: string) | Failed(reason: Failure)

  /** The failures that bench a key for the rest of the run. */
  predicate Permanent(f: Failure) {
    f.Credits? || f.DeadKey? || f.GenerateFailed?
  }

  datatype World = World(activates: (nat, nat) -> bool, answers: (nat, nat) -> Outcome)

  datatype Event =
    | Attempted(slot: nat, dead: set<nat>, outcome: Outcome)
    | Activated(slot: nat, ok: bool)
    | Slept(seconds: nat)

  datatype Pool = Pool(size: nat, index: nat, dead: set<nat>, available: bool, log: seq<Event>)

  /** `available` means that the client of slot `index` is up, so it needs a slot. */
  predicate Valid(p: Pool) {
    && (p.size > 0 ==> p.index < p.size)
    && (p.available ==> p.size > 0)
  }

  /** The slot numbers of a pool of `n` slots. */
  function Slots(n: nat): (s: set<nat>)
    ensures forall i: nat :: i in s <==> i < n
    ensures |s| == n
  {
    if n == 0 then {} else Slots(n - 1) + {n - 1}
  }

  /* ------------------------------------------------------------------ the rotation */

  function MarkDead(p: Pool): Pool {
    p.(dead := p.dead + {p.index})
  }

  function Activate(w: World, p: Pool, slot: nat): Pool {
    var ok := w.activates(|p.log|, slot);
    p.(index := slot, available := ok, log := p.log + [Activated(slot, ok)])
  }

  datatype Shift = Shift(pool: Pool, tried: set<nat>, moved: bool)

  /** The slot `step` places after the current one: `(index + step) % size`. */
  function Ahead(p: Pool, step: nat): (slot: nat)
    requires p.size > 0 && Valid(p) && step <= p.size
    ensures slot < p.size
  {
    if p.index + step < p.size then p.index + step else p.index + step - p.size
  }

  lemma {:induction false} AheadIsRemainder(p: Pool, step: nat)
    requires p.size > 0 && Valid(p) && step <= p.size
    ensures (p.index + step) % p.size == Ahead(p, step)
  {
    if p.index + step < p.size {
      RemainderBelow(p.index + step, p.size);
    } else {
      RemainderOnce(p.index + step, p.size);
    }
  }

  lemma {:induction false} RemainderBelow(x: nat, n: nat)
    requires x < n
    ensures x % n == x
  {
  }

  lemma {:induction false} RemainderOnce(x: nat, n: nat)
    requires 0 < n <= x < 2 * n
    ensures x % n == x - n
  {
    assert x / n == 1;
  }

  /** The `for step in range(1, n + 1)` loop of the rotation, from `step` on. The next slot
      is computed from the current index, which the loop itself moves. */
  function Scan(w: World, p: Pool, tried: set<nat>, step: nat, permanent: bool): (s: Shift)
    requires p.size > 0 && Valid(p)
    ensures Valid(s.pool) && s.pool.size == p.size
    decreases p.size + 1 - step
  {
    if step > p.size then Shift(p, tried, false)
    else
      var nxt := Ahead(p, step);
      if nxt in tried || nxt in p.dead then Scan(w, p, tried, step + 1, permanent)
      else
        var q := Activate(w, p, nxt);
        if q.available then Shift(q, tried, true)
        else Scan(w, if permanent then MarkDead(q) else q, tried + {nxt}, step + 1, permanent)
  }

  function Failover(w: World, p: Pool, tried: set<nat>, permanent: bool): (s: Shift)
    requires Valid(p)
    ensures Valid(s.pool) && s.pool.size == p.size
  {
    var q := if permanent then MarkDead(p) else p;
    if q.size == 0 then Shift(q, tried, false)
    else Scan(w, q, tried + {q.index}, 1, permanent)
  }

  /* ------------------------------------------------------------------ one call */

  /** The locals of one call between two rounds of its main loop. */
  datatype Call = Call(pool: Pool, tried: set<nat>, passes: nat, onlyRetryable: bool)

  datatype Verdict = Text(text: string) | Blank | Exhausted

  datatype Result = Result(pool: Pool, verdict: Verdict)

  datatype Next = Again(call: Call) | Done(result: Result)

  /** The entry check: leave a slot that is dead or has no client. */
  function Enter(w: World, p: Pool): Call
    requires Valid(p)
  {
    if p.index in p.dead || !p.available then
      var s := Failover(w, p, {}, true);
      Call(s.pool, s.tried, MAX_BACKOFF_PASSES, true)
    else
      Call(p, {}, MAX_BACKOFF_PASSES, true)
  }

  function Attempt(w: World, p: Pool): (Outcome, Pool) {
    var o := w.answers(|p.log|, p.index);
    (o, p.(log := p.log + [Attempted(p.index, p.dead, o)]))
  }

  function Backoff(p: Pool, passes: nat): Pool
    requires passes <= MAX_BACKOFF_PASSES
  {
    p.(log := p.log + [Slept(BACKOFF_SECONDS * (MAX_BACKOFF_PASSES - passes + 1))])
  }

  /** One round of the main loop. */
  function Turn(w: World, c: Call): Next
    requires Valid(c.pool) && c.passes <= MAX_BACKOFF_PASSES
  {
    if c.pool.available then
      var (o, p) := Attempt(w, c.pool);
      match o
      case Answer(text) => Done(Result(p, Text(text)))
      case Failed(reason) =>
        var only := c.onlyRetryable && reason.Retryable?;
        var s := Failover(w, p, c.tried, Permanent(reason));
        if s.moved then Again(Call(s.pool, s.tried, c.passes, only))
        else if only && c.passes > 0 && s.pool.size > 0 then
          Again(Call(Backoff(s.pool, c.passes), {}, c.passes - 1, only))
        else Done(Result(s.pool, if s.pool.size > 0 then Exhausted else Blank))
    else
      var s := Failover(w, c.pool, c.tried, true);
      if s.moved then Again(Call(s.pool, s.tried, c.passes, c.onlyRetryable))
      else if s.pool.size == 0 then Done(Result(s.pool, Blank))
      else
        // The exhaustion error is raised inside the try block, and the handler for it
        // rotates once more before it gives up.
        var s' := Failover(w, s.pool, s.tried, true);
        if s'.moved then Again(Call(s'.pool, s'.tried, c.passes, c.onlyRetryable))
        else Done(Result(s'.pool, Exhausted))
  }

  predicate CallValid(c: Call) {
    && Valid(c.pool)
    && c.passes <= MAX_BACKOFF_PASSES
    && (c.pool.size > 0 ==> c.tried <= Slots(c.pool.size))
  }

  /** Slots this round has not yet visited: with the backoff passes left, the measure that
      makes a call end whatever the adversary does. */
  function Unvisited(c: Call): int {
    c.pool.size - |c.tried + {c.pool.index}|
  }

  function Serve(w: World, c: Call): Result
    requires CallValid(c)
    decreases c.passes, if c.pool.size > 0 then Unvisited(c) + 1 else 0
  {
    match Turn(w, c)
    case Done(r) => r
    case Again(c') =>
      TurnProgress(w, c);
      Serve(w, c')
  }

  lemma {:induction false} ServeTurn(w: World, c: Call)
    requires CallValid(c)
    ensures Turn(w, c).Done? ==> Serve(w, c) == Turn(w, c).result
    ensures Turn(w, c).Again? ==> CallValid(Turn(w, c).call) && Serve(w, c) == Serve(w, Turn(w, c).call)
  {
    TurnProgress(w, c);
  }

  function GenerateOnce(w: World, p: Pool): Result
    requires Valid(p)
  {
    EnterValid(w, p);
    Serve(w, Enter(w, p))
  }

  /* ------------------------------------------------------------------ facts about rotation */

  lemma {:induction false} SubsetSize(a: set<nat>, b: set<nat>)
    requires a <= b
    ensures |a| <= |b|
  {
    assert b == a + (b - a);
  }

  /** What a rotation may do to the pool, from step `step` on. */
  ghost predicate ScanShape(p: Pool, tried: set<nat>, s: Shift) {
    && Valid(s.pool) && s.pool.size == p.size
    && p.dead <= s.pool.dead
    && tried <= s.tried
    && (forall x :: x in s.tried ==> x in tried || x < p.size)
    && (s.moved ==> s.pool.available && s.pool.index !in s.tried && s.pool.index !in s.pool.dead)
    && (!s.moved ==> s.pool == p || !s.pool.available)
  }

  lemma {:induction false} ScanGrows(w: World, p: Pool, tried: set<nat>, step: nat, permanent: bool)
    requires p.size > 0 && Valid(p)
    ensures
      var s := Scan(w, p, tried, step, permanent);
      && p.dead <= s.pool.dead && tried <= s.tried
      && (forall x :: x in s.tried ==> x in tried || x < p.size)
    decreases p.size + 1 - step
  {
    if step <= p.size {
      var nxt := Ahead(p, step);
      if nxt in tried || nxt in p.dead {
        ScanGrows(w, p, tried, step + 1, permanent);
      } else {
        var q := Activate(w, p, nxt);
        if !q.available {
          ScanGrows(w, if permanent then MarkDead(q) else q, tried + {nxt}, step + 1, permanent);
        }
      }
    }
  }

  lemma {:induction false} ScanLands(w: World, p: Pool, tried: set<nat>, step: nat, permanent: bool)
    requires p.size > 0 && Valid(p)
    ensures
      var s := Scan(w, p, tried, step, permanent);
      if s.moved then s.pool.available && s.pool.index !in s.tried && s.pool.index !in s.pool.dead
      else s.pool == p || !s.pool.available
    decreases p.size + 1 - step
  {
    if step <= p.size {
      var nxt := Ahead(p, step);
      if nxt in tried || nxt in p.dead {
        ScanLands(w, p, tried, step + 1, permanent);
      } else {
        var q := Activate(w, p, nxt);
        if !q.available {
          ScanLands(w, if permanent then MarkDead(q) else q, tried + {nxt}, step + 1, permanent);
        }
      }
    }
  }

  lemma {:induction false} ScanShaped(w: World, p: Pool, tried: set<nat>, step: nat, permanent: bool)
    requires p.size > 0 && Valid(p)
    ensures ScanShape(p, tried, Scan(w, p, tried, step, permanent))
  {
    ScanGrows(w, p, tried, step, permanent);
    ScanLands(w, p, tried, step, permanent);
  }

  lemma {:induction false} FailoverShaped(w: World, p: Pool, tried: set<nat>, permanent: bool)
    requires Valid(p) && p.size > 0
    ensures ScanShape(if permanent then MarkDead(p) else p, tried + {p.index}, Failover(w, p, tried, permanent))
  {
    ScanShaped(w, if permanent then MarkDead(p) else p, tried + {p.index}, 1, permanent);
  }

  lemma {:induction false} EnterValid(w: World, p: Pool)
    requires Valid(p)
    ensures CallValid(Enter(w, p)) && Enter(w, p).pool.size == p.size
  {
    if p.size > 0 {
      FailoverShaped(w, p, {}, true);
    }
  }

  ghost predicate Progress(c: Call, c': Call) {
    && CallValid(c') && c'.pool.size == c.pool.size > 0
    && 0 <= Unvisited(c')
    && (c'.passes < c.passes || (c'.passes == c.passes && Unvisited(c') < Unvisited(c)))
  }

  lemma {:induction false} TurnProgress(w: World, c: Call)
    requires CallValid(c)
    ensures Turn(w, c).Done? ==> Valid(Turn(w, c).result.pool) && Turn(w, c).result.pool.size == c.pool.size
    ensures Turn(w, c).Again? ==> Progress(c, Turn(w, c).call)
  {
    if c.pool.size > 0 {
      if c.pool.available {
        AttemptProgress(w, c);
      } else {
        NoClientProgress(w, c);
      }
    }
  }

  lemma {:induction false} AttemptProgress(w: World, c: Call)
    requires CallValid(c) && c.pool.size > 0 && c.pool.available
    ensures Turn(w, c).Done? ==> Valid(Turn(w, c).result.pool) && Turn(w, c).result.pool.size == c.pool.size
    ensures Turn(w, c).Again? ==> Progress(c, Turn(w, c).call)
  {
    var (o, p) := Attempt(w, c.pool);
    if o.Failed? {
      FailoverShaped(w, p, c.tried, Permanent(o.reason));
      var s := Failover(w, p, c.tried, Permanent(o.reason));
      if s.moved {
        VisitedGrows(c, s);
      } else {
        assert {} + {s.pool.index} == {s.pool.index};
      }
    }
  }

  lemma {:induction false} NoClientProgress(w: World, c: Call)
    requires CallValid(c) && c.pool.size > 0 && !c.pool.available
    ensures Turn(w, c).Done? ==> Valid(Turn(w, c).result.pool) && Turn(w, c).result.pool.size == c.pool.size
    ensures Turn(w, c).Again? ==> Progress(c, Turn(w, c).call)
  {
    FailoverShaped(w, c.pool, c.tried, true);
    var s := Failover(w, c.pool, c.tried, true);
    if s.moved {
      VisitedGrows(c, s);
    } else {
      FailoverShaped(w, s.pool, s.tried, true);
      var s' := Failover(w, s.pool, s.tried, true);
      if s'.moved {
        VisitedGrows(c, s');
      }
    }
  }

  /** A successful rotation has visited strictly more slots. */
  lemma {:induction false} VisitedGrows(c: Call, s: Shift)
    requires CallValid(c) && c.pool.size > 0 && Valid(s.pool) && s.pool.size == c.pool.size
    requires c.tried + {c.pool.index} <= s.tried <= Slots(c.pool.size)
    requires s.pool.index !in s.tried
    ensures 1 + |c.tried + {c.pool.index}| <= |s.tried + {s.pool.index}| <= c.pool.size
  {
    SubsetSize(c.tried + {c.pool.index}, s.tried);
    SubsetSize(s.tried + {s.pool.index}, Slots(c.pool.size));
  }

  /* ------------------------------------------------------------------ pauses and revival */

  /** Forget every dead slot and go back to the first one. */
  function Revive(w: World, p: Pool): Pool {
    var q := p.(dead := {});
    if q.size == 0 then q else Activate(w, q, 0)
  }

  /** The human's answer to a credits pause. */
  datatype Pause = Cancel | Rebind | Continue

  /** How `generate` ends. `Waiting` means that the run is parked at a pause nobody has
      answered yet. */
  datatype Reply = Returned(text: string) | Raised | HandedOver | Waiting

  /** The outer loop: every exhaustion becomes a pause, and Continue starts over with a
      revived pool. */
  function Generate(w: World, p: Pool, pauses: seq<Pause>): (Pool, Reply)
    requires Valid(p)
    decreases |pauses|
  {
    ServeValid(w, p);
    var r := GenerateOnce(w, p);
    match r.verdict
    case Text(text) => (r.pool, Returned(text))
    case Blank => (r.pool, Returned(""))
    case Exhausted =>
      if pauses == [] then (r.pool, Waiting)
      else match pauses[0]
        case Cancel => (r.pool, Raised)
        case Rebind => (r.pool, HandedOver)
        case Continue => Generate(w, Revive(w, r.pool), pauses[1..])
  }

  lemma {:induction false} ServeKeepsValid(w: World, c: Call)
    requires CallValid(c)
    ensures Valid(Serve(w, c).pool) && Serve(w, c).pool.size == c.pool.size
    decreases c.passes, if c.pool.size > 0 then Unvisited(c) + 1 else 0
  {
    TurnProgress(w, c);
    if Turn(w, c).Again? {
      ServeKeepsValid(w, Turn(w, c).call);
    }
  }

  lemma {:induction false} ServeValid(w: World, p: Pool)
    requires Valid(p)
    ensures Valid(GenerateOnce(w, p).pool) && GenerateOnce(w, p).pool.size == p.size
  {
    EnterValid(w, p);
    ServeKeepsValid(w, Enter(w, p));
  }
}
