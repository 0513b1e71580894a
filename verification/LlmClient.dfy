/** The client object itself: it rotates over its key slots by updating its own fields.
    Every method is proved to compute what module `KeyPool` specifies. The world `w` decides
    activations and provider answers. */
module LlmClient {
  import opened KeyPool

  datatype Slot = Slot(provider: string, apiKey: string)

  class LLMClient {
    var slots: seq<Slot>
    var slotIndex: nat
    var dead: set<nat>
    var available: bool
    var log: seq<Event>

    function State(): Pool
      reads this
    {
      Pool(|slots|, slotIndex, dead, available, log)
    }

    constructor (w: World, keys: seq<Slot>)
      ensures slots == keys && Valid(State())
      ensures State() == if keys == [] then Pool(0, 0, {}, false, [])
                         else KeyPool.Activate(w, Pool(|keys|, 0, {}, false, []), 0)
    {
      slots, slotIndex, dead, available, log := keys, 0, {}, false, [];
      new;
      if |slots| > 0 {
        Activate(w, 0);
      }
    }

    /** Switch to a slot; its client may or may not come up. */
    method Activate(w: World, slot: nat)
      requires slot < |slots|
      modifies this`slotIndex, this`available, this`log
      ensures State() == KeyPool.Activate(w, old(State()), slot)
    {
      slotIndex := slot;
      available := w.activates(|log|, slot);
      log := log + [Activated(slot, available)];
    }

    method Close()
      modifies this
      ensures State() == Pool(0, 0, {}, false, old(log))
    {
      slots, slotIndex, dead, available := [], 0, {}, false;
    }

    method Failover(w: World, tried: set<nat>, permanent: bool) returns (moved: bool, nowTried: set<nat>)
      requires Valid(State())
      modifies this`slotIndex, this`dead, this`available, this`log
      ensures Valid(State())
      ensures Shift(State(), nowTried, moved) == KeyPool.Failover(w, old(State()), tried, permanent)
    {
      if permanent {
        dead := dead + {slotIndex};
      }
      if |slots| == 0 {
        return false, tried;
      }
      nowTried := tried + {slotIndex};
      ghost var start, first := State(), nowTried;
      var step := 1;
      while step <= |slots|
        invariant Valid(State()) && State().size == start.size
        invariant Scan(w, State(), nowTried, step, permanent) == Scan(w, start, first, 1, permanent)
        decreases |slots| + 1 - step
      {
        var next := (slotIndex + step) % |slots|;
        AheadIsRemainder(State(), step);
        if next !in nowTried && next !in dead {
          Activate(w, next);
          if available {
            return true, nowTried;
          }
          if permanent {
            dead := dead + {slotIndex};
          }
          nowTried := nowTried + {next};
        }
        step := step + 1;
      }
      return false, nowTried;
    }

    /** The entry loop of a request: leave a slot that is dead or has no client. */
    method LeaveDeadSlot(w: World) returns (tried: set<nat>)
      requires Valid(State())
      modifies this`slotIndex, this`dead, this`available, this`log
      ensures Call(State(), tried, MAX_BACKOFF_PASSES, true) == Enter(w, old(State()))
    {
      tried := {};
      ghost var entering := true;
      while slotIndex in dead || !available
        invariant Valid(State())
        invariant entering ==> State() == old(State()) && tried == {}
        invariant !entering ==> Call(State(), tried, MAX_BACKOFF_PASSES, true) == Enter(w, old(State()))
        invariant !entering ==> available && slotIndex !in dead
        decreases entering
      {
        if |slots| > 0 {
          FailoverShaped(w, State(), tried, true);
        }
        var moved: bool;
        moved, tried := Failover(w, tried, true);
        entering := false;
        if !moved {
          break;
        }
      }
    }

    /** The body of the main loop after the slot's client failed. */
    method AfterFailure(w: World, failed: Failure, triedSoFar: set<nat>, passesLeft: nat, only: bool)
      returns (again: bool, verdict: Verdict, tried: set<nat>, passes: nat)
      requires Valid(State()) && passesLeft <= MAX_BACKOFF_PASSES
      modifies this`slotIndex, this`dead, this`available, this`log
      ensures
        var s := KeyPool.Failover(w, old(State()), triedSoFar, Permanent(failed));
        if s.moved then again && State() == s.pool && tried == s.tried && passes == passesLeft
        else if only && passesLeft > 0 && s.pool.size > 0 then
          again && State() == Backoff(s.pool, passesLeft) && tried == {} && passes == passesLeft - 1
        else !again && State() == s.pool && verdict == if s.pool.size > 0 then Exhausted else Blank
    {
      passes, verdict := passesLeft, Blank;
      again, tried := Failover(w, triedSoFar, Permanent(failed));
      if !again {
        if only && passes > 0 && |slots| > 0 {
          var pass := MAX_BACKOFF_PASSES - passes + 1;
          log := log + [Slept(BACKOFF_SECONDS * pass)];
          passes := passes - 1;
          tried := {};
          again := true;
        } else {
          verdict := if |slots| > 0 then Exhausted else Blank;
        }
      }
    }

    /** The body of the main loop when no client is up: rotate, and once more in the handler
        of the exhaustion error that the first rotation leads to. */
    method WithoutClient(w: World, triedSoFar: set<nat>) returns (again: bool, verdict: Verdict, tried: set<nat>)
      requires Valid(State())
      modifies this`slotIndex, this`dead, this`available, this`log
      ensures
        var s := KeyPool.Failover(w, old(State()), triedSoFar, true);
        if s.moved then again && State() == s.pool && tried == s.tried
        else if s.pool.size == 0 then !again && State() == s.pool && verdict == Blank
        else
          var s' := KeyPool.Failover(w, s.pool, s.tried, true);
          && again == s'.moved && State() == s'.pool && tried == s'.tried && verdict == Exhausted
    {
      verdict := Blank;
      again, tried := Failover(w, triedSoFar, true);
      if !again && |slots| > 0 {
        verdict := Exhausted;
        again, tried := Failover(w, tried, true);
      }
    }

    /** One round of the main loop. */
    method Round(w: World, triedSoFar: set<nat>, passesLeft: nat, onlySoFar: bool)
      returns (again: bool, verdict: Verdict, tried: set<nat>, passes: nat, only: bool)
      requires CallValid(Call(State(), triedSoFar, passesLeft, onlySoFar))
      modifies this`slotIndex, this`dead, this`available, this`log
      ensures
        Turn(w, old(Call(State(), triedSoFar, passesLeft, onlySoFar))) ==
        if again then Again(Call(State(), tried, passes, only)) else Done(Result(State(), verdict))
    {
      tried, passes, only, again := triedSoFar, passesLeft, onlySoFar, false;
      if available {
        var outcome := w.answers(|log|, slotIndex);
        log := log + [Attempted(slotIndex, dead, outcome)];
        if outcome.Answer? {
          verdict := Text(outcome.text);
        } else {
          only := only && outcome.reason.Retryable?;
          again, verdict, tried, passes := AfterFailure(w, outcome.reason, tried, passes, only);
        }
      } else {
        again, verdict, tried := WithoutClient(w, tried);
      }
    }

    /** One request: leave dead slots, then try, rotate, back off, and finally give up. */
    method GenerateOnce(w: World) returns (verdict: Verdict)
      requires Valid(State())
      modifies this`slotIndex, this`dead, this`available, this`log
      ensures Valid(State())
      ensures Result(State(), verdict) == KeyPool.GenerateOnce(w, old(State()))
    {
      ServeValid(w, State());
      EnterValid(w, State());
      var tried := LeaveDeadSlot(w);
      var onlyRetryable, passes, again := true, MAX_BACKOFF_PASSES, true;
      verdict := Blank;
      while again
        invariant again ==> CallValid(Call(State(), tried, passes, onlyRetryable))
        invariant again ==>
          Serve(w, Call(State(), tried, passes, onlyRetryable)) == KeyPool.GenerateOnce(w, old(State()))
        invariant !again ==> Result(State(), verdict) == KeyPool.GenerateOnce(w, old(State()))
        decreases again, passes, if |slots| > 0 then Unvisited(Call(State(), tried, passes, onlyRetryable)) + 1 else 0
      {
        ghost var call := Call(State(), tried, passes, onlyRetryable);
        TurnProgress(w, call);
        ServeTurn(w, call);
        again, verdict, tried, passes, onlyRetryable := Round(w, tried, passes, onlyRetryable);
      }
    }

    /** Let every dead slot be tried again, from the first one on. */
    method ReviveSlots(w: World)
      modifies this`slotIndex, this`dead, this`available, this`log
      ensures State() == Revive(w, old(State()))
    {
      dead := {};
      if |slots| > 0 {
        Activate(w, 0);
      }
    }

    /** Requests with credits pauses in between; `pauses` are the human's answers. */
    method Generate(w: World, pauses: seq<Pause>) returns (reply: Reply)
      requires Valid(State())
      modifies this`slotIndex, this`dead, this`available, this`log
      ensures Valid(State())
      ensures (State(), reply) == KeyPool.Generate(w, old(State()), pauses)
    {
      var i := 0;
      while true
        invariant 0 <= i <= |pauses| && Valid(State())
        invariant KeyPool.Generate(w, State(), pauses[i..]) == KeyPool.Generate(w, old(State()), pauses)
        decreases |pauses| - i
      {
        ServeValid(w, State());
        var verdict := GenerateOnce(w);
        if verdict.Text? {
          return Returned(verdict.text);
        }
        if verdict.Blank? {
          return Returned("");
        }
        if i == |pauses| {
          return Waiting;
        }
        if pauses[i].Cancel? {
          return Raised;
        }
        if pauses[i].Rebind? {
          return HandedOver;
        }
        ReviveSlots(w);
        i := i + 1;
      }
    }
  }
}
