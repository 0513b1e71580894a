/** Exactly which pools a whole call searches thoroughly: a call rotates on entry, in its main loop and
    once more in the exhaustion handler, and this decides which healthy slots it can miss. */
module KeyPoolCalls {
  import opened KeyPool
  import opened KeyPoolTheorems

  /** Slot `s` comes up whenever it is tried exactly if `ok[s]`. */
  ghost predicate Steady(w: World, ok: seq<bool>) {
    forall t: nat, s: nat :: s < |ok| ==> w.activates(t, s) == ok[s]
  }

  /** A pool that stands on a slot with a client exactly if that client comes up. */
  predicate Starts(p: Pool, ok: seq<bool>) {
    Valid(p) && p.size == |ok| && (p.size > 0 ==> p.available == ok[p.index])
  }

  /** A slot that would serve the call: not dead, its client comes up, its provider always answers. */
  ghost predicate Healthy(w: World, ok: seq<bool>, p: Pool, s: nat) {
    Steady(w, ok) && Starts(p, ok) && s < |ok| && ok[s] && s !in p.dead && forall t: nat :: w.answers(t, s).Answer?
  }

  predicate NoneUp(ok: seq<bool>) {
    forall s: nat :: s < |ok| ==> !ok[s]
  }

  predicate AllUp(ok: seq<bool>) {
    forall s: nat :: s < |ok| ==> ok[s]
  }

  predicate OnlyUp(ok: seq<bool>, s: nat) {
    s < |ok| && ok[s] && forall x: nat :: x < |ok| && x != s ==> !ok[x]
  }

  ghost predicate OneUp(ok: seq<bool>) {
    exists s: nat :: OnlyUp(ok, s)
  }

  /* ------------------------------------------------------------------ rings of at most seven slots */

  /** Which of the slots 1 to 6 places ahead are neither dead nor tried. */
  datatype Ring = Ring(b1: bool, b2: bool, b3: bool, b4: bool, b5: bool, b6: bool)

  const NOBODY := Ring(false, false, false, false, false, false)

  predicate At(r: Ring, j: int) {
    || (j == 1 && r.b1) || (j == 2 && r.b2) || (j == 3 && r.b3)
    || (j == 4 && r.b4) || (j == 5 && r.b5) || (j == 6 && r.b6)
  }

  ghost predicate Fits(r: Ring, n: nat) {
    forall j: nat :: At(r, j) ==> j < n
  }

  function Wrap(n: nat, j: nat): nat {
    if j < n then j else j - n
  }

  predicate Seen(n: nat, k: nat, r: Ring, j: nat) {
    j < n && At(r, Wrap(n, j + k))
  }

  /** Step `k` of a rotation over clients that do not come up: the pool moves to the slot `k` places ahead
      if that is still open, and is done with it. */
  function Tick(n: nat, k: nat, r: Ring): Ring {
    if At(r, k) then
      Ring(Seen(n, k, r, 1), Seen(n, k, r, 2), Seen(n, k, r, 3), Seen(n, k, r, 4), Seen(n, k, r, 5), Seen(n, k, r, 6))
    else r
  }

  function Sweep(n: nat, r: Ring): Ring {
    Tick(n, 6, Tick(n, 5, Tick(n, 4, Tick(n, 3, Tick(n, 2, Tick(n, 1, r))))))
  }

  /** No two open slots so placed that two more rotations could miss one. */
  predicate Near(r: Ring) {
    !r.b6 && !(r.b2 && (r.b4 || r.b5)) && !(r.b5 && (r.b3 || r.b4))
  }

  lemma {:induction false} FitsShort(r: Ring, n: nat)
    requires Fits(r, n)
    ensures (r.b1 ==> n > 1) && (r.b2 ==> n > 2) && (r.b3 ==> n > 3)
    ensures (r.b4 ==> n > 4) && (r.b5 ==> n > 5) && (r.b6 ==> n > 6)
  {
    assert r.b1 == At(r, 1) && r.b2 == At(r, 2) && r.b3 == At(r, 3);
    assert r.b4 == At(r, 4) && r.b5 == At(r, 5) && r.b6 == At(r, 6);
  }

  lemma {:induction false} SweepFits(n: nat, r: Ring)
    requires 1 <= n <= 7 && Fits(r, n)
    ensures Fits(Sweep(n, r), n)
  {
    TickFits(n, 1, r);
    var r2 := Tick(n, 2, Tick(n, 1, r));
    TickFits(n, 2, Tick(n, 1, r));
    TickFits(n, 3, r2);
    TickFits(n, 4, Tick(n, 3, r2));
    TickFits(n, 5, Tick(n, 4, Tick(n, 3, r2)));
    TickFits(n, 6, Tick(n, 5, Tick(n, 4, Tick(n, 3, r2))));
  }

  lemma {:induction false} TickFits(n: nat, k: nat, r: Ring)
    requires Fits(r, n)
    ensures Fits(Tick(n, k, r), n)
  {
    var t := Tick(n, k, r);
    if At(r, k) {
      forall j: nat | At(t, j) ensures j < n {
        assert Seen(n, k, r, j);
      }
    }
  }

  lemma {:induction false} SweepOfSevenNears(r: Ring)
    ensures Near(Sweep(7, r))
  {
  }

  lemma {:induction false} SweepNears(n: nat, r: Ring)
    requires 1 <= n <= 7 && Fits(r, n)
    ensures Near(Sweep(n, r))
  {
    FitsShort(r, n);
    if n == 7 {
      SweepOfSevenNears(r);
    } else if n == 6 {
    } else if n == 5 {
    } else if n == 4 {
    } else if n == 3 {
    }
  }

  lemma {:induction false} TwoSweepsOfNear(n: nat, r: Ring)
    requires 1 <= n <= 7 && Fits(r, n) && Near(r)
    ensures Sweep(n, Sweep(n, r)) == NOBODY
  {
    FitsShort(r, n);
    if n == 7 {
    } else if n == 6 {
    } else if n == 5 {
    } else if n == 4 {
    } else if n == 3 {
    }
  }

  /** On a ring of at most seven slots, three rotations visit every open slot. */
  lemma {:induction false} ThreeSweeps(n: nat, r: Ring)
    requires 1 <= n <= 7 && Fits(r, n)
    ensures Sweep(n, Sweep(n, Sweep(n, r))) == NOBODY
  {
    SweepNears(n, r);
    SweepFits(n, r);
    TwoSweepsOfNear(n, Sweep(n, r));
  }

  /* ------------------------------------------------------------------ a rotation walks the ring */

  ghost predicate Mirrors(p: Pool, r: Ring)
    requires Valid(p)
  {
    && Fits(r, p.size)
    && forall j: nat :: 1 <= j < p.size ==> (At(r, j) <==> Ahead(p, j) !in p.dead)
  }

  /** Still looking for slot `s`, the only one whose client comes up, with the ring ahead as in `r`. */
  ghost predicate Astray(w: World, ok: seq<bool>, s: nat, p: Pool, tried: set<nat>, r: Ring) {
    && Steady(w, ok) && OnlyUp(ok, s) && Valid(p) && p.size == |ok| <= 7
    && !p.available && p.index in p.dead && p.index != s && s !in p.dead
    && tried <= p.dead
    && Mirrors(p, r)
  }

  ghost predicate Landed(z: Shift, s: nat) {
    z.moved && z.pool.index == s && s !in z.pool.dead && z.pool.available
  }

  /** Two steps around the ring. */
  lemma {:induction false} AheadTwice(p: Pool, q: Pool, k: nat, j: nat)
    requires Valid(p) && Valid(q) && q.size == p.size && 1 <= k < p.size && 1 <= j < p.size
    requires q.index == Ahead(p, k)
    ensures Ahead(q, j) == if j + k == p.size then p.index else Ahead(p, Wrap(p.size, j + k))
    ensures Ahead(q, j) != q.index
  {
  }

  lemma {:induction false} TickAt(n: nat, k: nat, r: Ring, j: nat)
    requires At(r, k) && 2 <= n <= 7 && 1 <= j
    ensures At(Tick(n, k, r), j) <==> Seen(n, k, r, j)
  {
    assert !At(r, 0);
    assert j >= 7 ==> !Seen(n, k, r, j);
  }

  /** Hopping to an open slot `k` places ahead. */
  lemma {:induction false} HopMirrors(p: Pool, q: Pool, r: Ring, k: nat)
    requires Valid(p) && Valid(q) && q.size == p.size <= 7 && Mirrors(p, r) && 1 <= k < p.size && At(r, k)
    requires p.index in p.dead && q.index == Ahead(p, k) && q.dead == p.dead + {q.index}
    ensures Mirrors(q, Tick(p.size, k, r))
  {
    var n := p.size;
    forall j: nat | 1 <= j < n ensures At(Tick(n, k, r), j) <==> Ahead(q, j) !in q.dead {
      TickAt(n, k, r, j);
      AheadTwice(p, q, k, j);
      assert j + k != n ==> 1 <= Wrap(n, j + k) < n;
    }
    forall j: nat | At(Tick(n, k, r), j) ensures j < n {
      TickAt(n, k, r, j);
    }
  }

  lemma {:induction false} TickStep(w: World, ok: seq<bool>, s: nat, p: Pool, tried: set<nat>, r: Ring, k: nat)
    returns (p': Pool, tried': set<nat>)
    requires Astray(w, ok, s, p, tried, r) && k >= 1
    ensures
      || Landed(Scan(w, p, tried, k, true), s)
      || (Astray(w, ok, s, p', tried', Tick(p.size, k, r)) && p'.size == p.size
          && Scan(w, p, tried, k, true) == Scan(w, p', tried', k + 1, true))
  {
    p', tried' := p, tried;
    var n := p.size;
    if k < n {
      var nxt := Ahead(p, k);
      if nxt !in p.dead && nxt != s {
        var q := Activate(w, p, nxt);
        p', tried' := MarkDead(q), tried + {nxt};
        HopMirrors(p, p', r, k);
      }
    } else {
      assert !At(r, k);
    }
  }

  function TicksFrom(n: nat, k: nat, r: Ring): Ring
    decreases 7 - k
  {
    if k > 6 then r else TicksFrom(n, k + 1, Tick(n, k, r))
  }

  lemma {:induction false} ScanTicks(w: World, ok: seq<bool>, s: nat, p: Pool, tried: set<nat>, r: Ring, k: nat)
    requires Astray(w, ok, s, p, tried, r) && 1 <= k <= 7
    ensures
      var z := Scan(w, p, tried, k, true);
      Landed(z, s) || (!z.moved && Astray(w, ok, s, z.pool, z.tried, TicksFrom(p.size, k, r)))
    decreases 7 - k
  {
    if k == 7 {
      assert p.size == 7 ==> Ahead(p, 7) == p.index;
    } else {
      var p', tried' := TickStep(w, ok, s, p, tried, r, k);
      if !Landed(Scan(w, p, tried, k, true), s) {
        ScanTicks(w, ok, s, p', tried', Tick(p.size, k, r), k + 1);
      }
    }
  }

  lemma {:induction false} TicksMakeASweep(n: nat, r: Ring)
    ensures TicksFrom(n, 1, r) == Sweep(n, r)
  {
    var r1 := Tick(n, 1, r);
    var r2 := Tick(n, 2, r1);
    var r3 := Tick(n, 3, r2);
    var r4 := Tick(n, 4, r3);
    var r5 := Tick(n, 5, r4);
    assert TicksFrom(n, 5, r4) == TicksFrom(n, 6, r5) == Tick(n, 6, r5);
    assert TicksFrom(n, 3, r2) == TicksFrom(n, 4, r3) == TicksFrom(n, 5, r4);
  }

  /** A rotation lands on the slot that comes up, or sweeps the ring. */
  lemma {:induction false} FailoverSweeps(w: World, ok: seq<bool>, s: nat, p: Pool, tried: set<nat>, r: Ring)
    requires Astray(w, ok, s, p, tried, r)
    ensures
      var z := Failover(w, p, tried, true);
      Landed(z, s) || (!z.moved && Astray(w, ok, s, z.pool, z.tried, Sweep(p.size, r)))
  {
    assert MarkDead(p) == p;
    ScanTicks(w, ok, s, p, tried + {p.index}, r, 1);
    TicksMakeASweep(p.size, r);
  }

  /** The slot that comes up is somewhere ahead. */
  lemma {:induction false} GoalAhead(w: World, ok: seq<bool>, s: nat, p: Pool, tried: set<nat>, r: Ring)
    returns (j: nat)
    requires Astray(w, ok, s, p, tried, r)
    ensures At(r, j)
  {
    j := RingCovers(p, s);
    assert j < p.size;
  }

  lemma {:induction false} NobodyAstray(w: World, ok: seq<bool>, s: nat, p: Pool, tried: set<nat>)
    ensures !Astray(w, ok, s, p, tried, NOBODY)
  {
    if Astray(w, ok, s, p, tried, NOBODY) {
      var _ := GoalAhead(w, ok, s, p, tried, NOBODY);
    }
  }

  predicate Open(p: Pool, j: nat)
    requires Valid(p)
  {
    1 <= j < p.size && Ahead(p, j) !in p.dead
  }

  function RingOf(p: Pool): Ring
    requires Valid(p)
  {
    Ring(Open(p, 1), Open(p, 2), Open(p, 3), Open(p, 4), Open(p, 5), Open(p, 6))
  }

  /* ------------------------------------------------------------------ small pools with one slot up */

  ghost predicate Ready(w: World, c: Call, s: nat) {
    CallValid(c) && c.pool.available && c.pool.index == s && forall t: nat :: w.answers(t, s).Answer?
  }

  lemma {:induction false} ReadyAnswers(w: World, c: Call, s: nat)
    requires Ready(w, c, s)
    ensures Serve(w, c).verdict.Text?
  {
    ServeTurn(w, c);
  }

  /** The rotations of the main loop and of its exhaustion handler, from a slot without a client. */
  lemma {:induction false} LoopFinds(w: World, ok: seq<bool>, s: nat, c: Call, r: Ring)
    requires CallValid(c) && Astray(w, ok, s, c.pool, c.tried, r) && forall t: nat :: w.answers(t, s).Answer?
    requires Sweep(|ok|, Sweep(|ok|, r)) == NOBODY
    ensures Serve(w, c).verdict.Text?
  {
    ServeTurn(w, c);
    FailoverSweeps(w, ok, s, c.pool, c.tried, r);
    var z := Failover(w, c.pool, c.tried, true);
    if z.moved {
      ReadyAnswers(w, Turn(w, c).call, s);
    } else {
      FailoverSweeps(w, ok, s, z.pool, z.tried, Sweep(|ok|, r));
      var z' := Failover(w, z.pool, z.tried, true);
      NobodyAstray(w, ok, s, z'.pool, z'.tried);
      ReadyAnswers(w, Turn(w, c).call, s);
    }
  }

  lemma {:induction false} StartsAstray(w: World, ok: seq<bool>, p: Pool, s: nat)
    requires Healthy(w, ok, p, s) && OnlyUp(ok, s) && |ok| <= 7 && p.index != s
    ensures
      var q := MarkDead(p);
      Astray(w, ok, s, q, {}, RingOf(q)) && Failover(w, p, {}, true) == Failover(w, q, {}, true)
  {
    var q := MarkDead(p);
    assert MarkDead(q) == q;
    forall j: nat | 1 <= j < q.size ensures At(RingOf(q), j) <==> Ahead(q, j) !in q.dead {
      assert Open(q, j) <==> Ahead(q, j) !in q.dead;
    }
  }

  /** In a pool of at most seven slots, a call finds the only slot that comes up. */
  lemma {:induction false} LoneSlotFound(w: World, ok: seq<bool>, p: Pool, s: nat)
    requires Healthy(w, ok, p, s) && OnlyUp(ok, s) && |ok| <= 7
    ensures GenerateOnce(w, p).verdict.Text?
  {
    EnterValid(w, p);
    var c := Enter(w, p);
    if p.index == s {
      ReadyAnswers(w, c, s);
    } else {
      var q, r := MarkDead(p), RingOf(MarkDead(p));
      StartsAstray(w, ok, p, s);
      FailoverSweeps(w, ok, s, q, {}, r);
      ThreeSweeps(|ok|, r);
      if c.pool.available {
        ReadyAnswers(w, c, s);
      } else {
        LoopFinds(w, ok, s, c, Sweep(|ok|, r));
      }
    }
  }

  /* ------------------------------------------------------------------ how a call misses a slot */

  /** Up to the first open slot the rotation moves nowhere; it goes on from there. */
  lemma {:induction false} HopScan(w: World, p: Pool, tried: set<nat>, step: nat, k: nat)
    requires Valid(p) && 1 <= step <= k < p.size
    requires forall j :: step <= j < k ==> Ahead(p, j) in tried || Ahead(p, j) in p.dead
    requires Ahead(p, k) !in tried && Ahead(p, k) !in p.dead && !w.activates(|p.log|, Ahead(p, k))
    ensures
      var q := MarkDead(Activate(w, p, Ahead(p, k)));
      Scan(w, p, tried, step, true) == Scan(w, q, tried + {Ahead(p, k)}, k + 1, true)
    decreases k - step
  {
    if step < k {
      HopScan(w, p, tried, step + 1, k);
    }
  }

  /** The pool stands on a dead slot; the slots not dead are those `offs` places ahead. */
  ghost predicate Facing(p: Pool, tried: set<nat>, offs: set<nat>) {
    && Valid(p) && p.size > 0 && p.index in p.dead
    && tried <= p.dead
    && forall j: nat :: j in offs <==> 1 <= j < p.size && Ahead(p, j) !in p.dead
  }

  /** The slot `g` places ahead is the only one that comes up. */
  ghost predicate GoalAt(w: World, ok: seq<bool>, p: Pool, g: nat) {
    Valid(p) && p.size == |ok| && 1 <= g < p.size && Steady(w, ok) && OnlyUp(ok, Ahead(p, g))
  }

  /** The open slots seen from the slot `k` places ahead on a ring of `n`, once that one is done with. */
  ghost predicate Turned(n: nat, offs: set<nat>, k: nat, rest: set<nat>) {
    forall j: nat :: j in rest <==> 1 <= j < n && j + k != n && Wrap(n, j + k) in offs
  }

  lemma {:induction false} HopFaces(p: Pool, q: Pool, tried: set<nat>, offs: set<nat>, k: nat, rest: set<nat>)
    requires Facing(p, tried, offs) && k in offs && Turned(p.size, offs, k, rest)
    requires Valid(q) && q.size == p.size && q.index == Ahead(p, k)
    requires q.dead == p.dead + {q.index}
    ensures Facing(q, tried + {q.index}, rest)
  {
    forall j: nat | 1 <= j < q.size ensures j in rest <==> Ahead(q, j) !in q.dead {
      AheadTwice(p, q, k, j);
    }
  }

  /** The next hop of a rotation that has reached step `step`, to a slot that does not come up. */
  lemma {:induction false} NextHop(w: World, p: Pool, tried: set<nat>, offs: set<nat>, step: nat, k: nat,
                                   rest: set<nat>) returns (q: Pool)
    requires Facing(p, tried, offs) && 1 <= step <= k && k in offs && !w.activates(|p.log|, Ahead(p, k))
    requires Turned(p.size, offs, k, rest) && forall j :: step <= j < k ==> j !in offs
    ensures q == MarkDead(Activate(w, p, Ahead(p, k))) && Facing(q, tried + {q.index}, rest)
    ensures Scan(w, p, tried, step, true) == Scan(w, q, tried + {q.index}, k + 1, true)
  {
    q := MarkDead(Activate(w, p, Ahead(p, k)));
    HopFaces(p, q, tried, offs, k, rest);
    HopScan(w, p, tried, step, k);
  }

  lemma {:induction false} GoalTurns(w: World, ok: seq<bool>, p: Pool, q: Pool, k: nat, g: nat)
    requires GoalAt(w, ok, p, g) && 1 <= k < p.size && k != g
    requires Valid(q) && q.size == p.size && q.index == Ahead(p, k)
    ensures !ok[Ahead(p, k)] && GoalAt(w, ok, q, if k < g then g - k else g + p.size - k)
  {
    assert Ahead(p, k) != Ahead(p, g);
    AheadTwice(p, q, k, if k < g then g - k else g + p.size - k);
  }

  /** The same with one slot that comes up, `g` places ahead. */
  lemma {:induction false} HopPastGoal(w: World, ok: seq<bool>, p: Pool, tried: set<nat>, offs: set<nat>, step: nat,
                                       k: nat, g: nat, rest: set<nat>) returns (q: Pool)
    requires Facing(p, tried, offs) && GoalAt(w, ok, p, g) && 1 <= step <= k && k != g && k in offs
    requires Turned(p.size, offs, k, rest) && forall j :: step <= j < k ==> j !in offs
    ensures Valid(q) && q.size == p.size && Facing(q, tried + {q.index}, rest) && !q.available
    ensures GoalAt(w, ok, q, if k < g then g - k else g + p.size - k)
    ensures Scan(w, p, tried, step, true) == Scan(w, q, tried + {q.index}, k + 1, true)
  {
    GoalTurns(w, ok, p, MarkDead(Activate(w, p, Ahead(p, k))), k, g);
    q := NextHop(w, p, tried, offs, step, k, rest);
  }

  /** The end of a rotation: the slots it has not passed over are dead. */
  lemma {:induction false} NoMoreHops(w: World, q: Pool, tried: set<nat>, offs: set<nat>, step: nat)
    requires Facing(q, tried, offs) && step >= 1 && forall j :: j in offs ==> j < step
    ensures Scan(w, q, tried, step, true) == Shift(q, tried, false)
  {
    forall j | step <= j <= q.size ensures Ahead(q, j) in q.dead {
      assert j < q.size ==> j !in offs;
    }
    ScanBlocked(w, q, tried, step, true);
  }

  lemma {:induction false} FailoverFacing(w: World, p: Pool, tried: set<nat>, offs: set<nat>)
    requires Facing(p, tried, offs)
    ensures Failover(w, p, tried, true) == Scan(w, p, tried + {p.index}, 1, true) && Facing(p, tried + {p.index}, offs)
  {
    assert MarkDead(p) == p;
  }

  /** A rotation that hops once and passes over the rest: from the slot it hopped to at step `k`, the slots
      at most `k` places ahead are not looked at. */
  lemma {:induction false} OneHop(w: World, ok: seq<bool>, p: Pool, tried: set<nat>, offs: set<nat>, k: nat, g: nat,
                                  rest: set<nat>) returns (z: Shift)
    requires Facing(p, tried, offs) && GoalAt(w, ok, p, g) && k in offs && k < g
    requires forall j :: j in offs ==> k <= j <= 2 * k
    requires Turned(p.size, offs, k, rest)
    ensures z == Failover(w, p, tried, true) && !z.moved
    ensures Facing(z.pool, z.tried, rest) && GoalAt(w, ok, z.pool, g - k)
    ensures z.pool.size == p.size && !z.pool.available
  {
    FailoverFacing(w, p, tried, offs);
    var q := HopPastGoal(w, ok, p, tried + {p.index}, offs, 1, k, g, rest);
    z := Shift(q, tried + {p.index} + {q.index}, false);
    NoMoreHops(w, q, z.tried, rest, k + 1);
  }

  /** A call gives up when its three rotations find no client. */
  lemma {:induction false} ThreeMisses(w: World, p: Pool, z: Shift, z': Shift, z'': Shift)
    requires Valid(p) && p.size > 0 && !p.available
    requires z == Failover(w, p, {}, true) && !z.moved && !z.pool.available
    requires z' == Failover(w, z.pool, z.tried, true) && !z'.moved
    requires z'' == Failover(w, z'.pool, z'.tried, true) && !z''.moved
    ensures GenerateOnce(w, p).verdict.Exhausted?
  {
    EnterValid(w, p);
    ServeTurn(w, Enter(w, p));
  }

  /** How far ahead of slot `i` slot `x` is on a ring of `n`. */
  function Distance(i: nat, x: nat, n: nat): nat
    requires i < n && x < n
  {
    if x >= i then x - i else x + n - i
  }

  lemma {:induction false} DistanceAhead(p: Pool, j: nat)
    requires Valid(p) && 1 <= j < p.size
    ensures Distance(p.index, Ahead(p, j), p.size) == j
  {
  }

  /** A pool that stands `g` places before slot `s`, with the slots `offs` places ahead open. */
  lemma {:induction false} Placed(n: nat, s: nat, g: nat, offs: set<nat>) returns (p: Pool)
    requires 1 <= g < n && s < n && g in offs && forall j :: j in offs ==> 1 <= j < n
    ensures Facing(p, {}, offs) && !p.available && p.size == n && Ahead(p, g) == s && s !in p.dead
  {
    var i := if g <= s then s - g else s + n - g;
    p := Pool(n, i, set x | x in Slots(n) && Distance(i, x, n) !in offs, false, []);
    forall j: nat | 1 <= j < n ensures j in offs <==> Ahead(p, j) !in p.dead {
      DistanceAhead(p, j);
    }
    assert Ahead(p, g) == s;
  }

  /** The world in which each client either always or never comes up, and each provider that is called
      refuses the key of slot `broke` and answers otherwise. */
  ghost function Settling(ok: seq<bool>, broke: nat): World {
    World((t: nat, s: nat) => s < |ok| && ok[s],
          (t: nat, s: nat) => if s == broke then Failed(Credits) else Answer("text"))
  }

  ghost predicate Missed(w: World, ok: seq<bool>, p: Pool, s: nat) {
    Healthy(w, ok, p, s) && GenerateOnce(w, p).verdict.Exhausted?
  }

  /** After a first rotation that missed, a second hop that leaves the next two slots open makes the call
      give up: the third rotation hops to the nearer one. */
  lemma {:induction false} TwoMoreMisses(w: World, ok: seq<bool>, p: Pool, z: Shift, offs: set<nat>, k: nat)
    requires Valid(p) && p.size > 0 && !p.available && z == Failover(w, p, {}, true) && !z.moved
    requires !z.pool.available && Facing(z.pool, z.tried, offs) && GoalAt(w, ok, z.pool, k + 2)
    requires k in offs && Turned(p.size, offs, k, {1, 2}) && z.pool.size == p.size >= 3
    requires forall j :: j in offs ==> k <= j <= 2 * k
    ensures GenerateOnce(w, p).verdict.Exhausted?
  {
    var z' := OneHop(w, ok, z.pool, z.tried, offs, k, k + 2, {1, 2});
    var z'' := OneHop(w, ok, z'.pool, z'.tried, {1, 2}, 1, 2, {1});
    ThreeMisses(w, p, z, z', z'');
  }

  /** Nine slots or more, one of them up: from eight places before it, with the slots 4, 6 and 7 places
      ahead open, the three rotations hop to these and miss it each time. */
  lemma {:induction false} LongRingMisses(ok: seq<bool>, s: nat) returns (w: World, p: Pool)
    requires OnlyUp(ok, s) && |ok| >= 9
    ensures Missed(w, ok, p, s)
  {
    w := Settling(ok, |ok|);
    p := Placed(|ok|, s, 8, {4, 6, 7, 8});
    var z := OneHop(w, ok, p, {}, {4, 6, 7, 8}, 4, 8, {2, 3, 4});
    TwoMoreMisses(w, ok, p, z, {2, 3, 4}, 2);
  }

  lemma {:induction false} EightRingTurns()
    ensures Turned(8, {1, 2, 4, 5, 6, 7}, 1, {1, 3, 4, 5, 6})
    ensures Turned(8, {1, 3, 4, 5, 6}, 3, {1, 2, 3, 6})
    ensures Turned(8, {1, 2, 3, 6}, 6, {3, 4, 5})
  {
  }

  /** The last two hops of the first rotation on eight slots. */
  lemma {:induction false} EightRingTail(w: World, ok: seq<bool>, p: Pool, tried: set<nat>) returns (z: Shift)
    requires Facing(p, tried, {1, 3, 4, 5, 6}) && GoalAt(w, ok, p, 6) && p.size == 8
    ensures z == Scan(w, p, tried, 2, true) && !z.moved && z.pool.size == 8 && !z.pool.available
    ensures Facing(z.pool, z.tried, {3, 4, 5}) && GoalAt(w, ok, z.pool, 5)
  {
    EightRingTurns();
    var q := HopPastGoal(w, ok, p, tried, {1, 3, 4, 5, 6}, 2, 3, 6, {1, 2, 3, 6});
    var q' := HopPastGoal(w, ok, q, tried + {q.index}, {1, 2, 3, 6}, 4, 6, 3, {3, 4, 5});
    z := Shift(q', tried + {q.index} + {q'.index}, false);
    NoMoreHops(w, q', z.tried, {3, 4, 5}, 7);
  }

  /** Eight slots, one of them up: from the slot after it, with all but the third place ahead open, the
      first rotation hops 1, 3 and 6 places. */
  lemma {:induction false} EightRingHops(w: World, ok: seq<bool>, p: Pool) returns (z: Shift)
    requires Facing(p, {}, {1, 2, 4, 5, 6, 7}) && GoalAt(w, ok, p, 7) && p.size == 8
    ensures z == Failover(w, p, {}, true) && !z.moved && z.pool.size == 8 && !z.pool.available
    ensures Facing(z.pool, z.tried, {3, 4, 5}) && GoalAt(w, ok, z.pool, 5)
  {
    EightRingTurns();
    FailoverFacing(w, p, {}, {1, 2, 4, 5, 6, 7});
    var q := HopPastGoal(w, ok, p, {} + {p.index}, {1, 2, 4, 5, 6, 7}, 1, 1, 7, {1, 3, 4, 5, 6});
    z := EightRingTail(w, ok, q, {} + {p.index} + {q.index});
  }

  lemma {:induction false} EightRingMisses(ok: seq<bool>, s: nat) returns (w: World, p: Pool)
    requires OnlyUp(ok, s) && |ok| == 8
    ensures Missed(w, ok, p, s)
  {
    w := Settling(ok, 8);
    p := Placed(8, s, 7, {1, 2, 4, 5, 6, 7});
    var z := EightRingHops(w, ok, p);
    TwoMoreMisses(w, ok, p, z, {3, 4, 5}, 3);
  }

  /* ------------------------------------------------------------------ two slots up, another down */

  /** Two slots come up and one does not: some slot that comes up follows one that does not, and another
      one comes up. */
  lemma {:induction false} EdgeAndAnother(ok: seq<bool>) returns (u: nat, a: nat)
    requires !NoneUp(ok) && !AllUp(ok) && !OneUp(ok)
    ensures u < |ok| && a < |ok| && !ok[u] && ok[After(u, |ok|)] && ok[a] && a != After(u, |ok|)
  {
    var up: nat :| up < |ok| && ok[up];
    var down: nat :| down < |ok| && !ok[down];
    u := EdgeExists((s: nat) => s < |ok| && ok[s], |ok|, down, up);
    assert !OnlyUp(ok, After(u, |ok|));
    a :| a < |ok| && ok[a] && a != After(u, |ok|);
  }

  /** A pool that stands on slot `a`, with only the down slot `u` and its successor open ahead. */
  ghost function BrokePool(n: nat, a: nat, u: nat): Pool {
    Pool(n, a, Slots(n) - {a, u, After(u, n)}, true, [])
  }

  lemma {:induction false} BrokeFacing(n: nat, a: nat, u: nat, q: Pool) returns (k: nat)
    requires a < n && u < n && a != u && a != After(u, n) && u != After(u, n)
    requires Valid(q) && q.size == n && q.index == a && q.dead == Slots(n) - {u, After(u, n)}
    ensures 1 <= k < n && Ahead(q, k) == u && Facing(q, {a}, {k, k + 1})
  {
    k := RingCovers(q, u);
    assert Ahead(q, k + 1) == After(u, n);
    assert k + 1 < n;
  }

  lemma {:induction false} LeapsOver(w: World, q: Pool, tried: set<nat>, k: nat)
    requires Facing(q, tried, {k, k + 1}) && k >= 1 && !w.activates(|q.log|, Ahead(q, k))
    ensures !Scan(w, q, tried, 1, true).moved
  {
    var z := NextHop(w, q, tried, {k, k + 1}, 1, k, {1});
    NoMoreHops(w, z, tried + {z.index}, {1}, k + 1);
  }

  lemma {:induction false} BrokeRotation(ok: seq<bool>, u: nat, a: nat)
    requires u < |ok| && a < |ok| && !ok[u] && ok[After(u, |ok|)] && ok[a] && a != After(u, |ok|)
    ensures
      var w, p := Settling(ok, a), BrokePool(|ok|, a, u);
      Valid(p) && !Failover(w, Attempt(w, p).1, {}, true).moved
  {
    var n, w := |ok|, Settling(ok, a);
    var q := MarkDead(Attempt(w, BrokePool(n, a, u)).1);
    assert q.dead == Slots(n) - {u, After(u, n)};
    var k := BrokeFacing(n, a, u, q);
    LeapsOver(w, q, {a}, k);
    assert {} + {a} == {a};
  }

  /** The call starts on a slot that comes up but is out of credits: the rotation hops to the slot that
      does not come up and steps over its successor. */
  lemma {:induction false} BrokeSlotMisses(ok: seq<bool>) returns (w: World, p: Pool, s: nat)
    requires !NoneUp(ok) && !AllUp(ok) && !OneUp(ok)
    ensures Missed(w, ok, p, s)
  {
    var u, a := EdgeAndAnother(ok);
    w, p, s := Settling(ok, a), BrokePool(|ok|, a, u), After(u, |ok|);
    BrokeRotation(ok, u, a);
    EnterValid(w, p);
    assert Enter(w, p) == Call(p, {}, MAX_BACKOFF_PASSES, true);
    ServeTurn(w, Enter(w, p));
  }

  /* ------------------------------------------------------------------ the theorem */

  lemma {:induction false} AllUpFound(w: World, ok: seq<bool>, p: Pool, s: nat)
    requires Healthy(w, ok, p, s) && AllUp(ok)
    ensures GenerateOnce(w, p).verdict.Text?
  {
    HealthyKeyFound(w, p, s);
  }

  /** The pools that a call searches thoroughly. */
  ghost predicate Reliable(ok: seq<bool>) {
    NoneUp(ok) || AllUp(ok) || (OneUp(ok) && |ok| <= 7)
  }

  lemma {:induction false} ReliableFinds(w: World, ok: seq<bool>, p: Pool, s: nat)
    requires Reliable(ok) && Healthy(w, ok, p, s)
    ensures GenerateOnce(w, p).verdict.Text?
  {
    if AllUp(ok) {
      AllUpFound(w, ok, p, s);
    } else {
      var x: nat :| OnlyUp(ok, x);
      LoneSlotFound(w, ok, p, s);
    }
  }

  lemma {:induction false} UnreliableMisses(ok: seq<bool>) returns (w: World, p: Pool, s: nat)
    requires !Reliable(ok)
    ensures Missed(w, ok, p, s)
  {
    if !OneUp(ok) {
      w, p, s := BrokeSlotMisses(ok);
    } else {
      s :| OnlyUp(ok, s);
      if |ok| == 8 {
        w, p := EightRingMisses(ok, s);
      } else {
        w, p := LongRingMisses(ok, s);
      }
    }
  }

  /** From every start, and whatever the other providers answer, a call finds a healthy slot that is not
      dead, exactly when no client comes up, or all do, or one does in a pool of at most seven slots. */
  lemma {:induction false} CallThoroughIff(ok: seq<bool>)
    ensures (forall w, p, s :: Healthy(w, ok, p, s) ==> GenerateOnce(w, p).verdict.Text?) <==> Reliable(ok)
  {
    if Reliable(ok) {
      forall w, p, s | Healthy(w, ok, p, s) ensures GenerateOnce(w, p).verdict.Text? {
        ReliableFinds(w, ok, p, s);
      }
    } else {
      var w, p, s := UnreliableMisses(ok);
      assert Healthy(w, ok, p, s);
    }
  }
}
