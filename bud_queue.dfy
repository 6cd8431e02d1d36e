/**
 * The queue discipline shared by both block update detectors
 * (src/data/bud/bud.ts and src/bud/bud.ts): requests wait in `nextQueue` (a
 * `Set` of request objects, here the sequence of its members in insertion
 * order), `add` refuses a request equal by value to one already waiting, and
 * `prepareQueue` walks the waiting requests once, counting each request's
 * delay down and moving the due ones, at most `QUEUE_MAX_LENGTH` of them, to
 * this tick's queue. The two detectors differ in how the delay is counted:
 * the data tree tests the delay before decrementing it (`delay-- > 0`),
 * src/bud/bud.ts after (`--delay > 0`).
 */
module BudQueue {
  import opened Common
  import opened Adjacency
  import opened BudTypes
  import opened HandlerFactory
  import opened Liquid

  /** `nextQueue` after `add(data)`: unchanged if an equal request waits or, when asked, if its position was updated. */
  function Added(next: seq<BudData>, updated: seq<BlockPos>, data: BudData, skipIfUpdated: bool): (r: seq<BudData>)
    ensures r == next || r == next + [data]
    ensures r == next + [data] <==> data !in next && !(skipIfUpdated && data.pos in updated)
  {
    if data in next then next
    else if skipIfUpdated && data.pos in updated then next
    else next + [data]
  }

  /** No two waiting requests are equal by value. */
  predicate Distinct(s: seq<BudData>)
  {
    forall i, j :: 0 <= i < j < |s| ==> s[i] != s[j]
  }

  /** `add` never lets two equal requests wait together. */
  lemma AddedDistinct(next: seq<BudData>, updated: seq<BlockPos>, data: BudData, skipIfUpdated: bool)
    requires Distinct(next)
    ensures Distinct(Added(next, updated, data, skipIfUpdated))
  {
  }

  /** `nextQueue` after adding each of `ds` in order. */
  function AddAll(next: seq<BudData>, updated: seq<BlockPos>, ds: seq<BudData>, skipIfUpdated: bool): seq<BudData>
  {
    if ds == [] then next
    else Added(AddAll(next, updated, ds[..|ds| - 1], skipIfUpdated), updated, ds[|ds| - 1], skipIfUpdated)
  }

  /** Adding one more request after several is `add` applied to the result. */
  lemma AddAllStep(next: seq<BudData>, updated: seq<BlockPos>, ds: seq<BudData>, d: BudData, skipIfUpdated: bool)
    ensures AddAll(next, updated, ds + [d], skipIfUpdated) == Added(AddAll(next, updated, ds, skipIfUpdated), updated, d, skipIfUpdated)
  {
    assert (ds + [d])[..|ds|] == ds;
  }

  /**
   * Adding several requests keeps the waiting requests distinct, keeps every
   * request that waited, and makes each added request wait unless it is
   * skipped for its updated position.
   */
  lemma {:induction false} AddAllProperties(next: seq<BudData>, updated: seq<BlockPos>, ds: seq<BudData>, skipIfUpdated: bool)
    ensures Distinct(next) ==> Distinct(AddAll(next, updated, ds, skipIfUpdated))
    ensures next <= AddAll(next, updated, ds, skipIfUpdated)
    ensures forall d :: d in ds && !(skipIfUpdated && d.pos in updated) ==> d in AddAll(next, updated, ds, skipIfUpdated)
    ensures forall d :: d in AddAll(next, updated, ds, skipIfUpdated) ==> d in next || d in ds
  {
    if ds != [] {
      var n := |ds| - 1;
      AddAllProperties(next, updated, ds[..n], skipIfUpdated);
      var prev := AddAll(next, updated, ds[..n], skipIfUpdated);
      if Distinct(prev) {
        AddedDistinct(prev, updated, ds[n], skipIfUpdated);
      }
      assert ds == ds[..n] + [ds[n]];
    }
  }

  /** With no updated positions, asking to skip updated positions changes nothing. */
  lemma {:induction false} AddAllNothingUpdated(next: seq<BudData>, ds: seq<BudData>)
    ensures AddAll(next, [], ds, true) == AddAll(next, [], ds, false)
  {
    if ds != [] {
      AddAllNothingUpdated(next, ds[..|ds| - 1]);
    }
  }

  /** The request after its delay is counted down: a nonzero delay drops by one, an absent or zero delay stays. */
  function Stepped(d: BudData): (r: BudData)
    ensures r.dimension == d.dimension && r.pos == d.pos && r.budType == d.budType
    ensures d.delay.Some? && d.delay.value != 0 ==> r.delay == Some(d.delay.value - 1)
    ensures !(d.delay.Some? && d.delay.value != 0) ==> r == d
  {
    if d.delay.Some? && d.delay.value != 0 then d.(delay := Some(d.delay.value - 1)) else d
  }

  /**
   * Whether the request keeps waiting: `delay && delay-- > 0` tests the delay
   * before the decrement, `delay && --delay > 0` (when `preDecrement`) after.
   */
  predicate Waits(d: BudData, preDecrement: bool)
  {
    d.delay.Some? && d.delay.value != 0 &&
    (if preDecrement then d.delay.value - 1 > 0 else d.delay.value > 0)
  }

  /** `n` prepares applied to a request that keeps waiting. */
  function Countdown(d: BudData, n: nat): BudData
  {
    if n == 0 then d else Stepped(Countdown(d, n - 1))
  }

  lemma {:induction false} CountdownDelay(d: BudData, k: nat, n: nat)
    requires d.delay == Some(k) && n <= k
    ensures Countdown(d, n).delay == Some(k - n)
    ensures Countdown(d, n).pos == d.pos && Countdown(d, n).budType == d.budType
  {
    if n > 0 {
      CountdownDelay(d, k, n - 1);
    }
  }

  /**
   * Counting before the decrement, a request added with delay `k >= 0`
   * waits through exactly `k` prepares and is due at the next one; a
   * request without a delay is due at once.
   */
  lemma DelayWaitsExactly(d: BudData, k: nat, n: nat)
    requires d.delay == Some(k) && n <= k
    ensures Waits(Countdown(d, n), false) <==> n < k
  {
    CountdownDelay(d, k, n);
  }

  /**
   * Counting after the decrement, a request added with delay `k >= 1` waits
   * through only `k - 1` prepares: a delay of 1 does not delay at all.
   */
  lemma PreDecrementWaits(d: BudData, k: nat, n: nat)
    requires d.delay == Some(k) && n <= k
    ensures Waits(Countdown(d, n), true) <==> n + 1 < k
    ensures d.delay == Some(1) ==> !Waits(d, true) && Waits(d, false)
  {
    CountdownDelay(d, k, n);
  }

  /** The outcome of `prepareQueue`'s walk: this tick's queue (unsorted) and what stays in `nextQueue`. */
  datatype Batch = Batch(queue: seq<BudData>, rest: seq<BudData>)

  /** `prepareQueue`'s walk over `nextQueue`, request by request. */
  function Prepare(next: seq<BudData>, preDecrement: bool): Batch
  {
    if next == [] then Batch([], [])
    else
      var b := Prepare(next[..|next| - 1], preDecrement);
      var d := next[|next| - 1];
      if Waits(d, preDecrement) || |b.queue| >= QueueMaxLength then Batch(b.queue, b.rest + [Stepped(d)])
      else Batch(b.queue + [Stepped(d)], b.rest)
  }

  /** The due requests of `next`, counted down, in order. */
  function Due(next: seq<BudData>, preDecrement: bool): seq<BudData>
  {
    if next == [] then []
    else
      var d := next[|next| - 1];
      Due(next[..|next| - 1], preDecrement) + (if Waits(d, preDecrement) then [] else [Stepped(d)])
  }

  /** Every request of `next`, counted down. */
  function SteppedAll(next: seq<BudData>): (r: seq<BudData>)
    ensures |r| == |next|
    ensures forall i :: 0 <= i < |next| ==> r[i] == Stepped(next[i])
  {
    seq(|next|, i requires 0 <= i < |next| => Stepped(next[i]))
  }

  /**
   * This tick's queue is the first `QUEUE_MAX_LENGTH` due requests in
   * `nextQueue` order, all of them when fewer are due.
   */
  lemma {:induction false} PrepareTakesFirstDue(next: seq<BudData>, preDecrement: bool)
    ensures var due := Due(next, preDecrement);
      Prepare(next, preDecrement).queue == due[..Min(|due|, QueueMaxLength)]
  {
    if next != [] {
      var n := |next| - 1;
      PrepareTakesFirstDue(next[..n], preDecrement);
      var due := Due(next[..n], preDecrement);
      var b := Prepare(next[..n], preDecrement);
      var s := Stepped(next[n]);
      if !Waits(next[n], preDecrement) {
        assert Due(next, preDecrement) == due + [s];
        if |b.queue| < QueueMaxLength {
          assert (due + [s])[..|due| + 1] == due + [s];
        } else {
          assert (due + [s])[..QueueMaxLength] == due[..QueueMaxLength];
        }
      }
    }
  }

  /**
   * Every request, due or not, is counted down and lands either in the
   * queue or back in `nextQueue`: none is lost and none is doubled.
   */
  lemma {:induction false} PrepareConserves(next: seq<BudData>, preDecrement: bool)
    ensures multiset(Prepare(next, preDecrement).queue) + multiset(Prepare(next, preDecrement).rest)
      == multiset(SteppedAll(next))
  {
    if next != [] {
      var n := |next| - 1;
      PrepareConserves(next[..n], preDecrement);
      PrepareConservesStep(next[..n], next[n], preDecrement);
      SplitLast(next);
    }
  }

  /** The induction step of `PrepareConserves`: one more waiting request at the end. */
  lemma PrepareConservesStep(p: seq<BudData>, x: BudData, preDecrement: bool)
    requires multiset(Prepare(p, preDecrement).queue) + multiset(Prepare(p, preDecrement).rest)
      == multiset(SteppedAll(p))
    ensures multiset(Prepare(p + [x], preDecrement).queue) + multiset(Prepare(p + [x], preDecrement).rest)
      == multiset(SteppedAll(p + [x]))
  {
    var b, b2 := Prepare(p, preDecrement), Prepare(p + [x], preDecrement);
    var sx := Stepped(x);
    assert multiset(b2.queue) + multiset(b2.rest) == multiset(b.queue) + multiset(b.rest) + multiset{sx} by {
      assert (p + [x])[..|p|] == p;
      if Waits(x, preDecrement) || |b.queue| >= QueueMaxLength {
        assert b2 == Batch(b.queue, b.rest + [sx]);
        assert multiset(b.rest + [sx]) == multiset(b.rest) + multiset{sx};
      } else {
        assert b2 == Batch(b.queue + [sx], b.rest);
        assert multiset(b.queue + [sx]) == multiset(b.queue) + multiset{sx};
      }
    }
    assert multiset(SteppedAll(p + [x])) == multiset(SteppedAll(p)) + multiset{sx} by {
      SteppedAllSnoc(p, x);
    }
  }

  /** Counting down one more request adds it, counted down, at the end. */
  lemma SteppedAllSnoc(p: seq<BudData>, x: BudData)
    ensures SteppedAll(p + [x]) == SteppedAll(p) + [Stepped(x)]
  {
    var l, r := SteppedAll(p + [x]), SteppedAll(p) + [Stepped(x)];
    assert |l| == |r|;
    forall i | 0 <= i < |l|
      ensures l[i] == r[i]
    {
      if i < |p| {
        assert (p + [x])[i] == p[i];
      }
    }
  }

  /** The queue never holds more than `QUEUE_MAX_LENGTH` requests, and holds only due ones. */
  lemma PrepareBounded(next: seq<BudData>, preDecrement: bool)
    ensures |Prepare(next, preDecrement).queue| <= QueueMaxLength
    ensures |Prepare(next, preDecrement).queue| + |Prepare(next, preDecrement).rest| == |next|
    ensures forall d :: d in Prepare(next, preDecrement).queue ==> d in Due(next, preDecrement)
  {
    PrepareTakesFirstDue(next, preDecrement);
    PrepareConserves(next, preDecrement);
    var b := Prepare(next, preDecrement);
    assert |multiset(b.queue) + multiset(b.rest)| == |multiset(SteppedAll(next))|;
  }

  /** When every waiting request is due, the queue takes the first `QUEUE_MAX_LENGTH` of them and the rest stay. */
  lemma {:induction false} PrepareAllDue(next: seq<BudData>, preDecrement: bool)
    requires forall i :: 0 <= i < |next| ==> !Waits(next[i], preDecrement)
    ensures |Prepare(next, preDecrement).queue| == Min(|next|, QueueMaxLength)
    ensures |Prepare(next, preDecrement).rest| == |next| - Min(|next|, QueueMaxLength)
  {
    if next != [] {
      var n := |next| - 1;
      assert forall i :: 0 <= i < n ==> next[..n][i] == next[i];
      PrepareAllDue(next[..n], preDecrement);
    }
  }

  /** A request that is not yet due stays in `nextQueue`, counted down. */
  lemma {:induction false} WaitingStays(next: seq<BudData>, preDecrement: bool, i: int)
    requires 0 <= i < |next| && Waits(next[i], preDecrement)
    ensures Stepped(next[i]) in Prepare(next, preDecrement).rest
  {
    var n := |next| - 1;
    if i < n {
      WaitingStays(next[..n], preDecrement, i);
    }
  }

  /** The positions of the queued requests, in queue order (the `updatedBlockPos` loop). */
  function Positions(queue: seq<BudData>): (ps: seq<BlockPos>)
    ensures |ps| == |queue|
    ensures forall i :: 0 <= i < |queue| ==> ps[i] == queue[i].pos
  {
    seq(|queue|, i requires 0 <= i < |queue| => queue[i].pos)
  }

  /** The state after running the handlers: the world, `nextQueue`, and the request whose handler was missing, if any. */
  datatype Run = Run(world: World, next: seq<BudData>, missing: Option<BudData>)

  /** What `NormalUpdate.handleBud(d)` does to the world and to `nextQueue`. */
  function HandleNormal(w: World, next: seq<BudData>, updated: seq<BlockPos>, skipIfUpdated: bool, d: BudData): Run
  {
    Run(HandleWorld(w, d), AddAll(next, updated, FlowTargets(w(d.dimension), d), skipIfUpdated), None)
  }

  /**
   * The handler loop of `update`: each queued request, in order, handed to
   * the handler its type selects; a type without a handler throws, and the
   * requests after it are not handled.
   */
  function RunHandlers(w: World, next: seq<BudData>, updated: seq<BlockPos>, skipIfUpdated: bool, queue: seq<BudData>): Run
  {
    if queue == [] then Run(w, next, None)
    else
      var r := RunHandlers(w, next, updated, skipIfUpdated, queue[..|queue| - 1]);
      var d := queue[|queue| - 1];
      if r.missing.Some? then r
      else if GetHandlerByType(d.budType).None? then Run(r.world, r.next, Some(d))
      else HandleNormal(r.world, r.next, updated, skipIfUpdated, d)
  }

  /** The handlers only ever append to `nextQueue`, and keep distinct waiting requests distinct. */
  lemma {:induction false} RunHandlersAppends(w: World, next: seq<BudData>, updated: seq<BlockPos>, skipIfUpdated: bool, queue: seq<BudData>)
    ensures Distinct(next) ==> Distinct(RunHandlers(w, next, updated, skipIfUpdated, queue).next)
    ensures next <= RunHandlers(w, next, updated, skipIfUpdated, queue).next
  {
    if queue != [] {
      var n := |queue| - 1;
      RunHandlersAppends(w, next, updated, skipIfUpdated, queue[..n]);
      var r := RunHandlers(w, next, updated, skipIfUpdated, queue[..n]);
      var d := queue[n];
      if r.missing.None? && GetHandlerByType(d.budType).Some? {
        AddAllProperties(r.next, updated, FlowTargets(r.world(d.dimension), d), skipIfUpdated);
      }
    }
  }

  /** Every request the handlers add is a `NORMAL` request with delay 1 for a plane neighbour of a queued request. */
  lemma {:induction false} RunHandlersAddsNeighbours(w: World, next: seq<BudData>, updated: seq<BlockPos>, skipIfUpdated: bool, queue: seq<BudData>, e: BudData)
    requires e in RunHandlers(w, next, updated, skipIfUpdated, queue).next && e !in next
    ensures e.budType == Normal && e.delay == Some(1)
    ensures exists q :: q in queue && e.pos in PlaneAdjacent(q.pos)
  {
    var n := |queue| - 1;
    var r := RunHandlers(w, next, updated, skipIfUpdated, queue[..n]);
    var d := queue[n];
    if e in r.next {
      RunHandlersAddsNeighbours(w, next, updated, skipIfUpdated, queue[..n], e);
      var q :| q in queue[..n] && e.pos in PlaneAdjacent(q.pos);
      assert q in queue;
    } else {
      var ts := FlowTargets(r.world(d.dimension), d);
      RunHandlersAppends(w, next, updated, skipIfUpdated, queue[..n]);
      AddAllProperties(r.next, updated, ts, skipIfUpdated);
      FlowTargetsCharacterized(r.world(d.dimension), d, e);
      assert d in queue;
    }
  }

  /** Once a handler is missing, the requests after it change nothing. */
  lemma {:induction false} RunHandlersStopsAtMissing(w: World, next: seq<BudData>, updated: seq<BlockPos>, skipIfUpdated: bool, queue: seq<BudData>, i: int)
    requires 0 <= i <= |queue|
    requires RunHandlers(w, next, updated, skipIfUpdated, queue[..i]).missing.Some?
    ensures RunHandlers(w, next, updated, skipIfUpdated, queue) == RunHandlers(w, next, updated, skipIfUpdated, queue[..i])
    decreases |queue| - i
  {
    if i < |queue| {
      assert queue[..i + 1][..i] == queue[..i];
      RunHandlersStopsAtMissing(w, next, updated, skipIfUpdated, queue, i + 1);
    } else {
      assert queue[..i] == queue;
    }
  }

  /**
   * During `update` no position has been marked updated yet, so the flow's
   * `add` calls, which ask to skip updated positions, never skip anything.
   */
  lemma {:induction false} RunHandlersSkipsNothing(w: World, next: seq<BudData>, queue: seq<BudData>)
    ensures RunHandlers(w, next, [], true, queue) == RunHandlers(w, next, [], false, queue)
  {
    if queue != [] {
      var n := |queue| - 1;
      RunHandlersSkipsNothing(w, next, queue[..n]);
      var r := RunHandlers(w, next, [], true, queue[..n]);
      AddAllNothingUpdated(r.next, FlowTargets(r.world(queue[n].dimension), queue[n]));
    }
  }

  /** With only `NORMAL` requests queued, no handler is missing. */
  lemma {:induction false} RunHandlersAllNormal(w: World, next: seq<BudData>, updated: seq<BlockPos>, skipIfUpdated: bool, queue: seq<BudData>)
    requires forall i :: 0 <= i < |queue| ==> queue[i].budType == Normal
    ensures RunHandlers(w, next, updated, skipIfUpdated, queue).missing.None?
  {
    if queue != [] {
      var n := |queue| - 1;
      assert forall i :: 0 <= i < n ==> queue[..n][i].budType == Normal;
      RunHandlersAllNormal(w, next, updated, skipIfUpdated, queue[..n]);
    }
  }
}
