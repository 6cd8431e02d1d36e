/**
 * The block update detector of the data tree (src/data/bud/bud.ts), a
 * ticker task of priority 100. Requests wait in `nextQueue`; each tick,
 * `update` moves the due ones (at most `QUEUE_MAX_LENGTH`) to `queue`, sorts
 * them higher type first and then by position, hands each to its type's
 * handler and reports the positions it handled. Those positions stay in
 * `updatedBlockPos` until the next tick, and `add` can be asked to refuse a
 * request at one of them.
 *
 * The dimensions a handler reads and writes are passed in and returned as a
 * `World`. The one handler, `NormalUpdate`, is `Liquid.flow` of
 * src/data/bud/normal.ts, whose `context.add` calls land on this detector.
 */
module DataBud {
  import opened Common
  import opened Adjacency
  import opened BudTypes
  import opened HandlerFactory
  import opened Liquid
  import opened BatchOrder
  import opened BudQueue
  import opened ValueUtils

  /**
   * What `update` ends with: the positions it handled, or the request whose
   * type has no handler (`getHandlerByType(...)` is `undefined`, and calling
   * `handleBud` on it throws).
   */
  datatype UpdateResult = Updated(positions: seq<BlockPos>) | NoHandler(data: BudData)

  /** The tick's sorted queue for waiting requests `next`, due requests counted before the decrement. */
  function TickQueue(next: seq<BudData>): seq<BudData>
  {
    SortBatch(Prepare(next, false).queue, true)
  }

  /** The handlers' run over that queue, the flow asking to skip updated positions. */
  function TickRun(w: World, next: seq<BudData>): Run
  {
    RunHandlers(w, Prepare(next, false).rest, [], true, TickQueue(next))
  }

  class Bud {
    /** The requests handled this tick, in handling order. */
    var queue: seq<BudData>
    /** The waiting requests, delayed ones included, in insertion order. */
    var nextQueue: seq<BudData>
    /** The positions handled in the last tick. */
    var updatedBlockPos: seq<BlockPos>

    /** A detector with nothing queued. */
    constructor()
      ensures queue == [] && nextQueue == [] && updatedBlockPos == []
    {
      queue := [];
      nextQueue := [];
      updatedBlockPos := [];
    }

    /**
     * `add(data, skipIfUpdated)`: nothing if an equal request already waits,
     * or if asked to skip and the position was handled in the last tick;
     * otherwise `data` waits at the end of `nextQueue`.
     */
    method Add(data: BudData, skipIfUpdated: bool)
      modifies this
      ensures nextQueue == Added(old(nextQueue), updatedBlockPos, data, skipIfUpdated)
      ensures queue == old(queue) && updatedBlockPos == old(updatedBlockPos)
    {
      if ElementInSet(data, nextQueue) {
        return;
      }
      if skipIfUpdated && ElementInSet(data.pos, updatedBlockPos) {
        return;
      }
      nextQueue := nextQueue + [data];
    }

    /**
     * `prepareQueue`: forget the last tick's positions, walk `nextQueue`
     * once counting every nonzero delay down (`delay-- > 0`: checked before
     * the decrement), move each due request to `queue` while it has room,
     * and sort `queue` higher type first, then by position.
     */
    method PrepareQueue()
      modifies this
      ensures queue == TickQueue(old(nextQueue))
      ensures nextQueue == Prepare(old(nextQueue), false).rest
      ensures updatedBlockPos == []
    {
      queue := [];
      updatedBlockPos := [];
      var rest := [];
      var i := 0;
      while i < |nextQueue|
        invariant 0 <= i <= |nextQueue|
        invariant nextQueue == old(nextQueue) && updatedBlockPos == []
        invariant Batch(queue, rest) == Prepare(nextQueue[..i], false)
      {
        var data := nextQueue[i];
        var waits := false;
        if data.delay.Some? && data.delay.value != 0 {
          waits := data.delay.value > 0;
          data := data.(delay := Some(data.delay.value - 1));
        }
        assert nextQueue[..i + 1][..i] == nextQueue[..i];
        if waits || |queue| >= QueueMaxLength {
          rest := rest + [data];
        } else {
          queue := queue + [data];
        }
        i := i + 1;
      }
      assert nextQueue[..|nextQueue|] == nextQueue;
      nextQueue := rest;
      queue := SortBatch(queue, true);
    }

    /**
     * `NormalUpdate.handleBud(data)`, that is `Liquid.flow(data)`: with two
     * or more water blocks among the four plane neighbours, the block turns
     * to water and each air neighbour is added with type `NORMAL` and
     * delay 1, asking to skip updated positions.
     */
    method Flow(w: World, data: BudData) returns (w': World)
      modifies this
      ensures w' == HandleWorld(w, data)
      ensures nextQueue == AddAll(old(nextQueue), updatedBlockPos, FlowTargets(w(data.dimension), data), true)
      ensures queue == old(queue) && updatedBlockPos == old(updatedBlockPos)
    {
      var adjacentBlocks := PlaneAdjacentBlocks(w(data.dimension), data.pos);
      var waterCount := WaterCount(adjacentBlocks);
      if waterCount < 2 {
        return w;
      }
      w' := WithBlock(w, data.dimension, data.pos, "water");
      var g := w'(data.dimension);
      var adjacentCoordinates := PlaneAdjacent(data.pos);
      ghost var before := nextQueue;
      for i := 0 to |adjacentCoordinates|
        invariant nextQueue == AddAll(before, updatedBlockPos, AirTargets(g, data.dimension, adjacentCoordinates[..i]), true)
        invariant queue == old(queue) && updatedBlockPos == old(updatedBlockPos)
      {
        var pos := adjacentCoordinates[i];
        ghost var done := AirTargets(g, data.dimension, adjacentCoordinates[..i]);
        AirTargetsStep(g, data.dimension, adjacentCoordinates, i);
        if g[pos] != "air" {
          assert done + [] == done;
          continue;
        }
        var t := BudData(data.dimension, pos, Normal, Some(1));
        AddAllStep(before, updatedBlockPos, done, t, true);
        Add(t, true);
      }
      assert adjacentCoordinates[..4] == adjacentCoordinates;
    }

    /**
     * `update`: prepare the queue, hand each queued request in order to its
     * type's handler, then record and return the positions of the queued
     * requests. A type without a handler ends the tick at that request.
     */
    method Update(w: World) returns (w': World, result: UpdateResult)
      modifies this
      ensures queue == TickQueue(old(nextQueue))
      ensures w' == TickRun(w, old(nextQueue)).world && nextQueue == TickRun(w, old(nextQueue)).next
      ensures TickRun(w, old(nextQueue)).missing.None? ==>
        result == Updated(Positions(queue)) && updatedBlockPos == Positions(queue)
      ensures TickRun(w, old(nextQueue)).missing.Some? ==>
        result == NoHandler(TickRun(w, old(nextQueue)).missing.value) && updatedBlockPos == []
    {
      ghost var run := TickRun(w, nextQueue);
      PrepareQueue();
      var missing;
      w', missing := HandleQueue(w);
      assert run == Run(w', nextQueue, missing);
      if missing.Some? {
        return w', NoHandler(missing.value);
      }
      RecordPositions();
      result := Updated(updatedBlockPos);
    }

    /** The handler loop of `update`: each queued request, in order, to its type's handler. */
    method HandleQueue(w: World) returns (w': World, missing: Option<BudData>)
      modifies this
      ensures Run(w', nextQueue, missing) == RunHandlers(w, old(nextQueue), old(updatedBlockPos), true, queue)
      ensures queue == old(queue) && updatedBlockPos == old(updatedBlockPos)
    {
      ghost var rest := nextQueue;
      w' := w;
      var i := 0;
      while i < |queue|
        invariant 0 <= i <= |queue|
        invariant queue == old(queue) && updatedBlockPos == old(updatedBlockPos)
        invariant RunHandlers(w, rest, updatedBlockPos, true, queue[..i]) == Run(w', nextQueue, None)
      {
        var data := queue[i];
        assert queue[..i + 1][..i] == queue[..i];
        var handler := GetHandlerByType(data.budType);
        if handler.None? {
          RunHandlersStopsAtMissing(w, rest, updatedBlockPos, true, queue, i + 1);
          return w', Some(data);
        }
        match handler.value
        case NormalUpdate =>
          w' := Flow(w', data);
        i := i + 1;
      }
      assert queue[..|queue|] == queue;
      missing := None;
    }

    /** The position loop of `update`: each queued request's position added to `updatedBlockPos`. */
    method RecordPositions()
      modifies this
      ensures updatedBlockPos == old(updatedBlockPos) + Positions(queue)
      ensures queue == old(queue) && nextQueue == old(nextQueue)
    {
      for j := 0 to |queue|
        invariant queue == old(queue) && nextQueue == old(nextQueue)
        invariant updatedBlockPos == old(updatedBlockPos) + Positions(queue[..j])
      {
        assert queue[..j + 1][..j] == queue[..j];
        updatedBlockPos := updatedBlockPos + [queue[j].pos];
      }
      assert queue[..|queue|] == queue;
    }

    /** `clear`: nothing queued, nothing waiting, no position updated. */
    method Clear()
      modifies this
      ensures queue == [] && nextQueue == [] && updatedBlockPos == []
    {
      queue := [];
      nextQueue := [];
      updatedBlockPos := [];
    }
  }

  /** The `"bud:add"` listener: the event's data is added, asking to skip updated positions. */
  method OnBudAdd(bud: Bud, data: BudData)
    modifies bud
    ensures bud.nextQueue == Added(old(bud.nextQueue), bud.updatedBlockPos, data, true)
    ensures bud.queue == old(bud.queue) && bud.updatedBlockPos == old(bud.updatedBlockPos)
  {
    bud.Add(data, true);
  }

  /**
   * What one tick promises: at most `QUEUE_MAX_LENGTH` requests are handled,
   * in comparator order, each a waiting request that was due, counted down;
   * requests not handled stay waiting, and the flow only appends to them,
   * keeping distinct requests distinct; every request the flow adds is a
   * `NORMAL` request with delay 1 beside a handled one, and none is skipped
   * for its position.
   */
  lemma TickProperties(w: World, next: seq<BudData>, e: BudData)
    ensures |TickQueue(next)| <= QueueMaxLength
    ensures Ordered(TickQueue(next), true)
    ensures multiset(TickQueue(next)) + multiset(Prepare(next, false).rest) == multiset(SteppedAll(next))
    ensures forall d :: d in TickQueue(next) ==> d in Due(next, false)
    ensures Prepare(next, false).rest <= TickRun(w, next).next
    ensures Distinct(Prepare(next, false).rest) ==> Distinct(TickRun(w, next).next)
    ensures e in TickRun(w, next).next && e !in Prepare(next, false).rest ==>
      e.budType == Normal && e.delay == Some(1) && exists q :: q in TickQueue(next) && e.pos in PlaneAdjacent(q.pos)
    ensures TickRun(w, next) == RunHandlers(w, Prepare(next, false).rest, [], false, TickQueue(next))
  {
    var b := Prepare(next, false);
    PrepareBounded(next, false);
    PrepareConserves(next, false);
    SortBatchProperties(b.queue, true, e);
    assert multiset(TickQueue(next)) == multiset(b.queue);
    forall d | d in TickQueue(next)
      ensures d in Due(next, false)
    {
      assert d in multiset(b.queue);
    }
    RunHandlersAppends(w, b.rest, [], true, TickQueue(next));
    if e in TickRun(w, next).next && e !in b.rest {
      RunHandlersAddsNeighbours(w, b.rest, [], true, TickQueue(next), e);
    }
    RunHandlersSkipsNothing(w, b.rest, TickQueue(next));
  }

  /**
   * The sorting test: `(1,1,1)` of type 0, `(2,1,1)` of type 1 with delay 1
   * and `(2,1,1)` of type 1, all waiting; the tick's queue is the type-1
   * request then the type-0 one, and the delayed request stays, its delay
   * counted down to 0.
   */
  lemma SortFilterExample(dim: DimId)
    ensures var d1 := BudData(dim, BlockPos(1, 1, 1), Normal, Some(0));
      var d2 := BudData(dim, BlockPos(2, 1, 1), Powered, Some(1));
      var d3 := BudData(dim, BlockPos(2, 1, 1), Powered, Some(0));
      TickQueue([d1, d2, d3]) == [d3, d1]
      && Prepare([d1, d2, d3], false).rest == [d2.(delay := Some(0))]
  {
    var d1 := BudData(dim, BlockPos(1, 1, 1), Normal, Some(0));
    var d2 := BudData(dim, BlockPos(2, 1, 1), Powered, Some(1));
    var d3 := BudData(dim, BlockPos(2, 1, 1), Powered, Some(0));
    assert [d1][..0] == [];
    assert Prepare([d1], false) == Batch([d1], []);
    assert [d1, d2][..1] == [d1];
    assert Prepare([d1, d2], false) == Batch([d1], [Stepped(d2)]);
    assert [d1, d2, d3][..2] == [d1, d2];
    assert Prepare([d1, d2, d3], false) == Batch([d1, d3], [Stepped(d2)]);
    assert SortBatch([d1], true) == [d1];
    assert [d1, d3][..1] == [d1];
    assert Slot([d1], d3, true) == 0;
  }

  /** The capacity test: of 105 due requests, 100 are handled this tick and 5 keep waiting. */
  lemma QueueFullExample(next: seq<BudData>)
    requires |next| == 105
    requires forall i :: 0 <= i < |next| ==> next[i].delay == Some(0)
    ensures |TickQueue(next)| == 100 && |Prepare(next, false).rest| == 5
  {
    PrepareAllDue(next, false);
    SortBatchProperties(Prepare(next, false).queue, true, BudData("", BlockPos(0, 0, 0), Normal, None));
    assert |multiset(TickQueue(next))| == |multiset(Prepare(next, false).queue)|;
  }
}
