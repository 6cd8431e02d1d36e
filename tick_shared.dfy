/**
 * What the two tickers (src/tick.ts and src/tick/tick.ts) have in common: the
 * tick duration, the record of one tick, the positions the tasks report, and
 * the time left until the next tick. The clock (`performance.now()`) is an
 * integer number of milliseconds passed in by the caller, and a task's
 * `update` is answered by an `outcome` function: `None` for a task that
 * returns nothing, otherwise the positions of the set it returns, in the
 * set's iteration order.
 */
module TickShared {
  import opened Common
  import opened Tasks

  /** Ticks per second. */
  const TicksPerSecond: int := 10
  /** `1000 / TPS` milliseconds. */
  const TickDuration: int := 1000 / TicksPerSecond

  /** The event emitted after a tick: its name and the `changedBlocks` it carries. */
  datatype TickEvent = TickEvent(name: string, changedBlocks: seq<BlockPos>)

  /** One run of the tasks: whose `update` was called, whose `dispose` was called, what was emitted. */
  datatype Tick = Tick(updated: seq<Task>, disposeCalls: seq<Task>, event: TickEvent)

  /** The results of calling `update` on each task in list order. */
  function Results(ts: seq<Task>, outcome: Task -> Option<seq<BlockPos>>): (rs: seq<Option<seq<BlockPos>>>)
    ensures |rs| == |ts|
    ensures forall i :: 0 <= i < |ts| ==> rs[i] == outcome(ts[i])
  {
    seq(|ts|, i requires 0 <= i < |ts| => outcome(ts[i]))
  }

  /** The positions of the results in order, skipping tasks that returned nothing. */
  function Collected(rs: seq<Option<seq<BlockPos>>>): seq<BlockPos>
  {
    if rs == [] then []
    else
      var last := rs[|rs| - 1];
      Collected(rs[..|rs| - 1]) + (if last.Some? then last.value else [])
  }

  /** A position is collected exactly when some task returned it. */
  lemma {:induction false} CollectedMember(rs: seq<Option<seq<BlockPos>>>, p: BlockPos)
    ensures p in Collected(rs) <==> exists i :: 0 <= i < |rs| && rs[i].Some? && p in rs[i].value
  {
    if rs != [] {
      var n := |rs| - 1;
      CollectedMember(rs[..n], p);
      if exists i :: 0 <= i < |rs| && rs[i].Some? && p in rs[i].value {
        var i :| 0 <= i < |rs| && rs[i].Some? && p in rs[i].value;
        if i < n {
          assert rs[..n][i] == rs[i];
        }
      }
    }
  }

  /** The results of the tasks processed so far, one more task at a time. */
  lemma ResultsStep(ts: seq<Task>, outcome: Task -> Option<seq<BlockPos>>, i: int)
    requires 0 <= i < |ts|
    ensures Results(ts[..i + 1], outcome) == Results(ts[..i], outcome) + [outcome(ts[i])]
    ensures Collected(Results(ts[..i + 1], outcome)) ==
      Collected(Results(ts[..i], outcome)) + (if outcome(ts[i]).Some? then outcome(ts[i]).value else [])
  {
    assert Results(ts[..i + 1], outcome)[..i] == Results(ts[..i], outcome);
  }

  /**
   * `getMillisecondsUntilNextTick`: `null` when stopped, otherwise the tick
   * duration minus the elapsed time modulo the tick duration (JavaScript's
   * truncating `%`). Once the clock has reached the start time, the result
   * lies in `(0, TickDuration]` and lands exactly on the next multiple of the
   * tick duration after the start.
   */
  function MsUntilNextTick(startTime: Option<int>, now: int): (r: Option<int>)
    ensures r.None? <==> startTime.None?
    ensures startTime.Some? && now >= startTime.value ==>
      0 < r.value <= TickDuration && (now - startTime.value + r.value) % TickDuration == 0
  {
    match startTime
    case None => None
    case Some(start) => Some(TickDuration - JsRem(now - start, TickDuration))
  }

  /** The worked example: started at 0, at 250 ms the next tick is 50 ms away; at a tick boundary a full tick is. */
  lemma MsUntilNextTickExample()
    ensures MsUntilNextTick(Some(0), 250) == Some(50)
    ensures MsUntilNextTick(Some(100), 300) == Some(TickDuration)
    ensures MsUntilNextTick(None, 300) == None
  {
  }
}
