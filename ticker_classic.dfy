/**
 * The ticker of src/tick.ts: a two-state machine (stopped, or started at a
 * time) that, on each tick, calls every task's `update` in list order,
 * gathers the positions they return, sweeps disposed tasks and emits
 * `"tick"`. Each returned set is added whole to a `Set` that compares by
 * reference, so value-equal positions from different tasks are all kept.
 */
module ClassicTicker {
  import opened Common
  import opened Tasks
  import opened TickShared

  /** The tick that running the tasks `ts` produces. */
  function TickOf(ts: seq<Task>, outcome: Task -> Option<seq<BlockPos>>, probe: Task -> bool): Tick
  {
    Tick(ts, DisposeCalls(ts, probe), TickEvent("tick", Collected(Results(ts, outcome))))
  }

  class Ticker {
    /** The tasks run on each tick. */
    const tasks: TaskList
    /** When the ticker was started; `None` while stopped. */
    var startTime: Option<int>

    /** A stopped ticker with no tasks. */
    constructor()
      ensures fresh(tasks) && tasks.tasks == [] && startTime == None
    {
      tasks := new TaskList();
      startTime := None;
    }

    /**
     * `start`: nothing when already started; otherwise record the start time
     * and run the first tick at once (the later ticks are scheduled by a timer,
     * which is not modelled).
     */
    method Start(now: int, outcome: Task -> Option<seq<BlockPos>>, probe: Task -> bool) returns (tick: Option<Tick>)
      modifies this, tasks
      ensures old(startTime).Some? ==> startTime == old(startTime) && tasks.tasks == old(tasks.tasks) && tick == None
      ensures old(startTime).None? ==>
        startTime == Some(now) && tick == Some(TickOf(old(tasks.tasks), outcome, probe))
        && tasks.tasks == Survivors(old(tasks.tasks), probe)
    {
      if startTime.Some? {
        return None;
      }
      startTime := Some(now);
      var t := RunTasks(outcome, probe);
      tick := Some(t);
    }

    /** `stop`: back to the stopped state; nothing when already stopped. */
    method Stop()
      modifies this
      ensures startTime == None
    {
      if startTime.None? {
        return;
      }
      startTime := None;
    }

    /** `runTasks`: call each task's `update` once in list order, gather positions, sweep, emit `"tick"`. */
    method RunTasks(outcome: Task -> Option<seq<BlockPos>>, probe: Task -> bool) returns (tick: Tick)
      modifies tasks
      ensures tick == TickOf(old(tasks.tasks), outcome, probe)
      ensures tasks.tasks == Survivors(old(tasks.tasks), probe)
    {
      var updated, changedBlocks := UpdateAll(tasks.tasks, outcome);
      var disposeCalls := tasks.Sweep(probe);
      tick := Tick(updated, disposeCalls, TickEvent("tick", changedBlocks));
    }

    /** `getMillisecondsUntilNextTick` at clock time `now`. */
    function GetMillisecondsUntilNextTick(now: int): (r: Option<int>)
      reads this
      ensures r.None? <==> startTime.None?
      ensures startTime.Some? && now >= startTime.value ==>
        0 < r.value <= TickDuration && (now - startTime.value + r.value) % TickDuration == 0
    {
      MsUntilNextTick(startTime, now)
    }
  }

  /**
   * The update loop of `runTasks`: each task's `update` in list order, every
   * position of every returned set added to `changedBlocks`.
   */
  method UpdateAll(ts: seq<Task>, outcome: Task -> Option<seq<BlockPos>>) returns (updated: seq<Task>, changedBlocks: seq<BlockPos>)
    ensures updated == ts
    ensures changedBlocks == Collected(Results(ts, outcome))
  {
    changedBlocks := [];
    updated := [];
    var i := 0;
    while i < |ts|
      invariant 0 <= i <= |ts|
      invariant updated == ts[..i]
      invariant changedBlocks == Collected(Results(ts[..i], outcome))
    {
      var task := ts[i];
      var changedInTask := outcome(task);
      updated := updated + [task];
      ResultsStep(ts, outcome, i);
      if changedInTask.Some? {
        var j := 0;
        while j < |changedInTask.value|
          invariant 0 <= j <= |changedInTask.value|
          invariant changedBlocks == Collected(Results(ts[..i], outcome)) + changedInTask.value[..j]
        {
          changedBlocks := changedBlocks + [changedInTask.value[j]];
          j := j + 1;
        }
        assert changedInTask.value[..j] == changedInTask.value;
      }
      assert ts[..i + 1] == ts[..i] + [task];
      i := i + 1;
    }
    assert ts[..|ts|] == ts;
  }

  /**
   * One tick calls `update` on every task exactly once in list order, emits
   * `"tick"` carrying every position some task returned, and calls `dispose`
   * only on tasks it removes.
   */
  lemma TickOfProperties(ts: seq<Task>, outcome: Task -> Option<seq<BlockPos>>, probe: Task -> bool, p: BlockPos)
    ensures TickOf(ts, outcome, probe).updated == ts
    ensures TickOf(ts, outcome, probe).event.name == "tick"
    ensures p in TickOf(ts, outcome, probe).event.changedBlocks <==>
      exists i :: 0 <= i < |ts| && outcome(ts[i]).Some? && p in outcome(ts[i]).value
    ensures forall t :: t in TickOf(ts, outcome, probe).disposeCalls ==> IsDisposed(t, probe) && t.hasDispose
  {
    CollectedMember(Results(ts, outcome), p);
    forall t | t in TickOf(ts, outcome, probe).disposeCalls
      ensures IsDisposed(t, probe) && t.hasDispose
    {
      DisposeCallsCount(ts, probe, t);
    }
  }
}
