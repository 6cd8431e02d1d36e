/**
 * The ticker of src/tick/tick.ts: the same two-state machine as the classic
 * ticker, but a position is added to `changedBlocks` only when no position of
 * equal value is in it yet, the event is named `"ticker:tick"`, and tasks are
 * registered through the `"ticker:register"` event.
 */
module Ticker {
  import opened Common
  import opened Tasks
  import opened TickShared
  import opened ValueUtils

  /** The positions of `s` in order, each value kept at its first occurrence only. */
  function Distinct(s: seq<BlockPos>): seq<BlockPos>
  {
    if s == [] then []
    else
      var d := Distinct(s[..|s| - 1]);
      if s[|s| - 1] in d then d else d + [s[|s| - 1]]
  }

  /** `Distinct` keeps exactly the values of `s`, with no value twice. */
  lemma {:induction false} DistinctProperties(s: seq<BlockPos>)
    ensures forall p :: p in Distinct(s) <==> p in s
    ensures forall i, j :: 0 <= i < j < |Distinct(s)| ==> Distinct(s)[i] != Distinct(s)[j]
  {
    if s != [] {
      var n := |s| - 1;
      DistinctProperties(s[..n]);
      assert s == s[..n] + [s[n]];
    }
  }

  /** `Distinct` of a sequence extended by one position. */
  lemma DistinctSnoc(s: seq<BlockPos>, p: BlockPos)
    ensures Distinct(s + [p]) == if p in Distinct(s) then Distinct(s) else Distinct(s) + [p]
  {
    assert (s + [p])[..|s|] == s;
  }

  /** The tick that running the tasks `ts` produces. */
  function TickOf(ts: seq<Task>, outcome: Task -> Option<seq<BlockPos>>, probe: Task -> bool): Tick
  {
    Tick(ts, DisposeCalls(ts, probe), TickEvent("ticker:tick", Distinct(Collected(Results(ts, outcome)))))
  }

  /**
   * The inner loop of `runTasks`: add each position of one task's result
   * unless `elementInSet` finds an equal one already in `changedBlocks`.
   */
  method AddDistinct(ghost before: seq<BlockPos>, changedBlocks: seq<BlockPos>, ps: seq<BlockPos>) returns (r: seq<BlockPos>)
    requires changedBlocks == Distinct(before)
    ensures r == Distinct(before + ps)
  {
    r := changedBlocks;
    assert before + ps[..0] == before;
    var j := 0;
    while j < |ps|
      invariant 0 <= j <= |ps|
      invariant r == Distinct(before + ps[..j])
    {
      var blockPos := ps[j];
      assert before + ps[..j + 1] == (before + ps[..j]) + [blockPos];
      DistinctSnoc(before + ps[..j], blockPos);
      if !ElementInSet(blockPos, r) {
        r := r + [blockPos];
      }
      j := j + 1;
    }
    assert ps[..j] == ps;
  }

  /**
   * The update loop of `runTasks`: each task's `update` in list order, every
   * returned position added to `changedBlocks` unless `elementInSet` finds
   * an equal one there.
   */
  method UpdateAll(ts: seq<Task>, outcome: Task -> Option<seq<BlockPos>>) returns (updated: seq<Task>, changedBlocks: seq<BlockPos>)
    ensures updated == ts
    ensures changedBlocks == Distinct(Collected(Results(ts, outcome)))
  {
    changedBlocks := [];
    updated := [];
    var i := 0;
    while i < |ts|
      invariant 0 <= i <= |ts|
      invariant updated == ts[..i]
      invariant changedBlocks == Distinct(Collected(Results(ts[..i], outcome)))
    {
      var task := ts[i];
      var changedInTask := outcome(task);
      updated := updated + [task];
      ResultsStep(ts, outcome, i);
      if changedInTask.Some? {
        changedBlocks := AddDistinct(Collected(Results(ts[..i], outcome)), changedBlocks, changedInTask.value);
      } else {
        ghost var before := Collected(Results(ts[..i], outcome));
        assert before + [] == before;
      }
      assert ts[..i + 1] == ts[..i] + [task];
      i := i + 1;
    }
    assert ts[..|ts|] == ts;
  }

  class Ticker {
    /** The tasks run on each tick. */
    const tasks: TaskList
    /** When the ticker was started; `None` while stopped. */
    var startTime: Option<int>

    /** A stopped ticker with no tasks. */
    constructor()
      ensures fresh(tasks) && tasks.tasks == [] && startTime == None
    {
      tasks := new TaskList();
      startTime := None;
    }

    /**
     * `start`: nothing when already started; otherwise record the start time
     * and run the first tick at once (the later ticks are scheduled by a timer,
     * which is not modelled).
     */
    method Start(now: int, outcome: Task -> Option<seq<BlockPos>>, probe: Task -> bool) returns (tick: Option<Tick>)
      modifies this, tasks
      ensures old(startTime).Some? ==> startTime == old(startTime) && tasks.tasks == old(tasks.tasks) && tick == None
      ensures old(startTime).None? ==>
        startTime == Some(now) && tick == Some(TickOf(old(tasks.tasks), outcome, probe))
        && tasks.tasks == Survivors(old(tasks.tasks), probe)
    {
      if startTime.Some? {
        return None;
      }
      startTime := Some(now);
      var t := RunTasks(outcome, probe);
      tick := Some(t);
    }

    /** `stop`: back to the stopped state; nothing when already stopped. */
    method Stop()
      modifies this
      ensures startTime == None
    {
      if startTime.None? {
        return;
      }
      startTime := None;
    }

    /** `runTasks`: update every task, sweep, emit `"ticker:tick"` with the value-distinct positions. */
    method RunTasks(outcome: Task -> Option<seq<BlockPos>>, probe: Task -> bool) returns (tick: Tick)
      modifies tasks
      ensures tick == TickOf(old(tasks.tasks), outcome, probe)
      ensures tasks.tasks == Survivors(old(tasks.tasks), probe)
    {
      var updated, changedBlocks := UpdateAll(tasks.tasks, outcome);
      var disposeCalls := tasks.Sweep(probe);
      tick := Tick(updated, disposeCalls, TickEvent("ticker:tick", changedBlocks));
    }

    /** `getMillisecondsUntilNextTick` at clock time `now`. */
    function GetMillisecondsUntilNextTick(now: int): (r: Option<int>)
      reads this
      ensures r.None? <==> startTime.None?
      ensures startTime.Some? && now >= startTime.value ==>
        0 < r.value <= TickDuration && (now - startTime.value + r.value) % TickDuration == 0
    {
      MsUntilNextTick(startTime, now)
    }
  }

  /** The `"ticker:register"` handler: the task joins the ticker's list by priority. */
  method OnRegister(ticker: Ticker, task: Task)
    modifies ticker.tasks
    ensures ticker.tasks.tasks == Insert(old(ticker.tasks.tasks), task)
  {
    ticker.tasks.Add(task);
  }

  /**
   * One tick calls `update` on every task exactly once in list order, emits
   * `"ticker:tick"` carrying each position some task returned exactly once,
   * and calls `dispose` only on tasks it removes.
   */
  lemma TickOfProperties(ts: seq<Task>, outcome: Task -> Option<seq<BlockPos>>, probe: Task -> bool, p: BlockPos)
    ensures TickOf(ts, outcome, probe).updated == ts
    ensures TickOf(ts, outcome, probe).event.name == "ticker:tick"
    ensures p in TickOf(ts, outcome, probe).event.changedBlocks <==>
      exists i :: 0 <= i < |ts| && outcome(ts[i]).Some? && p in outcome(ts[i]).value
    ensures var c := TickOf(ts, outcome, probe).event.changedBlocks;
      forall i, j :: 0 <= i < j < |c| ==> c[i] != c[j]
    ensures forall t :: t in TickOf(ts, outcome, probe).disposeCalls ==> IsDisposed(t, probe) && t.hasDispose
  {
    CollectedMember(Results(ts, outcome), p);
    DistinctProperties(Collected(Results(ts, outcome)));
    forall t | t in TickOf(ts, outcome, probe).disposeCalls
      ensures IsDisposed(t, probe) && t.hasDispose
    {
      DisposeCallsCount(ts, probe, t);
    }
  }

  /**
   * A worked tick: one task returns two positions and a second task returns
   * the first of them again; the event reports each position once, in the
   * order first returned.
   */
  lemma TickExample(t1: Task, t2: Task, outcome: Task -> Option<seq<BlockPos>>, probe: Task -> bool)
    requires t1 != t2
    requires outcome(t1) == Some([BlockPos(0, 0, 0), BlockPos(1, 0, 0)])
    requires outcome(t2) == Some([BlockPos(0, 0, 0)])
    ensures TickOf([t1, t2], outcome, probe).event.changedBlocks == [BlockPos(0, 0, 0), BlockPos(1, 0, 0)]
  {
    var a, b := BlockPos(0, 0, 0), BlockPos(1, 0, 0);
    var rs := Results([t1, t2], outcome);
    assert rs == [Some([a, b]), Some([a])];
    assert rs[..1][..0] == [];
    assert Collected(rs[..1]) == [a, b];
    assert Collected(rs) == [a, b, a];
    var s := [a, b, a];
    assert s[..1] == [a] && s[..1][..0] == [];
    assert s[..2] == [a, b] && s[..2][..1] == [a];
    assert Distinct(s[..2]) == [a, b];
  }
}
