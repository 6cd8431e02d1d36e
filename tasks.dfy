/**
 * The priority task list of the ticker (`TaskList`). A task is a value: its
 * `update` and `dispose` functions are not modelled as code, only whether a
 * `dispose` function exists; a `disposed` function is answered by a probe
 * supplied by the caller. The list of src/tick.ts and src/tick/tick.ts is the
 * same code; `clear` exists only in src/tick/tick.ts.
 */
module Tasks {
  import opened Common

  /** The `disposed` member of a task: absent, a boolean, or a function to call. */
  datatype Disposed = Absent | Flag(flag: bool) | Probe

  /** A ticker task: an identity, its priority, its `disposed` member and whether it has `dispose`. */
  datatype Task = Task(id: int, priority: int, disposed: Disposed, hasDispose: bool)

  /**
   * `isDisposed`: an absent member means not disposed, a boolean is used as
   * is, and a function is called (its answer is `probe(t)`).
   */
  function IsDisposed(t: Task, probe: Task -> bool): (r: bool)
    ensures t.disposed.Absent? ==> !r
    ensures t.disposed.Flag? ==> (r <==> t.disposed.flag)
    ensures t.disposed.Probe? ==> (r <==> probe(t))
  {
    match t.disposed
    case Absent => false
    case Flag(b) => b
    case Probe => probe(t)
  }

  /** Non-increasing priority: higher priority first. */
  predicate Sorted(s: seq<Task>)
  {
    forall i, j :: 0 <= i < j < |s| ==> s[i].priority >= s[j].priority
  }

  /** Where the shifting loop of `add` stops: below every trailing task of strictly lower priority. */
  function ScanStop(s: seq<Task>, p: int): (k: nat)
    ensures k <= |s|
    ensures k > 0 ==> s[k - 1].priority >= p
    ensures k < |s| ==> s[|s| - 1].priority < p
  {
    if s == [] then 0
    else if s[|s| - 1].priority < p then ScanStop(s[..|s| - 1], p)
    else |s|
  }

  /** The list after `add(t)`: `t` placed at the stop of the scan. */
  function Insert(s: seq<Task>, t: Task): seq<Task>
  {
    var k := ScanStop(s, t.priority);
    s[..k] + [t] + s[k..]
  }

  /** The list after `add(t)` is the old list with `t` inserted at the stop of the scan, and no other change. */
  lemma InsertContents(s: seq<Task>, t: Task)
    ensures |Insert(s, t)| == |s| + 1
    ensures multiset(Insert(s, t)) == multiset(s) + multiset{t}
    ensures var k := ScanStop(s, t.priority);
      Insert(s, t)[k] == t && Insert(s, t)[..k] + Insert(s, t)[k + 1..] == s
  {
    var k := ScanStop(s, t.priority);
    var lo, hi := s[..k], s[k..];
    assert Insert(s, t) == lo + [t] + hi;
    assert |lo| == k && lo + hi == s;
    Splice(lo, t, hi);
  }

  /** `t` placed between `lo` and `hi`: removing it gives `lo + hi` back. */
  lemma Splice(lo: seq<Task>, t: Task, hi: seq<Task>)
    ensures var r := lo + [t] + hi;
      |r| == |lo| + |hi| + 1 && r[|lo|] == t && r[..|lo|] + r[|lo| + 1..] == lo + hi
      && multiset(r) == multiset(lo + hi) + multiset{t}
  {
    var r := lo + [t] + hi;
    assert r[..|lo|] == lo && r[|lo| + 1..] == hi;
  }

  /** Index by index, the list after `add(t)`: the old tasks below the stop, `t`, the old tasks above it. */
  lemma InsertAt(s: seq<Task>, t: Task, i: int)
    requires 0 <= i <= |s|
    ensures |Insert(s, t)| == |s| + 1
    ensures var k := ScanStop(s, t.priority);
      Insert(s, t)[i] == if i < k then s[i] else if i == k then t else s[i - 1]
  {
  }

  /** Every task above the stop of the scan has a strictly lower priority than `p`. */
  lemma {:induction false} AfterStop(s: seq<Task>, p: int)
    ensures forall j :: ScanStop(s, p) <= j < |s| ==> s[j].priority < p
  {
    if s != [] && s[|s| - 1].priority < p {
      var n := |s| - 1;
      AfterStop(s[..n], p);
      forall j | ScanStop(s, p) <= j < n
        ensures s[j].priority < p
      {
        assert s[..n][j] == s[j];
      }
    }
  }

  /** One pair of positions of the list after `add(t)` is in priority order. */
  lemma InsertPair(s: seq<Task>, t: Task, i: int, j: int)
    requires Sorted(s)
    requires 0 <= i < j <= |s|
    ensures Insert(s, t)[i].priority >= Insert(s, t)[j].priority
  {
    var k := ScanStop(s, t.priority);
    InsertAt(s, t, i);
    InsertAt(s, t, j);
    if i < k && j == k {
      assert s[i].priority >= s[k - 1].priority;
    } else if i == k {
      AfterStop(s, t.priority);
      assert s[j - 1].priority < t.priority;
    } else if i < k {
      assert s[i].priority >= s[j - 1].priority;
    } else {
      assert s[i - 1].priority >= s[j - 1].priority;
    }
  }

  /**
   * On a sorted list, `add` keeps the list sorted by non-increasing priority
   * and places `t` after every task of priority at least its own (equal
   * priorities keep their insertion order) and before every lower one.
   */
  lemma InsertSorted(s: seq<Task>, t: Task)
    requires Sorted(s)
    ensures Sorted(Insert(s, t))
    ensures var k := ScanStop(s, t.priority);
      && (forall j :: 0 <= j < k ==> s[j].priority >= t.priority)
      && (forall j :: k <= j < |s| ==> s[j].priority < t.priority)
  {
    var r := Insert(s, t);
    assert Sorted(r) by {
      InsertAt(s, t, 0);
      forall i, j | 0 <= i < j < |r|
        ensures r[i].priority >= r[j].priority
      {
        InsertPair(s, t, i, j);
      }
    }
    BeforeStop(s, t.priority);
    AfterStop(s, t.priority);
  }

  /** On a sorted list, every task below the stop of the scan has priority at least `p`. */
  lemma BeforeStop(s: seq<Task>, p: int)
    requires Sorted(s)
    ensures forall j :: 0 <= j < ScanStop(s, p) ==> s[j].priority >= p
  {
    var k := ScanStop(s, p);
    forall j | 0 <= j < k
      ensures s[j].priority >= p
    {
      assert s[j].priority >= s[k - 1].priority;
    }
  }

  /** The worked example of the task list tests: adding priorities 2, 1, 3 gives 3, 2, 1. */
  lemma InsertExample(t1: Task, t2: Task, t3: Task)
    requires t1.priority == 1 && t2.priority == 2 && t3.priority == 3
    ensures Insert(Insert(Insert([], t2), t1), t3) == [t3, t2, t1]
  {
    assert Insert([], t2) == [t2];
    assert ScanStop([t2], 1) == 1;
    assert Insert([t2], t1) == [t2, t1];
    assert ScanStop([t2, t1], 3) == 0 by {
      assert [t2, t1][..1] == [t2];
    }
  }

  /** The tasks `sweep` keeps: those not disposed, in their order. */
  function Survivors(s: seq<Task>, probe: Task -> bool): seq<Task>
  {
    if s == [] then []
    else
      var t := s[|s| - 1];
      Survivors(s[..|s| - 1], probe) + (if IsDisposed(t, probe) then [] else [t])
  }

  /** The tasks whose `dispose` `sweep` calls, in order: the removed ones that have it. */
  function DisposeCalls(s: seq<Task>, probe: Task -> bool): seq<Task>
  {
    if s == [] then []
    else
      var t := s[|s| - 1];
      DisposeCalls(s[..|s| - 1], probe) + (if IsDisposed(t, probe) && t.hasDispose then [t] else [])
  }

  /**
   * `sweep` keeps exactly the tasks that are not disposed, each as many times
   * as it occurred.
   */
  lemma {:induction false} SurvivorsCount(s: seq<Task>, probe: Task -> bool, t: Task)
    ensures multiset(Survivors(s, probe))[t] == if IsDisposed(t, probe) then 0 else multiset(s)[t]
  {
    if s != [] {
      var n := |s| - 1;
      SurvivorsCount(s[..n], probe, t);
      SurvivorsCountStep(s[..n], s[n], probe, t);
      SplitLast(s);
    }
  }

  /** The induction step of `SurvivorsCount`: one more task at the end. */
  lemma SurvivorsCountStep(p: seq<Task>, x: Task, probe: Task -> bool, t: Task)
    requires multiset(Survivors(p, probe))[t] == if IsDisposed(t, probe) then 0 else multiset(p)[t]
    ensures multiset(Survivors(p + [x], probe))[t] == if IsDisposed(t, probe) then 0 else multiset(p + [x])[t]
  {
    assert (p + [x])[..|p|] == p;
    var kept := if IsDisposed(x, probe) then [] else [x];
    assert Survivors(p + [x], probe) == Survivors(p, probe) + kept;
  }

  /**
   * `sweep` calls `dispose` once for each occurrence of a removed task that
   * has one, and never for a kept task.
   */
  lemma {:induction false} DisposeCallsCount(s: seq<Task>, probe: Task -> bool, t: Task)
    ensures multiset(DisposeCalls(s, probe))[t] ==
      (if IsDisposed(t, probe) && t.hasDispose then multiset(s)[t] else 0)
  {
    if s != [] {
      var n := |s| - 1;
      DisposeCallsCount(s[..n], probe, t);
      DisposeCallsCountStep(s[..n], s[n], probe, t);
      SplitLast(s);
    }
  }

  /** The induction step of `DisposeCallsCount`: one more task at the end. */
  lemma DisposeCallsCountStep(p: seq<Task>, x: Task, probe: Task -> bool, t: Task)
    requires multiset(DisposeCalls(p, probe))[t] == (if IsDisposed(t, probe) && t.hasDispose then multiset(p)[t] else 0)
    ensures multiset(DisposeCalls(p + [x], probe))[t] ==
      (if IsDisposed(t, probe) && t.hasDispose then multiset(p + [x])[t] else 0)
  {
    assert (p + [x])[..|p|] == p;
    var called := if IsDisposed(x, probe) && x.hasDispose then [x] else [];
    assert DisposeCalls(p + [x], probe) == DisposeCalls(p, probe) + called;
  }

  /** `sweep` keeps a sorted list sorted. */
  lemma {:induction false} SurvivorsSorted(s: seq<Task>, probe: Task -> bool)
    requires Sorted(s)
    ensures Sorted(Survivors(s, probe))
  {
    if s != [] {
      var n := |s| - 1;
      assert Sorted(s[..n]);
      SurvivorsSorted(s[..n], probe);
      var prefix := Survivors(s[..n], probe);
      SurvivorsSubset(s[..n], probe);
      forall i | 0 <= i < |prefix|
        ensures prefix[i].priority >= s[n].priority
      {
        assert prefix[i] in s[..n];
      }
    }
  }

  /** Every survivor is a task of the list. */
  lemma {:induction false} SurvivorsSubset(s: seq<Task>, probe: Task -> bool)
    ensures forall t :: t in Survivors(s, probe) ==> t in s && !IsDisposed(t, probe)
  {
    if s != [] {
      SurvivorsSubset(s[..|s| - 1], probe);
    }
  }

  /** The worked example of the sweep tests: of priorities 4, 3, 2, 1 with 4 and 2 disposed, 3 and 1 stay. */
  lemma SweepExample(t1: Task, t2: Task, t3: Task, t4: Task, probe: Task -> bool)
    requires t2.disposed == Flag(true) && t4.disposed == Flag(true)
    requires t1.disposed == Absent && t3.disposed == Absent
    ensures Survivors([t4, t3, t2, t1], probe) == [t3, t1]
  {
    assert [t4][..0] == [];
    assert Survivors([t4], probe) == [];
    assert [t4, t3][..1] == [t4];
    assert Survivors([t4, t3], probe) == [t3];
    assert [t4, t3, t2][..2] == [t4, t3];
    assert Survivors([t4, t3, t2], probe) == [t3];
    assert [t4, t3, t2, t1][..3] == [t4, t3, t2];
  }

  /** One step of the shifting loop of `add`: the task below the free slot moves up into it. */
  lemma ShiftDown(tasks: seq<Task>, i: int, held: Task)
    requires 0 < i <= |tasks|
    ensures (tasks[..i] + [held] + tasks[i..])[i := tasks[i - 1]] == tasks[..i - 1] + [tasks[i - 1]] + tasks[i - 1..]
  {
    var lhs := (tasks[..i] + [held] + tasks[i..])[i := tasks[i - 1]];
    var rhs := tasks[..i - 1] + [tasks[i - 1]] + tasks[i - 1..];
    assert |lhs| == |rhs|;
    forall j | 0 <= j < |lhs|
      ensures lhs[j] == rhs[j]
    {
    }
  }

  /** Writing `t` into the slot between `lo` and `hi`. */
  lemma FillSlot(lo: seq<Task>, held: Task, hi: seq<Task>, t: Task)
    ensures (lo + [held] + hi)[|lo| := t] == lo + [t] + hi
  {
    var lhs := (lo + [held] + hi)[|lo| := t];
    forall j | 0 <= j < |lhs|
      ensures lhs[j] == (lo + [t] + hi)[j]
    {
    }
  }

  class TaskList {
    /** The tasks, highest priority first. */
    var tasks: seq<Task>

    /** An empty task list. */
    constructor()
      ensures tasks == []
    {
      tasks := [];
    }

    /**
     * `add`: shift every trailing task of strictly lower priority up by one
     * slot, then write the new task into the freed slot.
     */
    method Add(task: Task)
      modifies this
      ensures tasks == Insert(old(tasks), task)
    {
      var s := tasks + [task];
      var i := |tasks|;
      ghost var held := task;
      assert tasks[..i] == tasks && tasks[i..] == [];
      while i > 0 && s[i - 1].priority < task.priority
        invariant 0 <= i <= |tasks| && tasks == old(tasks)
        invariant s == tasks[..i] + [held] + tasks[i..]
        invariant ScanStop(tasks, task.priority) == ScanStop(tasks[..i], task.priority)
      {
        assert s[i - 1] == tasks[..i][i - 1] == tasks[i - 1];
        assert tasks[..i][..i - 1] == tasks[..i - 1];
        ShiftDown(tasks, i, held);
        s := s[i := s[i - 1]];
        held := tasks[i - 1];
        i := i - 1;
      }
      if i > 0 {
        assert s[i - 1] == tasks[..i][i - 1];
      }
      assert ScanStop(tasks[..i], task.priority) == i;
      FillSlot(tasks[..i], held, tasks[i..], task);
      s := s[i := task];
      tasks := s;
    }

    /** `sweep`: drop the disposed tasks, calling `dispose` on each dropped task that has one. */
    method Sweep(probe: Task -> bool) returns (disposeCalls: seq<Task>)
      modifies this
      ensures tasks == Survivors(old(tasks), probe)
      ensures disposeCalls == DisposeCalls(old(tasks), probe)
    {
      var kept := [];
      disposeCalls := [];
      var i := 0;
      while i < |tasks|
        invariant 0 <= i <= |tasks|
        invariant kept == Survivors(tasks[..i], probe)
        invariant disposeCalls == DisposeCalls(tasks[..i], probe)
      {
        var t := tasks[i];
        assert tasks[..i + 1][..i] == tasks[..i];
        if !IsDisposed(t, probe) {
          kept := kept + [t];
        } else if t.hasDispose {
          disposeCalls := disposeCalls + [t];
        }
        i := i + 1;
      }
      assert tasks[..|tasks|] == tasks;
      tasks := kept;
    }

    /** `clear`: remove every task. */
    method Clear()
      modifies this
      ensures tasks == []
    {
      tasks := [];
    }
  }
}
