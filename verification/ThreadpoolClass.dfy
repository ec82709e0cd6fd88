/**
 threadpool_t itself: the fields and arrays, and the sections that update them in
 place while holding `lock` (or `thread_counter`).  Each one refines the update
 of PoolData that the transition system uses.
 */
module ThreadpoolClass {
  import opened Basics
  import opened TaskRing
  import opened PoolData

  /** What a section does to the two condition variables. */
  datatype Notice = Silent | SignalNotEmpty | BroadcastNotEmpty | BroadcastNotFull

  class Threadpool {
    const minThrNum: nat
    const maxThrNum: nat
    const queueMaxSize: nat
    const threads: array<Option<Tid>>
    const taskQueue: array<Ticket>

    var liveThrNum: int
    var busyThrNum: int
    var waitExitThrNum: int
    var queueFront: nat
    var queueRear: nat
    var queueSize: nat
    var shutdown: bool

    ghost function View(): Shared
      reads this, threads, taskQueue
    {
      Shared(minThrNum, maxThrNum, Ring(taskQueue[..], queueFront, queueRear, queueSize), threads[..],
             liveThrNum, busyThrNum, waitExitThrNum, shutdown)
    }

    ghost predicate Valid()
      reads this, threads, taskQueue
    {
      && threads.Length == maxThrNum && taskQueue.Length == queueMaxSize
      && WellFormed(View().ring)
    }

    /** threadpool_create; starting a worker records its id in the table. */
    constructor (min: nat, max: nat, queueMax: nat)
      requires min <= max && 1 <= queueMax
      ensures Valid() && View() == Create(min, max, queueMax)
      ensures liveThrNum == min && busyThrNum == waitExitThrNum == 0 && queueSize == queueFront == 0 && !shutdown
      ensures forall i :: 0 <= i < max ==> threads[i] == if i < min then Some(i) else None
      ensures fresh(threads) && fresh(taskQueue)
    {
      minThrNum, maxThrNum, queueMaxSize := min, max, queueMax;
      busyThrNum, liveThrNum, waitExitThrNum := 0, min, 0;
      queueSize, queueFront, queueRear := 0, 0, 0;
      shutdown := false;
      threads := new Option<Tid>[max](_ => None);
      taskQueue := new Ticket[queueMax](_ => 0);
      new;
      for i := 0 to min
        invariant forall j :: 0 <= j < max ==> threads[j] == if j < i then Some(j) else None
        modifies threads
      {
        threads[i] := Some(i);
      }
      ModWrap(0, 0, queueMax);
      assert View() == Create(min, max, queueMax);
    }

    /** threadpool_add from the shutdown check on; `stored` is false after shutdown.
        A stored task signals one worker, a refused one wakes them all. */
    method Add(t: Ticket) returns (stored: bool, notice: Notice)
      requires Valid() && (queueSize < queueMaxSize || shutdown)
      modifies this`queueRear, this`queueSize, taskQueue
      ensures Valid() && stored == !shutdown
      ensures notice == if stored then SignalNotEmpty else BroadcastNotEmpty
      ensures stored ==> View() == AddTask(old(View()), t)
                         && Contents(View().ring) == old(Contents(View().ring)) + [t]
      ensures !stored ==> View() == old(View())
    {
      if shutdown {
        return false, BroadcastNotEmpty;
      }
      PutAppends(View().ring, t);
      taskQueue[queueRear] := t;
      queueRear := (queueRear + 1) % queueMaxSize;
      queueSize := queueSize + 1;
      assert View() == AddTask(old(View()), t);
      return true, SignalNotEmpty;
    }

    /** threadpool_thread from the shutdown check on; None means the worker exits.
        Every task taken wakes all waiting producers. */
    method Take() returns (t: Option<Ticket>, notice: Notice)
      requires Valid() && (queueSize > 0 || shutdown)
      modifies this`queueFront, this`queueSize
      ensures Valid() && (t == None <==> shutdown)
      ensures notice == if t.Some? then BroadcastNotFull else Silent
      ensures t.Some? ==> (t.value, View()) == TakeTask(old(View()))
                          && old(Contents(View().ring)) == [t.value] + Contents(View().ring)
      ensures t == None ==> View() == old(View())
    {
      if shutdown {
        return None, Silent;
      }
      DropRemovesOldest(View().ring);
      t, notice := Some(taskQueue[queueFront]), BroadcastNotFull;
      queueFront := (queueFront + 1) % queueMaxSize;
      queueSize := queueSize - 1;
      assert View() == TakeTask(old(View())).1;
    }

    /** What a worker does on returning from its wait. */
    method CheckRetire() returns (retires: bool)
      requires Valid()
      modifies this`waitExitThrNum, this`liveThrNum
      ensures Valid() && (retires, View()) == RetireCheck(old(View()))
      ensures retires <==> old(waitExitThrNum) > 0 && old(liveThrNum) > minThrNum
      ensures waitExitThrNum == old(waitExitThrNum) - if old(waitExitThrNum) > 0 then 1 else 0
      ensures liveThrNum == old(liveThrNum) - if retires then 1 else 0
    {
      if waitExitThrNum > 0 {
        waitExitThrNum := waitExitThrNum - 1;
        if liveThrNum > minThrNum {
          liveThrNum := liveThrNum - 1;
          return true;
        }
      }
      return false;
    }

    method CountBusy(d: int)
      requires Valid()
      modifies this`busyThrNum
      ensures Valid() && View() == old(View()).(busy := old(View()).busy + d)
    {
      busyThrNum := busyThrNum + d;
    }

    method Arm()
      requires Valid()
      modifies this`waitExitThrNum
      ensures Valid() && View() == ArmShrink(old(View())) && waitExitThrNum == 10
    {
      waitExitThrNum := DEFAULT_THREAD_VARY;
    }

    /** The manager's growth loop; `alive[i]` stands for is_thread_alive on slot i
        and new threads get the ids tid, tid + 1, ... */
    method Grow(tid: Tid, alive: seq<bool>) returns (add: nat)
      requires Valid() && |alive| == maxThrNum
      modifies this`liveThrNum, threads
      ensures Valid() && (View(), add) == Scan(old(View()), 0, 0, tid, alive)
    {
      add := 0;
      var i := 0;
      while i < maxThrNum && add < DEFAULT_THREAD_VARY && liveThrNum < maxThrNum
        invariant i <= maxThrNum && Valid()
        invariant Scan(View(), i, add, tid + add, alive) == Scan(old(View()), 0, 0, tid, alive)
        invariant taskQueue[..] == old(taskQueue[..])
        decreases maxThrNum - i
      {
        ghost var before := View();
        if threads[i] == None || !alive[i] {
          threads[i] := Some(tid + add);
          add := add + 1;
          liveThrNum := liveThrNum + 1;
          assert View() == Spawn(before, i, tid + add - 1);
        }
        i := i + 1;
      }
    }

    method SetShutdown()
      requires Valid()
      modifies this`shutdown
      ensures Valid() && View() == old(View()).(shutdown := true)
    {
      shutdown := true;
    }
  }
}
