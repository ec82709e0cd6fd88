/**
 A run in which the pthread pool loses a wake-up: the signal for a task goes to a
 worker that retires, and its task stays queued beside a sleeping worker with no
 signal under way.  One to two workers, one producer, a queue of ten.
 */
module PthreadLostWakeup {
  import opened Basics
  import opened Counting
  import opened Runs
  import opened TaskRing
  import opened PoolData
  import opened PthreadPool
  import opened PthreadInvariants
  import opened PthreadTheorems

  lemma ReachableNext(s: Pool, a: Action, t: Pool)
    requires Reachable(s) && Step(s, a) == Some(t)
    ensures Reachable(t)
  {
    var min: nat, max: nat, queueMax: nat, producers: nat, acts: seq<Action> :|
      ValidArguments(min, max, queueMax) && Exec(Step, Init(min, max, queueMax, producers), acts) == Some(s);
    ExecNext(Step, Init(min, max, queueMax, producers), acts, s, a, t);
  }

  /** Everybody outside the lock, the one producer idle, no shutdown. */
  ghost predicate Calm(s: Pool) {
    Reachable(s) && s.owner == Nobody && s.producers == [Idle] && !s.sh.shutdown
  }

  /** Only the queue and its history may differ. */
  ghost predicate OnlyQueue(s: Pool, t: Pool) {
    t == s.(sh := s.sh.(ring := t.sh.ring), taken := t.taken, takenBy := t.takenBy, runs := t.runs)
    && |t.sh.ring.slots| == |s.sh.ring.slots|
  }

  /** The producer on its way to the store. */
  lemma ReachStore(s: Pool) returns (t: Pool)
    requires Calm(s) && s.sh.ring.size < |s.sh.ring.slots|
    ensures Reachable(t) && t == s.(owner := OfProducer(0), producers := [PEnqueue])
  {
    var s1 := s.(producers := [PLock]);
    assert s.producers[0 := PLock] == [PLock];
    ReachableNext(s, P(0, None), s1);
    var s2 := s.(owner := OfProducer(0), producers := [PWhile]);
    assert s1.producers[0 := PWhile] == [PWhile];
    ReachableNext(s1, P(0, None), s2);
    var s3 := s2.(producers := [PCheck]);
    assert s2.producers[0 := PCheck] == [PCheck];
    ReachableNext(s2, P(0, None), s3);
    t := s3.(producers := [PEnqueue]);
    assert s3.producers[0 := PEnqueue] == [PEnqueue];
    ReachableNext(s3, P(0, None), t);
  }

  /** One threadpool_add; `target` is the worker its signal wakes. */
  lemma AddOne(s: Pool, target: Option<nat>) returns (t: Pool)
    requires Calm(s) && s.sh.ring.size < |s.sh.ring.slots| && Signal(s.workers, target).Some?
    ensures Calm(t) && OnlyQueue(s.(workers := t.workers), t) && t.workers == Signal(s.workers, target).value
    ensures t.sh.ring.size == s.sh.ring.size + 1
  {
    Safety(s);
    ModWrap(s.sh.ring.front, s.sh.ring.size, |s.sh.ring.slots|);
    var u := ReachStore(s);
    assert u.producers[0 := Idle] == [Idle];
    t := EnqueueStep(u, 0, target).value;
    ReachableNext(u, P(0, target), t);
  }

  lemma {:induction false} AddMany(s: Pool, k: nat) returns (t: Pool)
    requires Calm(s) && s.sh.ring.size + k <= |s.sh.ring.slots| && !SomeAsleep(s.workers)
    ensures Calm(t) && OnlyQueue(s, t) && t.sh.ring.size == s.sh.ring.size + k
    decreases k
  {
    t := s;
    if k > 0 {
      t := AddOne(s, None);
      t := AddMany(t, k - 1);
    }
  }

  /** A worker on its way to the queue. */
  lemma ReachQueue(s: Pool, w: nat) returns (t: Pool)
    requires Calm(s) && w < |s.workers| && s.workers[w] == AtLock && s.sh.ring.size > 0
    ensures Reachable(t) && t == s.(owner := OfWorker(w), workers := s.workers[w := AtDequeue(false)])
  {
    var s1 := s.(owner := OfWorker(w), workers := s.workers[w := AtWhile(false)]);
    ReachableNext(s, W(w), s1);
    var s2 := s1.(workers := s.workers[w := AtShutdownCheck(false)]);
    assert s1.workers[w := AtShutdownCheck(false)] == s2.workers;
    ReachableNext(s1, W(w), s2);
    t := s2.(workers := s.workers[w := AtDequeue(false)]);
    assert s2.workers[w := AtDequeue(false)] == t.workers;
    ReachableNext(s2, W(w), t);
  }

  /** Taking and executing one task. */
  lemma WorkOne(s: Pool, w: nat) returns (t: Pool)
    requires Calm(s) && w < |s.workers| && s.workers[w] == AtLock && s.sh.ring.size > 0
    ensures Calm(t) && OnlyQueue(s, t) && t.sh.ring.size == s.sh.ring.size - 1
  {
    var u := ReachQueue(s, w);
    Safety(u);
    var s1 := DequeueStep(u, w).value;
    assert WakeProducers(u.producers) == [Idle];
    ReachableNext(u, W(w), s1);
    t := FinishTask(s1, w);
    assert t.workers == s.workers;
  }

  lemma FinishTask(s: Pool, w: nat) returns (t: Pool)
    requires Calm(s) && w < |s.workers| && s.workers[w].Taken?
    ensures Calm(t) && t == s.(workers := s.workers[w := AtLock], runs := t.runs)
  {
    Safety(s);
    var k := s.workers[w].ticket;
    var s1 := s.(workers := s.workers[w := Running(k)], sh := s.sh.(busy := s.sh.busy + 1));
    ReachableNext(s, W(w), s1);
    var s2 := s1.(workers := s.workers[w := Finished], runs := s.runs[k := s.runs[k] + 1]);
    assert s1.workers[w := Finished] == s2.workers;
    ReachableNext(s1, W(w), s2);
    t := s2.(workers := s.workers[w := AtLock], sh := s.sh);
    assert s2.workers[w := AtLock] == t.workers;
    ReachableNext(s2, W(w), t);
  }

  lemma {:induction false} WorkMany(s: Pool, w: nat, k: nat) returns (t: Pool)
    requires Calm(s) && w < |s.workers| && s.workers[w] == AtLock && k <= s.sh.ring.size
    ensures Calm(t) && OnlyQueue(s, t) && t.sh.ring.size == s.sh.ring.size - k
    decreases k
  {
    t := s;
    if k > 0 {
      t := WorkOne(s, w);
      t := WorkMany(t, w, k - 1);
    }
  }

  lemma FallAsleep(s: Pool, w: nat) returns (t: Pool)
    requires Calm(s) && w < |s.workers| && s.workers[w] == AtLock && s.sh.ring.size == 0
    ensures Calm(t) && t == s.(workers := s.workers[w := Asleep])
  {
    var s1 := s.(owner := OfWorker(w), workers := s.workers[w := AtWhile(false)]);
    ReachableNext(s, W(w), s1);
    var s2 := s1.(workers := s.workers[w := AboutToWait]);
    assert s1.workers[w := AboutToWait] == s2.workers;
    ReachableNext(s1, W(w), s2);
    t := s2.(owner := Nobody, workers := s.workers[w := Asleep]);
    assert s2.workers[w := Asleep] == t.workers;
    ReachableNext(s2, W(w), t);
  }

  // ---- The manager's two rounds -------------------------------------------------------------

  /** A manager round up to its growth test. */
  lemma TakeSnapshots(s: Pool) returns (t: Pool)
    requires Calm(s) && s.mgr == MLoop
    ensures Reachable(t) && t == s.(mgr := MGrowTest(s.sh.ring.size, s.sh.live, s.sh.busy))
  {
    var s1 := s.(mgr := MSleep);
    ReachableNext(s, M(None, true), s1);
    var s2 := s.(mgr := MSnapshot, owner := OfManager);
    ReachableNext(s1, M(None, true), s2);
    var s3 := s.(mgr := MCount(s.sh.ring.size, s.sh.live));
    ReachableNext(s2, M(None, true), s3);
    t := s.(mgr := MGrowTest(s.sh.ring.size, s.sh.live, s.sh.busy));
    ReachableNext(s3, M(None, true), t);
  }

  /** The growth round takes the lock: ten queued tasks, one worker of two. */
  lemma StartScan(s: Pool) returns (t: Pool)
    requires Calm(s) && s.mgr == MLoop && s.sh.max == 2 && s.sh.live == 1 && s.sh.busy == 0 && s.sh.ring.size == 10
    ensures Reachable(t) && t == s.(mgr := MGrow(0, 0, 1, 0), owner := OfManager)
  {
    var s1 := TakeSnapshots(s);
    var s2 := s.(mgr := MGrowLock(1, 0));
    ReachableNext(s1, M(None, true), s2);
    t := s.(mgr := MGrow(0, 0, 1, 0), owner := OfManager);
    ReachableNext(s2, M(None, true), t);
  }

  /** The scan keeps the first slot and fills the second. */
  lemma ScanTwo(s: Pool) returns (t: Pool)
    requires Reachable(s) && s.mgr == MGrow(0, 0, 1, 0) && s.sh.max == 2 && s.sh.live == 1
    requires s.sh.threads == [Some(0), None] && s.workers == [AtLock]
    ensures Reachable(t)
    ensures t == s.(mgr := MGrow(2, 1, 1, 0), sh := s.sh.(live := 2, threads := [Some(0), Some(1)]),
                    workers := [AtLock, AtLock], home := s.home + [1])
  {
    var s1 := s.(mgr := MGrow(1, 0, 1, 0));
    ReachableNext(s, M(None, true), s1);
    t := s.(mgr := MGrow(2, 1, 1, 0), sh := s.sh.(live := 2, threads := [Some(0), Some(1)]),
            workers := [AtLock, AtLock], home := s.home + [1]);
    assert s.sh.threads[1 := Some(1)] == [Some(0), Some(1)] && s.workers + [AtLock] == [AtLock, AtLock];
    ReachableNext(s1, M(None, true), t);
  }

  lemma GrowByOne(s: Pool) returns (t: Pool)
    requires Calm(s) && s.mgr == MLoop && s.sh.min == 1 && s.sh.max == 2 && s.sh.live == 1 && s.sh.busy == 0
    requires s.sh.ring.size == 10 && s.sh.threads == [Some(0), None] && s.workers == [AtLock]
    ensures Calm(t) && t.mgr == MLoop && t.workers == [AtLock, AtLock]
    ensures t.sh == s.sh.(live := 2, threads := [Some(0), Some(1)])
  {
    var s1 := StartScan(s);
    var s2 := ScanTwo(s1);
    var s3 := s2.(mgr := MShrinkTest(1, 0), owner := Nobody);
    ReachableNext(s2, M(None, true), s3);
    t := s3.(mgr := MLoop);
    ReachableNext(s3, M(None, true), t);
  }

  /** Signals sent while nobody sleeps are lost. */
  lemma {:induction false} SignalNobody(s: Pool, k: nat) returns (t: Pool)
    requires Calm(s) && s.mgr == MSignal(k) && k <= DEFAULT_THREAD_VARY && !SomeAsleep(s.workers)
    ensures Calm(t) && t == s.(mgr := MLoop)
    decreases DEFAULT_THREAD_VARY - k
  {
    t := s.(mgr := if k == DEFAULT_THREAD_VARY then MLoop else MSignal(k + 1));
    ReachableNext(s, M(None, true), t);
    if k < DEFAULT_THREAD_VARY {
      t := SignalNobody(t, k + 1);
    }
  }

  /** The shrink round arms retirement while both workers are awake. */
  lemma ArmUnheard(s: Pool) returns (t: Pool)
    requires Calm(s) && s.mgr == MLoop && s.sh.min == 1 && s.sh.max == 2 && s.sh.live == 2 && s.sh.busy == 0
    requires !SomeAsleep(s.workers)
    ensures Calm(t) && t == s.(sh := s.sh.(waitExit := 10))
  {
    var s1 := TakeSnapshots(s);
    var s2 := s.(mgr := MShrinkTest(2, 0));
    ReachableNext(s1, M(None, true), s2);
    var s3 := s.(mgr := MShrinkLock);
    ReachableNext(s2, M(None, true), s3);
    var s4 := s.(mgr := MShrink, owner := OfManager);
    ReachableNext(s3, M(None, true), s4);
    var s5 := s.(mgr := MSignal(0), sh := s.sh.(waitExit := 10));
    ReachableNext(s4, M(None, true), s5);
    t := SignalNobody(s5, 0);
  }

  // ---- The loss -----------------------------------------------------------------------------------

  lemma BothAsleep() returns (s: Pool)
    ensures Calm(s) && s.workers == [Asleep, Asleep] && s.mgr == MLoop && s.sh.ring.size == 0
    ensures s.sh.waitExit == 10 && s.sh.live == 2 && s.sh.min == 1 && |s.sh.ring.slots| == 10
  {
    s := Init(1, 2, 10, 1);
    assert Exec(Step, s, []) == Some(s);
    assert s.producers == [Idle] && s.workers == [AtLock] && s.sh.threads == [Some(0), None];
    s := AddMany(s, 10);
    s := GrowByOne(s);
    s := ArmUnheard(s);
    s := WorkMany(s, 0, 10);
    s := FallAsleep(s, 0);
    s := FallAsleep(s, 1);
  }

  /** The signal for a task goes to worker 0, which retires. */
  lemma RetireSignalled(s0: Pool) returns (s: Pool)
    requires Calm(s0) && s0.workers == [Woken(true), Asleep]
    requires s0.sh.waitExit == 10 && s0.sh.live == 2 && s0.sh.min == 1
    ensures Calm(s) && s == s0.(workers := [Leaving(true), Asleep], sh := s0.sh.(waitExit := 9, live := 1))
  {
    var s1 := s0.(owner := OfWorker(0), workers := [Resumed(true), Asleep]);
    assert s0.workers[0 := Resumed(true)] == s1.workers;
    ReachableNext(s0, W(0), s1);
    s := s0.(workers := [Leaving(true), Asleep], sh := s0.sh.(waitExit := 9, live := 1));
    assert s1.workers[0 := Leaving(true)] == s.workers;
    ReachableNext(s1, W(0), s);
  }

  lemma NobodySignalled(s: Pool)
    requires s.workers == [Leaving(true), Asleep]
    ensures SomeAsleep(s.workers) && Pledges(s) == 0
  {
    assert s.workers[1] == Asleep;
    SumZero(s.workers, Pledge);
  }

  /** Retirement can cost a wake-up: a task is queued, the only worker that has not
      retired sleeps, no signal is on its way, and no such worker can move. */
  lemma WakeupCanBeLost() returns (s: Pool)
    ensures Reachable(s) && !s.sh.shutdown && !Covered(s)
    ensures s.owner == Nobody && s.mgr == MLoop && s.sh.ring.size == 1 && s.workers == [Leaving(true), Asleep]
    ensures forall w :: 0 <= w < |s.workers| && Unretired(s.workers[w]) == 1 ==> Step(s, W(w)) == None
  {
    var s0 := BothAsleep();
    assert s0.workers[0 := Woken(true)] == [Woken(true), Asleep];
    var s1 := AddOne(s0, Some(0));
    s := RetireSignalled(s1);
    NobodySignalled(s);
  }
}
