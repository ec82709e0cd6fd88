/**
 What threadpool_destory achieves although it writes the flag and broadcasts without
 holding `lock`: which workers can miss the broadcast, and that all others exit.
 */
module PthreadDestroy {
  import opened Basics
  import opened Counting
  import opened Runs
  import opened PoolData
  import opened PthreadPool
  import opened PthreadInvariants
  import PthreadManager
  import PthreadTheorems

  // ---- Nobody goes to sleep who was not already on the way -------------------------

  /** Asleep, or past the loop condition and about to be. */
  function Dozing(w: Worker): int { if w == Asleep || w == AboutToWait then 1 else 0 }

  ghost predicate SomeAboutToWait(s: Pool) { exists w :: 0 <= w < |s.workers| && s.workers[w] == AboutToWait }

  lemma DozingDelta(s: Pool, w: nat)
    requires s.sh.shutdown && WorkerStep(s, w).Some?
    ensures Dozing(WorkerStep(s, w).value.workers[w]) <= Dozing(s.workers[w])
  {
  }

  lemma DozingW(s: Pool, w: nat)
    requires s.sh.shutdown && WorkerStep(s, w).Some?
    ensures Sum(WorkerStep(s, w).value.workers, Dozing) <= Sum(s.workers, Dozing)
  {
    WorkerDelta(s, w);
    DozingDelta(s, w);
    SumUpdate(s.workers, w, WorkerStep(s, w).value.workers[w], Dozing);
  }

  lemma DozingP(s: Pool, p: nat, target: Option<nat>)
    requires ProducerStep(s, p, target).Some?
    ensures Sum(ProducerStep(s, p, target).value.workers, Dozing) <= Sum(s.workers, Dozing)
  {
    if s.producers[p].PEnqueue? {
      WakeChange(s.workers, target, Dozing);
    } else if s.producers[p].PCheck? {
      SumBelow(WakeWorkers(s.workers), s.workers, Dozing);
    }
  }

  lemma DozingM(s: Pool, target: Option<nat>, alive: bool)
    requires ManagerStep(s, target, alive).Some?
    ensures Sum(ManagerStep(s, target, alive).value.workers, Dozing) <= Sum(s.workers, Dozing)
  {
    if s.mgr.MSignal? && s.mgr.k < DEFAULT_THREAD_VARY {
      WakeChange(s.workers, target, Dozing);
    } else if s.mgr.MGrow? {
      SumAppend(s.workers, AtLock, Dozing);
    }
  }

  /** Once the flag is written, no step makes more workers sleep or about to. */
  lemma DozingNeverRises(s: Pool, a: Action)
    requires s.sh.shutdown && Step(s, a).Some?
    ensures Sum(Step(s, a).value.workers, Dozing) <= Sum(s.workers, Dozing)
  {
    match a {
      case W(w) => DozingW(s, w);
      case P(p, target) => DozingP(s, p, target);
      case M(target, alive) => DozingM(s, target, alive);
      case WSpurious(w) => SumUpdate(s.workers, w, Woken(false), Dozing);
      case DestroyBroadcast => SumBelow(WakeWorkers(s.workers), s.workers, Dozing);
      case _ =>
    }
  }

  /** The flag stays written, and the manager that has exited stays so. */
  lemma Stays(s: Pool, a: Action)
    requires Step(s, a).Some?
    ensures s.sh.shutdown ==> Step(s, a).value.sh.shutdown
    ensures s.mgr == MExited ==> Step(s, a).value.mgr == MExited
  {
    if !a.M? {
      PthreadManager.OthersLeaveManager(s, a);
    }
    if a != SetShutdown {
      PthreadTheorems.OnlySetShutdownSets(s, a);
    }
  }

  lemma {:induction false} DozingRun(s: Pool, acts: seq<Action>)
    requires s.sh.shutdown && Exec(Step, s, acts).Some?
    ensures Sum(Exec(Step, s, acts).value.workers, Dozing) <= Sum(s.workers, Dozing)
    decreases |acts|
  {
    if acts != [] {
      DozingNeverRises(s, acts[0]);
      Stays(s, acts[0]);
      DozingRun(Step(s, acts[0]).value, acts[1..]);
    }
  }

  /** A broadcast leaves only the lock's owner about to sleep, if it was. */
  lemma BroadcastLeaves(s: Pool)
    requires LockInv(s)
    ensures Sum(WakeWorkers(s.workers), Dozing) == if SomeAboutToWait(s) then 1 else 0
  {
    var ws := WakeWorkers(s.workers);
    if w :| 0 <= w < |s.workers| && s.workers[w] == AboutToWait {
      assert s.owner == OfWorker(w);
      SumUpdate(ws, w, Gone(false), Dozing);
      SumZero(ws[w := Gone(false)], Dozing);
    } else {
      SumZero(ws, Dozing);
    }
  }

  /** However the run goes on after a broadcast of destroy, at most one worker is ever
      asleep, and none unless a worker was between its loop condition and its wait. */
  lemma AtMostOneSleepsOn(s: Pool, u: Pool, acts: seq<Action>, t: Pool)
    requires Reachable(s) && Step(s, DestroyBroadcast) == Some(u) && Exec(Step, u, acts) == Some(t)
    ensures Sum(t.workers, Sleeping) <= if SomeAboutToWait(s) then 1 else 0
  {
    Safety(s);
    BroadcastLeaves(s);
    DozingRun(u, acts);
    SumMonotone(t.workers, Sleeping, Dozing);
  }

  lemma SleepsOnAfter(s: Pool, u: Pool, w: nat) returns (t: Pool)
    requires LockInv(s) && Step(s, DestroyBroadcast) == Some(u)
    requires w < |s.workers| && s.workers[w] == AboutToWait
    ensures Exec(Step, u, [W(w)]) == Some(t) && SomeAsleep(t.workers)
  {
    t := WorkerStep(u, w).value;
    assert t.workers[w] == Asleep;
    assert Exec(Step, t, []) == Some(t);
  }

  /** A worker can sleep on after a broadcast exactly when one was in that gap. */
  lemma BroadcastMissedExactlyWhen(s: Pool, u: Pool)
    requires Reachable(s) && Step(s, DestroyBroadcast) == Some(u)
    ensures SomeAboutToWait(s) <==>
              exists acts, t :: Exec(Step, u, acts) == Some(t) && SomeAsleep(t.workers)
  {
    Safety(s);
    if w :| 0 <= w < |s.workers| && s.workers[w] == AboutToWait {
      var t := SleepsOnAfter(s, u, w);
    }
    if acts, t :| Exec(Step, u, acts) == Some(t) && SomeAsleep(t.workers) {
      AtMostOneSleepsOn(s, u, acts, t);
      SumAtLeast(t.workers, Sleeping);
    }
  }

  // ---- Everybody else exits -------------------------------------------------------------

  /** How many steps a worker has left once the flag is written. */
  function Rank(w: Worker): int {
    match w
    case Gone(_) => 0
    case Leaving(_) => 1
    case AtShutdownCheck(_) => 2
    case AtWhile(_) => 3
    case AtLock => 4
    case Resumed(_) => 4
    case Woken(_) => 5
    case Finished => 5
    case Asleep => 6
    case Running(_) => 6
    case AboutToWait => 7
    case Taken(_) => 7
    case AtDequeue(_) => 8
  }

  ghost function WorkerSteps(acts: seq<Action>): nat {
    if acts == [] then 0 else (if acts[0].W? then 1 else 0) + WorkerSteps(acts[1..])
  }

  lemma HolderRank(s: Pool, w: nat)
    requires s.sh.shutdown && WorkerStep(s, w).Some? && HoldsW(s.workers[w])
    ensures Rank(WorkerStep(s, w).value.workers[w]) < Rank(s.workers[w])
  {
  }

  lemma OtherRank(s: Pool, w: nat)
    requires s.sh.shutdown && WorkerStep(s, w).Some? && !HoldsW(s.workers[w])
    ensures Rank(WorkerStep(s, w).value.workers[w]) < Rank(s.workers[w])
  {
  }

  lemma RankW(s: Pool, w: nat)
    requires s.sh.shutdown && WorkerStep(s, w).Some?
    ensures Sum(WorkerStep(s, w).value.workers, Rank) < Sum(s.workers, Rank)
  {
    if HoldsW(s.workers[w]) {
      HolderRank(s, w);
    } else {
      OtherRank(s, w);
    }
    WorkerDelta(s, w);
    SumUpdate(s.workers, w, WorkerStep(s, w).value.workers[w], Rank);
  }

  lemma RankP(s: Pool, p: nat, target: Option<nat>)
    requires ProducerStep(s, p, target).Some?
    ensures Sum(ProducerStep(s, p, target).value.workers, Rank) <= Sum(s.workers, Rank)
  {
    if s.producers[p].PEnqueue? {
      WakeChange(s.workers, target, Rank);
    } else if s.producers[p].PCheck? {
      SumBelow(WakeWorkers(s.workers), s.workers, Rank);
    }
  }

  /** Every worker step uses up a unit of the rank, and no other step adds to it. */
  lemma RankStep(s: Pool, a: Action)
    requires s.sh.shutdown && s.mgr == MExited && Step(s, a).Some?
    ensures Sum(Step(s, a).value.workers, Rank) <= Sum(s.workers, Rank) - (if a.W? then 1 else 0)
  {
    match a {
      case W(w) => RankW(s, w);
      case P(p, target) => RankP(s, p, target);
      case WSpurious(w) => SumUpdate(s.workers, w, Woken(false), Rank);
      case DestroyBroadcast => SumBelow(WakeWorkers(s.workers), s.workers, Rank);
      case _ =>
    }
  }

  lemma {:induction false} RankRun(s: Pool, acts: seq<Action>)
    requires s.sh.shutdown && s.mgr == MExited && Exec(Step, s, acts).Some?
    ensures WorkerSteps(acts) <= Sum(s.workers, Rank) - Sum(Exec(Step, s, acts).value.workers, Rank)
    decreases |acts|
  {
    if acts != [] {
      RankStep(s, acts[0]);
      Stays(s, acts[0]);
      RankRun(Step(s, acts[0]).value, acts[1..]);
    }
  }

  /** Once the manager has been joined, the workers take boundedly many steps in any
      run: at most eight each. */
  lemma WorkersStopAfterDestroy(s: Pool, acts: seq<Action>)
    requires s.sh.shutdown && s.mgr == MExited && Exec(Step, s, acts).Some?
    ensures WorkerSteps(acts) <= 8 * |s.workers|
  {
    RankRun(s, acts);
    SumAtLeast(Exec(Step, s, acts).value.workers, Rank);
    RankBound(s.workers);
  }

  lemma {:induction false} RankBound(ws: seq<Worker>)
    ensures Sum(ws, Rank) <= 8 * |ws|
  {
    if ws != [] {
      RankBound(ws[..|ws| - 1]);
    }
  }

  function Unexited(w: Worker): int { if w.Gone? then 0 else 1 }

  lemma {:induction false} InvRun(s: Pool, acts: seq<Action>)
    requires Inv(s) && Exec(Step, s, acts).Some?
    ensures Inv(Exec(Step, s, acts).value)
    decreases |acts|
  {
    if acts != [] {
      InvStep(s, acts[0]);
      InvRun(Step(s, acts[0]).value, acts[1..]);
    }
  }

  lemma AwakeCanMove(t: Pool, w: nat)
    requires Inv(t) && t.owner == Nobody && w < |t.workers| && !t.workers[w].Gone? && t.workers[w] != Asleep
    ensures Step(t, W(w)).Some?
  {
  }

  /** When after a broadcast of destroy no worker can move and nobody holds `lock`,
      every worker has exited but for at most one, which sleeps, and that only if a
      worker was between its loop condition and its wait at the broadcast. */
  lemma DestroyReleasesAllButOne(s: Pool, u: Pool, acts: seq<Action>, t: Pool)
    requires Reachable(s) && Step(s, DestroyBroadcast) == Some(u) && Exec(Step, u, acts) == Some(t)
    requires t.owner == Nobody && forall w :: 0 <= w < |t.workers| ==> Step(t, W(w)) == None
    ensures forall w :: 0 <= w < |t.workers| ==> t.workers[w].Gone? || t.workers[w] == Asleep
    ensures Sum(t.workers, Unexited) <= if SomeAboutToWait(s) then 1 else 0
  {
    Safety(s);
    DestroyStep(s);
    InvRun(u, acts);
    forall w | 0 <= w < |t.workers| ensures t.workers[w].Gone? || t.workers[w] == Asleep {
      if !t.workers[w].Gone? && t.workers[w] != Asleep {
        AwakeCanMove(t, w);
      }
    }
    AtMostOneSleepsOn(s, u, acts, t);
    SumMonotone(t.workers, Unexited, Sleeping);
  }

  // ---- The run that loses the broadcast -----------------------------------------------------

  /** The worker finds the queue empty and the flag not yet written. */
  lemma PassCondition(s: Pool) returns (t: Pool)
    requires s.owner == Nobody && s.workers == [AtLock] && s.sh.ring.size == 0 && !s.sh.shutdown
    ensures Exec(Step, s, [W(0), W(0)]) == Some(t)
    ensures t == s.(owner := OfWorker(0), workers := [AboutToWait])
  {
    var u := s.(owner := OfWorker(0), workers := [AtWhile(false)]);
    t := u.(workers := [AboutToWait]);
    assert s.workers[0 := AtWhile(false)] == u.workers && u.workers[0 := AboutToWait] == t.workers;
    assert Exec(Step, s, []) == Some(s);
    ExecNext(Step, s, [], s, W(0), u);
    ExecNext(Step, s, [W(0)], u, W(0), t);
  }

  /** The flag is written, the manager exits and is joined, and the broadcast finds
      nobody asleep. */
  lemma BroadcastUnheard(s: Pool) returns (t: Pool)
    requires s.mgr == MLoop && s.workers == [AboutToWait]
    ensures Exec(Step, s, [SetShutdown, M(None, true), DestroyBroadcast]) == Some(t)
    ensures t == s.(mgr := MExited, sh := s.sh.(shutdown := true))
  {
    var u := s.(sh := s.sh.(shutdown := true));
    t := u.(mgr := MExited);
    assert WakeWorkers(t.workers) == t.workers;
    assert Exec(Step, s, []) == Some(s);
    ExecNext(Step, s, [], s, SetShutdown, u);
    ExecNext(Step, s, [SetShutdown], u, M(None, true), t);
    ExecNext(Step, s, [SetShutdown, M(None, true)], t, DestroyBroadcast, t);
  }

  lemma TwoRuns(s: Pool, a: seq<Action>, t: Pool, b: seq<Action>, u: Pool)
    requires Exec(Step, s, a) == Some(t) && Exec(Step, t, b) == Some(u)
    ensures Exec(Step, s, a + b) == Some(u)
  {
    ExecAppend(Step, s, a, b);
  }

  /** From the start of a pool with one worker up to its wait beside the flag. */
  lemma SleepOn(start: Pool) returns (s: Pool)
    requires start.owner == Nobody && start.workers == [AtLock] && start.mgr == MLoop
    requires start.sh.ring.size == 0 && !start.sh.shutdown
    ensures Exec(Step, start,
                 [W(0), W(0)] + [SetShutdown, M(None, true), DestroyBroadcast] + [W(0)]) == Some(s)
    ensures s == start.(workers := [Asleep], mgr := MExited, sh := start.sh.(shutdown := true))
  {
    var t := PassCondition(start);
    var u := BroadcastUnheard(t);
    TwoRuns(start, [W(0), W(0)], t, [SetShutdown, M(None, true), DestroyBroadcast], u);
    s := u.(owner := Nobody, workers := [Asleep]);
    assert u.workers[0 := Asleep] == s.workers;
    ExecNext(Step, start, [W(0), W(0)] + [SetShutdown, M(None, true), DestroyBroadcast], u, W(0), s);
  }

  /** A pool of one worker is destroyed with the one broadcast that its live count
      asks for.  The worker misses it and sleeps on: neither it nor the manager can
      move, and the join never returns unless a wake-up comes from elsewhere. */
  lemma BroadcastCanBeMissed(max: nat, queueMax: nat, producers: nat) returns (s: Pool)
    requires ValidArguments(1, max, queueMax)
    ensures Exec(Step, Init(1, max, queueMax, producers),
                 [W(0), W(0)] + [SetShutdown, M(None, true), DestroyBroadcast] + [W(0)]) == Some(s)
    ensures s.sh.shutdown && s.mgr == MExited && s.owner == Nobody && s.sh.live == 1 && s.workers == [Asleep]
    ensures Step(s, W(0)) == None && forall target, alive :: Step(s, M(target, alive)) == None
  {
    var start := Init(1, max, queueMax, producers);
    assert start.workers == [AtLock];
    s := SleepOn(start);
  }
}
