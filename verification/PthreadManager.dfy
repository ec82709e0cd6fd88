/**
 The manager's decisions: in every interleaving they follow the numbers it read, and a
 round it makes alone is worked out from start to end.
 */
module PthreadManager {
  import opened Basics
  import opened Counting
  import opened Runs
  import opened PoolData
  import opened PthreadPool
  import opened PthreadInvariants
  import opened PthreadTheorems
  import opened PthreadGrowth

  // ---- Decisions in any interleaving ------------------------------------------------------

  /** The pool as the manager last looked at it: queue and size under `lock`, busy
      workers under `thread_counter`, a moment later. */
  datatype Look = Look(queued: int, live: int, busy: int)

  /** A step of the manager may be a look at the pool. */
  function Noted(s: Pool, a: Action, look: Look): Look {
    if a.M? && s.mgr == MSnapshot then look.(queued := s.sh.ring.size, live := s.sh.live)
    else if a.M? && s.mgr.MCount? then look.(busy := s.sh.busy)
    else look
  }

  /** What the manager has seen at the end of a run. */
  ghost function Seen(s: Pool, acts: seq<Action>, look: Look): Look
    decreases |acts|
  {
    if acts == [] || Step(s, acts[0]).None? then look
    else Seen(Step(s, acts[0]).value, acts[1..], Noted(s, acts[0], look))
  }

  /** What the manager carries is what it has seen, and where it is follows from it. */
  ghost predicate Informed(s: Pool, look: Look) {
    match s.mgr
    case MCount(q, l) => q == look.queued && l == look.live
    case MGrowTest(q, l, b) => q == look.queued && l == look.live && b == look.busy
    case MGrowLock(l, b) => l == look.live && b == look.busy && look.queued >= 10 && look.live < s.sh.max
    case MGrow(_, _, l, b) => l == look.live && b == look.busy && look.queued >= 10 && look.live < s.sh.max
    case MShrinkTest(l, b) => l == look.live && b == look.busy
    case MShrinkLock => 2 * look.busy < look.live && look.live > s.sh.min
    case MShrink => 2 * look.busy < look.live && look.live > s.sh.min
    case MSignal(_) => 2 * look.busy < look.live && look.live > s.sh.min
    case _ => true
  }

  lemma MgrBesideW(s: Pool, w: nat)
    requires WorkerStep(s, w).Some?
    ensures var t := WorkerStep(s, w).value;
            t.mgr == s.mgr && t.sh.min == s.sh.min && t.sh.max == s.sh.max
  {
  }

  /** Only its own steps move the manager. */
  lemma OthersLeaveManager(s: Pool, a: Action)
    requires Step(s, a).Some? && !a.M?
    ensures var t := Step(s, a).value;
            t.mgr == s.mgr && t.sh.min == s.sh.min && t.sh.max == s.sh.max
  {
    match a {
      case W(w) => MgrBesideW(s, w);
      case _ =>
    }
  }

  lemma InformedStep(s: Pool, a: Action, look: Look)
    requires Informed(s, look) && Step(s, a).Some?
    ensures Informed(Step(s, a).value, Noted(s, a, look))
  {
    if !a.M? {
      OthersLeaveManager(s, a);
    }
  }

  lemma {:induction false} SeenIsCarried(s: Pool, acts: seq<Action>, look: Look, t: Pool)
    requires Informed(s, look) && Exec(Step, s, acts) == Some(t)
    ensures Informed(t, Seen(s, acts, look))
    decreases |acts|
  {
    if acts != [] {
      InformedStep(s, acts[0], look);
      SeenIsCarried(Step(s, acts[0]).value, acts[1..], Noted(s, acts[0], look), t);
    }
  }

  /** In every run, whatever the others do meanwhile: the manager goes for the lock to
      grow exactly if it saw at least ten queued tasks and a pool below the maximum, and
      for the lock to shrink exactly if it saw less than half of a pool above the minimum
      busy; it scans or arms only after that. */
  lemma DecisionsFollowTheLook(min: nat, max: nat, queueMax: nat, producers: nat, acts: seq<Action>,
                               s: Pool, target: Option<nat>, alive: bool, t: Pool, look: Look)
    requires Exec(Step, Init(min, max, queueMax, producers), acts) == Some(s)
    requires Step(s, M(target, alive)) == Some(t)
    requires look == Seen(Init(min, max, queueMax, producers), acts, Look(0, 0, 0))
    ensures s.mgr.MGrowTest? ==>
              t.mgr == if look.queued >= 10 && look.live < s.sh.max then MGrowLock(look.live, look.busy)
                       else MShrinkTest(look.live, look.busy)
    ensures s.mgr.MShrinkTest? ==>
              t.mgr == if 2 * look.busy < look.live && look.live > s.sh.min then MShrinkLock else MLoop
    ensures s.mgr.MGrow? ==> look.queued >= 10 && look.live < s.sh.max
    ensures s.mgr.MShrink? || s.mgr.MSignal? ==> 2 * look.busy < look.live && look.live > s.sh.min
  {
    SeenIsCarried(Init(min, max, queueMax, producers), acts, Look(0, 0, 0), s);
  }

  // ---- A round of the manager alone ---------------------------------------------------------

  /** A run of nobody but the manager. */
  ghost predicate ManagerRun(s: Pool, acts: seq<Action>, t: Pool) {
    Exec(Step, s, acts) == Some(t) && forall a :: a in acts ==> a.M?
  }

  lemma RunThen(s: Pool, x: seq<Action>, t: Pool, y: seq<Action>, u: Pool)
    requires ManagerRun(s, x, t) && ManagerRun(t, y, u)
    ensures ManagerRun(s, x + y, u)
  {
    ExecAppend(Step, s, x, y);
  }

  lemma OneStepRun(s: Pool, target: Option<nat>, alive: bool, t: Pool) returns (acts: seq<Action>)
    requires Step(s, M(target, alive)) == Some(t)
    ensures ManagerRun(s, acts, t)
  {
    acts := [M(target, alive)];
    assert Exec(Step, t, []) == Some(t);
  }

  predicate Grows(s: Pool) { s.sh.ring.size >= 10 && s.sh.live < s.sh.max }

  predicate Arms(s: Pool) { 2 * s.sh.busy < s.sh.live && s.sh.live > s.sh.min }

  /** Reading the shutdown flag, the snapshot and the busy count. */
  lemma LooksAround(s: Pool) returns (acts: seq<Action>, t: Pool)
    requires s.mgr == MLoop && s.owner == Nobody && !s.sh.shutdown
    ensures ManagerRun(s, acts, t) && t == s.(mgr := MGrowTest(s.sh.ring.size, s.sh.live, s.sh.busy))
  {
    var s1, s2 := s.(mgr := MSleep), s.(mgr := MSnapshot, owner := OfManager);
    var s3 := s.(mgr := MCount(s.sh.ring.size, s.sh.live));
    t := s.(mgr := MGrowTest(s.sh.ring.size, s.sh.live, s.sh.busy));
    var x1 := OneStepRun(s, None, true, s1);
    var x2 := OneStepRun(s1, None, true, s2);
    var x3 := OneStepRun(s2, None, true, s3);
    var x4 := OneStepRun(s3, None, true, t);
    RunThen(s, x1, s1, x2, s2);
    RunThen(s, x1 + x2, s2, x3, s3);
    RunThen(s, x1 + x2 + x3, s3, x4, t);
    acts := x1 + x2 + x3 + x4;
  }

  /** The answers of is_thread_alive about every slot in use are right. */
  ghost predicate RightAnswers(s: Pool, alive: seq<bool>) {
    && |alive| == s.sh.max == |s.sh.threads|
    && forall i :: 0 <= i < s.sh.max && s.sh.threads[i].Some? && s.sh.threads[i].value < |s.workers| ==>
         (alive[i] <==> !s.workers[s.sh.threads[i].value].Gone?)
  }

  ghost function Up(ws: seq<Worker>): (r: seq<bool>)
    ensures |r| == |ws| && forall w :: 0 <= w < |ws| ==> (r[w] <==> !ws[w].Gone?)
  {
    seq(|ws|, w requires 0 <= w < |ws| => !ws[w].Gone?)
  }

  lemma {:induction false} UpIsUnretired(ws: seq<Worker>)
    requires forall w :: 0 <= w < |ws| ==> ws[w] != Leaving(true) && ws[w] != Gone(false)
    ensures Sum(Up(ws), One) == Sum(ws, Unretired)
  {
    if ws != [] {
      var n := |ws| - 1;
      assert Up(ws)[..n] == Up(ws[..n]);
      UpIsUnretired(ws[..n]);
    }
  }

  /** The size of the batch. */
  function Batch(s: Pool): int { Min(10, s.sh.max - s.sh.live) }

  /** From the growth test to the shrink test: a batch of workers if the pool grows. */
  lemma MayGrow(s: Pool, alive: seq<bool>) returns (acts: seq<Action>, t: Pool)
    requires Inv(s) && s.mgr == MGrowTest(s.sh.ring.size, s.sh.live, s.sh.busy) && s.owner == Nobody && !s.sh.shutdown
    requires RightAnswers(s, alive) && forall w :: 0 <= w < |s.workers| ==> s.workers[w] != Leaving(true)
    ensures ManagerRun(s, acts, t) && t.mgr == MShrinkTest(s.sh.live, s.sh.busy) && t.owner == Nobody
    ensures 0 <= Batch(s)
    ensures t.workers == s.workers + seq(if Grows(s) then Batch(s) else 0, _ => AtLock)
    ensures t.sh == s.sh.(threads := t.sh.threads, live := s.sh.live + if Grows(s) then Batch(s) else 0)
  {
    if Grows(s) {
      var s1 := s.(mgr := MGrowLock(s.sh.live, s.sh.busy));
      var s2 := s.(mgr := MGrow(0, 0, s.sh.live, s.sh.busy), owner := OfManager);
      var x1 := OneStepRun(s, None, true, s1);
      var x2 := OneStepRun(s1, None, true, s2);
      RunThen(s, x1, s1, x2, s2);
      var x3;
      x3, t := ManagerScans(s2, alive);
      RunThen(s, x1 + x2, s2, x3, t);
      acts := x1 + x2 + x3;
      UpIsUnretired(s.workers);
      GrowthExact(s.sh, Up(s.workers), s.home, alive);
      ScanTouches(s.sh, 0, 0, |s.workers|, alive);
    } else {
      t := s.(mgr := MShrinkTest(s.sh.live, s.sh.busy));
      acts := OneStepRun(s, None, true, t);
      assert t.workers == s.workers + [];
    }
  }

  lemma {:induction false} ScanTouches(sh: Shared, i: nat, add: nat, tid: Tid, alive: seq<bool>)
    requires Sized(sh) && |alive| == sh.max
    ensures var sh' := Scan(sh, i, add, tid, alive).0;
            sh' == sh.(threads := sh'.threads, live := sh'.live)
    decreases sh.max - i
  {
    if Scanning(sh, i, add) {
      if Reusable(sh, i, alive[i]) {
        ScanTouches(Spawn(sh, i, tid), i + 1, add + 1, tid + 1, alive);
      } else {
        ScanTouches(sh, i + 1, add, tid, alive);
      }
    }
  }

  lemma {:induction false} NobodySleeps(ws: seq<Worker>)
    ensures Sum(ws, Sleeping) >= 0 && (Sum(ws, Sleeping) == 0 <==> !SomeAsleep(ws))
  {
    if ws != [] {
      var n := |ws| - 1;
      NobodySleeps(ws[..n]);
      if ws[n] != Asleep && SomeAsleep(ws) {
        var w :| 0 <= w < |ws| && ws[w] == Asleep;
        assert ws[..n][w] == Asleep;
      }
      if SomeAsleep(ws[..n]) {
        var w :| 0 <= w < n && ws[..n][w] == Asleep;
        assert ws[w] == Asleep;
      }
    }
  }

  /** The remaining signals wake as many sleepers as there are. */
  lemma {:induction false} SendsSignals(s: Pool) returns (acts: seq<Action>, t: Pool)
    requires s.mgr.MSignal? && s.mgr.k <= 10
    ensures ManagerRun(s, acts, t) && t == s.(mgr := MLoop, workers := t.workers) && |t.workers| == |s.workers|
    ensures Sum(t.workers, Sleeping) == Sum(s.workers, Sleeping) - Min(10 - s.mgr.k, Sum(s.workers, Sleeping))
    decreases 10 - s.mgr.k
  {
    NobodySleeps(s.workers);
    var k := s.mgr.k;
    if k == 10 {
      t := s.(mgr := MLoop);
      acts := OneStepRun(s, None, true, t);
    } else {
      var target := None;
      if w :| 0 <= w < |s.workers| && s.workers[w] == Asleep {
        target := Some(w);
      }
      var u := s.(mgr := MSignal(k + 1), workers := Signal(s.workers, target).value);
      WakeChange(s.workers, target, Sleeping);
      var x := OneStepRun(s, target, true, u);
      var y;
      y, t := SendsSignals(u);
      RunThen(s, x, u, y, t);
      acts := x + y;
    }
  }

  /** From the shrink test to the next round: ten requests and up to ten sleepers woken
      if the manager arms. */
  lemma MayShrink(s: Pool, live: int, busy: int) returns (acts: seq<Action>, t: Pool)
    requires s.mgr == MShrinkTest(live, busy) && s.owner == Nobody
    ensures ManagerRun(s, acts, t) && t.mgr == MLoop && t.owner == Nobody && |t.workers| == |s.workers|
    ensures var arms := 2 * busy < live && live > s.sh.min;
            && t.sh == s.sh.(waitExit := if arms then 10 else s.sh.waitExit)
            && Sum(t.workers, Sleeping)
                 == Sum(s.workers, Sleeping) - if arms then Min(10, Sum(s.workers, Sleeping)) else 0
  {
    if 2 * busy < live && live > s.sh.min {
      var s1, s2 := s.(mgr := MShrinkLock), s.(mgr := MShrink, owner := OfManager);
      var s3 := s.(mgr := MSignal(0), sh := s.sh.(waitExit := 10));
      var x1 := OneStepRun(s, None, true, s1);
      var x2 := OneStepRun(s1, None, true, s2);
      var x3 := OneStepRun(s2, None, true, s3);
      RunThen(s, x1, s1, x2, s2);
      RunThen(s, x1 + x2, s2, x3, s3);
      var x4;
      x4, t := SendsSignals(s3);
      RunThen(s, x1 + x2 + x3, s3, x4, t);
      acts := x1 + x2 + x3 + x4;
    } else {
      t := s.(mgr := MLoop);
      acts := OneStepRun(s, None, true, t);
    }
  }

  lemma {:induction false} NewcomersAreAwake(ws: seq<Worker>, n: nat)
    ensures Sum(ws + seq(n, _ => AtLock), Sleeping) == Sum(ws, Sleeping)
  {
    if n == 0 {
      assert ws + seq(n, _ => AtLock) == ws;
    } else {
      NewcomersAreAwake(ws, n - 1);
      assert ws + seq(n, _ => AtLock) == (ws + seq(n - 1, _ => AtLock)) + [AtLock];
      SumAppend(ws + seq(n - 1, _ => AtLock), AtLock, Sleeping);
    }
  }

  /** One whole round of the manager on its own.  The pool grows by min(10, max - live)
      exactly if ten or more tasks are queued and it is below its maximum; ten retirements
      are asked for and up to ten sleepers woken exactly if less than half of a pool above
      its minimum was busy; both can happen, and nothing else changes. */
  lemma RoundAlone(s: Pool, alive: seq<bool>) returns (acts: seq<Action>, t: Pool)
    requires Reachable(s) && s.mgr == MLoop && s.owner == Nobody && !s.sh.shutdown
    requires RightAnswers(s, alive) && forall w :: 0 <= w < |s.workers| ==> s.workers[w] != Leaving(true)
    ensures ManagerRun(s, acts, t) && t.mgr == MLoop && t.owner == Nobody
    ensures var grown := if s.sh.ring.size >= 10 && s.sh.live < s.sh.max then Min(10, s.sh.max - s.sh.live) else 0;
            var arms := 2 * s.sh.busy < s.sh.live && s.sh.live > s.sh.min;
            && |t.workers| == |s.workers| + grown
            && t.sh == s.sh.(threads := t.sh.threads, live := s.sh.live + grown,
                             waitExit := if arms then 10 else s.sh.waitExit)
            && Sum(t.workers, Sleeping)
                 == Sum(s.workers, Sleeping) - if arms then Min(10, Sum(s.workers, Sleeping)) else 0
  {
    Safety(s);
    var x, u := LooksAround(s);
    var y, v := MayGrow(u, alive);
    var z;
    z, t := MayShrink(v, s.sh.live, s.sh.busy);
    RunThen(s, x, u, y, v);
    RunThen(s, x + y, v, z, t);
    acts := x + y + z;
    NewcomersAreAwake(s.workers, |v.workers| - |s.workers|);
  }

  // ---- After shutdown --------------------------------------------------------------------------

  /** Steps to the end of the round, but for scan and signals. */
  function Ahead(m: Manager): nat {
    match m
    case MLoop => 0
    case MSleep => 9
    case MSnapshot => 8
    case MCount(_, _) => 7
    case MGrowTest(_, _, _) => 6
    case MGrowLock(_, _) => 5
    case MGrow(_, _, _, _) => 4
    case MShrinkTest(_, _) => 3
    case MShrinkLock => 2
    case MShrink => 1
    case MSignal(_) => 0
    case MExited => 0
  }

  lemma InvOfLast(s: Pool, acts: seq<Action>, t: Pool)
    requires Inv(s) && Exec(Step, s, acts) == Some(t)
    ensures Inv(t)
  {
    forall u, a | Inv(u) && Step(u, a).Some? ensures Inv(Step(u, a).value) {
      InvStep(u, a);
    }
    InvariantHolds(Step, Inv, s, acts);
  }

  /** The scan, with every thread taken for alive. */
  lemma FinishesScan(s: Pool) returns (acts: seq<Action>, t: Pool)
    requires Inv(s) && s.mgr.MGrow?
    ensures ManagerRun(s, acts, t) && t.mgr.MShrinkTest? && t.owner == Nobody && t.sh.shutdown == s.sh.shutdown
  {
    var alive := seq(s.sh.max, _ => true);
    acts, t := ManagerScans(s, alive);
    ScanTouches(s.sh, s.mgr.i, s.mgr.add, |s.workers|, alive);
  }

  lemma FinishesSignals(s: Pool) returns (acts: seq<Action>, t: Pool)
    requires LockInv(s) && (s.owner == Nobody || s.owner == OfManager) && s.mgr.MSignal?
    ensures ManagerRun(s, acts, t) && t.mgr == MLoop && t.owner == Nobody && t.sh.shutdown == s.sh.shutdown
  {
    if s.mgr.k <= 10 {
      acts, t := SendsSignals(s);
    } else {
      t := s.(mgr := MLoop);
      acts := OneStepRun(s, None, true, t);
    }
  }

  /** Any other step of the round. */
  lemma StepsAhead(s: Pool) returns (acts: seq<Action>, t: Pool)
    requires LockInv(s) && (s.owner == Nobody || s.owner == OfManager)
    requires !s.mgr.MGrow? && !s.mgr.MSignal? && s.mgr != MExited && s.mgr != MLoop
    ensures ManagerRun(s, acts, t) && Ahead(t.mgr) < Ahead(s.mgr) && t.mgr != MExited
    ensures (t.owner == Nobody || t.owner == OfManager) && t.sh.shutdown == s.sh.shutdown
  {
    t := Step(s, M(None, true)).value;
    acts := OneStepRun(s, None, true, t);
  }

  /** From anywhere in its round, the lock free or its own, the manager can finish it. */
  lemma {:induction false} FinishesRound(s: Pool) returns (acts: seq<Action>, t: Pool)
    requires Inv(s) && (s.owner == Nobody || s.owner == OfManager) && s.mgr != MExited
    ensures ManagerRun(s, acts, t) && t.mgr == MLoop && t.owner == Nobody && t.sh.shutdown == s.sh.shutdown
    decreases Ahead(s.mgr)
  {
    if s.mgr == MLoop {
      acts, t := [], s;
    } else if s.mgr.MSignal? {
      acts, t := FinishesSignals(s);
    } else {
      var x, u;
      if s.mgr.MGrow? {
        x, u := FinishesScan(s);
      } else {
        x, u := StepsAhead(s);
      }
      InvOfLast(s, x, u);
      var y;
      y, t := FinishesRound(u);
      RunThen(s, x, u, y, t);
      acts := x + y;
    }
  }

  /** Once shutdown is written the manager can end its round, and exits. */
  lemma ManagerExitsAfterShutdown(s: Pool) returns (acts: seq<Action>, t: Pool)
    requires Reachable(s) && s.sh.shutdown && (s.owner == Nobody || s.owner == OfManager)
    ensures ManagerRun(s, acts, t) && t.mgr == MExited && t.owner == Nobody
  {
    Safety(s);
    if s.mgr == MExited {
      acts, t := [], s;
    } else {
      var x, u := FinishesRound(s);
      t := u.(mgr := MExited);
      var y := OneStepRun(u, None, true, t);
      RunThen(s, x, u, y, t);
      acts := x + y;
    }
  }

  lemma ExitStep(s: Pool, a: Action)
    requires (s.mgr == MExited ==> s.sh.shutdown) && Step(s, a).Some?
    ensures Step(s, a).value.mgr == MExited ==> Step(s, a).value.sh.shutdown
  {
    if !a.M? {
      OthersLeaveManager(s, a);
    }
    if a != SetShutdown {
      OnlySetShutdownSets(s, a);
    }
  }

  /** It never exits before. */
  lemma NoExitBeforeShutdown(s: Pool)
    requires Reachable(s) && s.mgr == MExited
    ensures s.sh.shutdown
  {
    var min: nat, max: nat, queueMax: nat, producers: nat, acts: seq<Action> :|
      ValidArguments(min, max, queueMax) && Exec(Step, Init(min, max, queueMax, producers), acts) == Some(s);
    var flagged := (t: Pool) => t.mgr == MExited ==> t.sh.shutdown;
    forall t, a | flagged(t) && Step(t, a).Some? ensures flagged(Step(t, a).value) {
      ExitStep(t, a);
    }
    InvariantHolds(Step, flagged, Init(min, max, queueMax, producers), acts);
  }
}
