/**
 The invariants of the pthread pool and that every step keeps them.
 */
module PthreadInvariants {
  import opened Basics
  import opened Counting
  import opened Runs
  import opened TaskRing
  import opened PoolData
  import opened PthreadPool

  // ---- Mutual exclusion on `lock` ------------------------------------------------

  predicate HoldsW(w: Worker) {
    w.AtWhile? || w.AboutToWait? || w.Resumed? || w.AtShutdownCheck? || w.AtDequeue?
  }

  predicate HoldsP(p: Producer) { p.PWhile? || p.PAboutToWait? || p.PCheck? || p.PEnqueue? }

  predicate HoldsM(m: Manager) { m.MSnapshot? || m.MGrow? || m.MShrink? }

  ghost predicate LockInv(s: Pool) {
    && (forall w :: 0 <= w < |s.workers| ==> (HoldsW(s.workers[w]) <==> s.owner == OfWorker(w)))
    && (forall p :: 0 <= p < |s.producers| ==> (HoldsP(s.producers[p]) <==> s.owner == OfProducer(p)))
    && (HoldsM(s.mgr) <==> s.owner == OfManager)
    && (s.owner.OfWorker? ==> s.owner.w < |s.workers|)
    && (s.owner.OfProducer? ==> s.owner.p < |s.producers|)
  }

  // ---- What a lock holder may rely on --------------------------------------------

  ghost predicate PcW(sh: Shared, w: Worker) {
    && (w.AboutToWait? ==> sh.ring.size == 0)
    && (w.AtShutdownCheck? ==> sh.ring.size > 0 || sh.shutdown)
    && (w.AtDequeue? ==> sh.ring.size > 0)
    && (w == Leaving(false) || w == Gone(false) ==> sh.shutdown)
  }

  /** The last line: nobody sleeps on queue_not_full beside room. */
  ghost predicate PcP(sh: Shared, p: Producer) {
    && (p.PAboutToWait? ==> sh.ring.size == |sh.ring.slots|)
    && (p.PCheck? ==> sh.ring.size < |sh.ring.slots| || sh.shutdown)
    && (p.PEnqueue? ==> sh.ring.size < |sh.ring.slots|)
    && (p.PAsleep? ==> sh.ring.size == |sh.ring.slots|)
  }

  ghost predicate PcInv(s: Pool) {
    && WellFormed(s.sh.ring)
    && (forall w :: 0 <= w < |s.workers| ==> PcW(s.sh, s.workers[w]))
    && (forall p :: 0 <= p < |s.producers| ==> PcP(s.sh, s.producers[p]))
  }

  // ---- Thread counts --------------------------------------------------------------

  function Unretired(w: Worker): int { if w == Leaving(true) || w == Gone(true) then 0 else 1 }

  function Busy(w: Worker): int { if w.Running? || w.Finished? then 1 else 0 }

  ghost predicate CountInv(s: Pool) {
    && s.sh.live == Sum(s.workers, Unretired)
    && s.sh.busy == Sum(s.workers, Busy)
  }

  ghost predicate BoundsInv(s: Pool) {
    && 1 <= s.sh.min <= s.sh.live <= s.sh.max
    && 0 <= s.sh.waitExit <= DEFAULT_THREAD_VARY
  }

  // ---- The slot table ---------------------------------------------------------------

  ghost predicate SlotInv(s: Pool) {
    && Sized(s.sh) && |s.home| == |s.workers|
    && (forall w :: 0 <= w < |s.workers| ==> s.home[w] < s.sh.max)
    && (forall w :: 0 <= w < |s.workers| && !s.workers[w].Gone? ==> s.sh.threads[s.home[w]] == Some(w))
    && (forall i :: 0 <= i < s.sh.max && s.sh.threads[i].Some? ==>
         s.sh.threads[i].value < |s.home| && s.home[s.sh.threads[i].value] == i)
  }

  // ---- Tasks --------------------------------------------------------------------------

  predicate HoldsTask(s: Pool, w: nat, k: nat) {
    w < |s.workers| && (s.workers[w] == Taken(k) || s.workers[w] == Running(k))
  }

  ghost predicate LedgerInv(s: Pool) {
    && WellFormed(s.sh.ring)
    && |s.takenBy| == |s.taken| && |s.runs| == |s.taken| + s.sh.ring.size
    && (forall k :: 0 <= k < |s.taken| ==> s.taken[k] == k)
    && (forall j :: 0 <= j < s.sh.ring.size ==> Contents(s.sh.ring)[j] == |s.taken| + j)
    && (forall k :: 0 <= k < |s.runs| ==> s.runs[k] <= 1)
    && (forall k :: |s.taken| <= k < |s.runs| ==> s.runs[k] == 0)
    && (forall k :: 0 <= k < |s.taken| && s.runs[k] == 0 ==> HoldsTask(s, s.takenBy[k], k))
    && (forall w :: 0 <= w < |s.workers| && (s.workers[w].Taken? || s.workers[w].Running?) ==>
         var k := s.workers[w].ticket;
         k < |s.taken| && s.takenBy[k] == w && s.runs[k] == 0)
  }

  // ---- Wake-ups -------------------------------------------------------------------------

  /** Signalled and not yet acted on it. */
  function Pledge(w: Worker): int {
    if w == Woken(true) || w == Resumed(true) || w == AtWhile(true)
       || w == AtShutdownCheck(true) || w == AtDequeue(true)
    then 1 else 0
  }

  function Retired(w: Worker): int { 1 - Unretired(w) }

  function Sleeping(w: Worker): int { if w == Asleep then 1 else 0 }

  ghost function Pledges(s: Pool): int { Sum(s.workers, Pledge) }

  ghost function Retirements(s: Pool): int { Sum(s.workers, Retired) }

  ghost predicate WakeInv(s: Pool) {
    !s.sh.shutdown && SomeAsleep(s.workers) ==> s.sh.ring.size <= Pledges(s) + Retirements(s)
  }

  ghost predicate Inv(s: Pool) {
    LockInv(s) && PcInv(s) && CountInv(s) && BoundsInv(s) && SlotInv(s) && LedgerInv(s) && WakeInv(s)
  }

  // ---- Every step keeps them --------------------------------------------------------------

  lemma LockHolderW(s: Pool, w: nat)
    requires LockInv(s) && WorkerStep(s, w).Some? && HoldsW(s.workers[w])
    ensures LockInv(WorkerStep(s, w).value)
  {
  }

  lemma LockOutsideW(s: Pool, w: nat)
    requires LockInv(s) && WorkerStep(s, w).Some? && !HoldsW(s.workers[w])
    ensures LockInv(WorkerStep(s, w).value)
  {
  }

  lemma LockStepW(s: Pool, w: nat)
    requires LockInv(s) && WorkerStep(s, w).Some?
    ensures LockInv(WorkerStep(s, w).value)
  {
    if HoldsW(s.workers[w]) {
      LockHolderW(s, w);
    } else {
      LockOutsideW(s, w);
    }
  }

  lemma LockStepP(s: Pool, p: nat, target: Option<nat>)
    requires LockInv(s) && ProducerStep(s, p, target).Some?
    ensures LockInv(ProducerStep(s, p, target).value)
  {
  }

  lemma LockScanM(s: Pool, target: Option<nat>, alive: bool)
    requires LockInv(s) && ManagerStep(s, target, alive).Some? && s.mgr.MGrow?
    ensures LockInv(ManagerStep(s, target, alive).value)
  {
  }

  lemma LockOtherM(s: Pool, target: Option<nat>, alive: bool)
    requires LockInv(s) && ManagerStep(s, target, alive).Some? && !s.mgr.MGrow?
    ensures LockInv(ManagerStep(s, target, alive).value)
  {
  }

  lemma LockStepM(s: Pool, target: Option<nat>, alive: bool)
    requires LockInv(s) && ManagerStep(s, target, alive).Some?
    ensures LockInv(ManagerStep(s, target, alive).value)
  {
    if s.mgr.MGrow? {
      LockScanM(s, target, alive);
    } else {
      LockOtherM(s, target, alive);
    }
  }

  /** The stepping worker itself, and the queue. */
  lemma PcOwn(s: Pool, w: nat)
    requires PcInv(s) && WorkerStep(s, w).Some?
    ensures var t := WorkerStep(s, w).value;
            WellFormed(t.sh.ring) && PcW(t.sh, t.workers[w])
  {
    if s.workers[w].AtDequeue? {
      DropRemovesOldest(s.sh.ring);
    }
  }

  /** Everyone else: the queue changes only in the hands of the lock's owner. */
  lemma PcOthers(s: Pool, w: nat)
    requires LockInv(s) && PcInv(s) && WorkerStep(s, w).Some?
    ensures var t := WorkerStep(s, w).value;
            && (forall v :: 0 <= v < |t.workers| && v != w ==> PcW(t.sh, t.workers[v]))
            && (forall p :: 0 <= p < |t.producers| ==> PcP(t.sh, t.producers[p]))
  {
    var t := WorkerStep(s, w).value;
    if s.workers[w].AtDequeue? {
      assert forall v :: 0 <= v < |s.workers| && v != w ==> !HoldsW(s.workers[v]);
      assert forall p :: 0 <= p < |s.producers| ==> !HoldsP(s.producers[p]);
    } else {
      assert t.sh.ring == s.sh.ring && t.producers == s.producers;
    }
  }

  lemma PcStepW(s: Pool, w: nat)
    requires LockInv(s) && PcInv(s) && WorkerStep(s, w).Some?
    ensures PcInv(WorkerStep(s, w).value)
  {
    PcOwn(s, w);
    PcOthers(s, w);
  }

  lemma PcStepP(s: Pool, p: nat, target: Option<nat>)
    requires LockInv(s) && PcInv(s) && ProducerStep(s, p, target).Some?
    ensures PcInv(ProducerStep(s, p, target).value)
  {
    if s.producers[p].PEnqueue? {
      PutAppends(s.sh.ring, |s.runs|);
    }
  }

  lemma PcStepM(s: Pool, target: Option<nat>, alive: bool)
    requires LockInv(s) && PcInv(s) && ManagerStep(s, target, alive).Some?
    ensures PcInv(ManagerStep(s, target, alive).value)
  {
  }

  /** Steps that leave the table alone and resurrect nobody. */
  lemma SlotFrame(s: Pool, t: Pool)
    requires SlotInv(s)
    requires t.sh.threads == s.sh.threads && t.sh.max == s.sh.max && t.home == s.home && |t.workers| == |s.workers|
    requires forall w :: 0 <= w < |s.workers| && s.workers[w].Gone? ==> t.workers[w].Gone?
    ensures SlotInv(t)
  {
  }

  /** The scan only overwrites a slot whose thread has exited. */
  lemma SlotSpawn(s: Pool, i: nat, add: nat, live: int, busy: int, alive: bool)
    requires SlotInv(s) && GrowStep(s, i, add, live, busy, alive).Some?
    ensures SlotInv(GrowStep(s, i, add, live, busy, alive).value)
  {
    var t := GrowStep(s, i, add, live, busy, alive).value;
    if |t.workers| > |s.workers| {
      forall w | 0 <= w < |s.workers| && !s.workers[w].Gone? ensures t.sh.threads[t.home[w]] == Some(w) {
        assert s.sh.threads[s.home[w]] == Some(w);
      }
    }
  }

  predicate InQueueSection(w: Worker) { HoldsW(w) || w.AtLock? || w.Woken? }

  ghost predicate TableKept(s: Pool, t: Pool) {
    t.sh.threads == s.sh.threads && t.sh.max == s.sh.max && t.home == s.home
  }

  lemma QueueSectionTable(s: Pool, w: nat)
    requires WorkerStep(s, w).Some? && InQueueSection(s.workers[w])
    ensures TableKept(s, WorkerStep(s, w).value)
  {
  }

  lemma WorkerTableKept(s: Pool, w: nat)
    requires WorkerStep(s, w).Some?
    ensures TableKept(s, WorkerStep(s, w).value) && !s.workers[w].Gone?
  {
    if InQueueSection(s.workers[w]) {
      QueueSectionTable(s, w);
    }
  }

  lemma SlotStepW(s: Pool, w: nat)
    requires SlotInv(s) && WorkerStep(s, w).Some?
    ensures SlotInv(WorkerStep(s, w).value)
  {
    WorkerTableKept(s, w);
    WorkerDelta(s, w);
    SlotFrame(s, WorkerStep(s, w).value);
  }

  lemma SlotStepP(s: Pool, p: nat, target: Option<nat>)
    requires SlotInv(s) && ProducerStep(s, p, target).Some?
    ensures SlotInv(ProducerStep(s, p, target).value)
  {
    SlotFrame(s, ProducerStep(s, p, target).value);
  }

  lemma SlotStepM(s: Pool, target: Option<nat>, alive: bool)
    requires SlotInv(s) && ManagerStep(s, target, alive).Some?
    ensures SlotInv(ManagerStep(s, target, alive).value)
  {
    if s.mgr.MGrow? {
      SlotSpawn(s, s.mgr.i, s.mgr.add, s.mgr.live, s.mgr.busy, alive);
    } else {
      SlotFrame(s, ManagerStep(s, target, alive).value);
    }
  }

  // ---- Counts -------------------------------------------------------------------

  lemma WakeChange(ws: seq<Worker>, target: Option<nat>, f: Worker -> int)
    requires Signal(ws, target).Some?
    ensures var d := if target.Some? then f(Woken(true)) - f(Asleep) else 0;
            Sum(Signal(ws, target).value, f) == Sum(ws, f) + d
  {
    if target.Some? {
      SumUpdate(ws, target.value, Woken(true), f);
    }
  }

  /** A broadcast does not change sums that weigh sleepers and woken alike. */
  lemma {:induction false} BroadcastKeeps(ws: seq<Worker>, f: Worker -> int)
    requires f(Asleep) == f(Woken(true))
    ensures Sum(WakeWorkers(ws), f) == Sum(ws, f)
    decreases |ws|
  {
    if ws != [] {
      var n := |ws| - 1;
      assert WakeWorkers(ws)[..n] == WakeWorkers(ws[..n]);
      BroadcastKeeps(ws[..n], f);
    }
  }

  /** Nobody else's pc changes, nor does the shutdown flag. */
  ghost predicate OnlyWorker(s: Pool, t: Pool, w: nat) {
    && w < |s.workers| == |t.workers| && t.workers == s.workers[w := t.workers[w]]
    && t.sh.shutdown == s.sh.shutdown
  }

  /** The counters follow the pc of worker w. */
  ghost predicate CountsFollow(s: Pool, t: Pool, w: nat)
    requires w < |s.workers| && w < |t.workers|
  {
    && t.sh.live - s.sh.live == Unretired(t.workers[w]) - Unretired(s.workers[w])
    && t.sh.busy - s.sh.busy == Busy(t.workers[w]) - Busy(s.workers[w])
  }

  lemma LockerDelta(s: Pool, w: nat)
    requires WorkerStep(s, w).Some? && InQueueSection(s.workers[w]) && !HoldsW(s.workers[w])
    ensures var t := WorkerStep(s, w).value; OnlyWorker(s, t, w) && CountsFollow(s, t, w)
  {
  }

  lemma HolderDelta(s: Pool, w: nat)
    requires WorkerStep(s, w).Some? && HoldsW(s.workers[w])
    ensures var t := WorkerStep(s, w).value; OnlyWorker(s, t, w) && CountsFollow(s, t, w)
  {
  }

  lemma OutsideDelta(s: Pool, w: nat)
    requires WorkerStep(s, w).Some? && !InQueueSection(s.workers[w])
    ensures var t := WorkerStep(s, w).value; OnlyWorker(s, t, w) && CountsFollow(s, t, w)
  {
  }

  /** What a worker step does to its own pc and to the counters. */
  lemma WorkerDelta(s: Pool, w: nat)
    requires WorkerStep(s, w).Some?
    ensures var t := WorkerStep(s, w).value; OnlyWorker(s, t, w) && CountsFollow(s, t, w)
  {
    if HoldsW(s.workers[w]) {
      HolderDelta(s, w);
    } else if InQueueSection(s.workers[w]) {
      LockerDelta(s, w);
    } else {
      OutsideDelta(s, w);
    }
  }

  lemma CountFrame(s: Pool, t: Pool, w: nat)
    requires CountInv(s) && OnlyWorker(s, t, w) && CountsFollow(s, t, w)
    ensures CountInv(t)
  {
    SumUpdate(s.workers, w, t.workers[w], Unretired);
    SumUpdate(s.workers, w, t.workers[w], Busy);
  }

  lemma CountStepW(s: Pool, w: nat)
    requires CountInv(s) && WorkerStep(s, w).Some?
    ensures CountInv(WorkerStep(s, w).value)
  {
    WorkerDelta(s, w);
    CountFrame(s, WorkerStep(s, w).value, w);
  }

  lemma CountStepP(s: Pool, p: nat, target: Option<nat>)
    requires CountInv(s) && ProducerStep(s, p, target).Some?
    ensures CountInv(ProducerStep(s, p, target).value)
  {
    if s.producers[p].PEnqueue? {
      WakeChange(s.workers, target, Unretired);
      WakeChange(s.workers, target, Busy);
    } else if s.producers[p].PCheck? {
      BroadcastKeeps(s.workers, Unretired);
      BroadcastKeeps(s.workers, Busy);
    }
  }

  lemma CountSignal(s: Pool, k: nat, target: Option<nat>)
    requires CountInv(s) && SignalStep(s, k, target).Some?
    ensures CountInv(SignalStep(s, k, target).value)
  {
    if k < DEFAULT_THREAD_VARY {
      WakeChange(s.workers, target, Unretired);
      WakeChange(s.workers, target, Busy);
    }
  }

  lemma NewWorkerCounts(ws: seq<Worker>)
    ensures Sum(ws + [AtLock], Unretired) == Sum(ws, Unretired) + 1 && Sum(ws + [AtLock], Busy) == Sum(ws, Busy)
  {
    SumAppend(ws, AtLock, Unretired);
    SumAppend(ws, AtLock, Busy);
  }

  lemma CountGrow(s: Pool, i: nat, add: nat, live: int, busy: int, alive: bool)
    requires CountInv(s) && GrowStep(s, i, add, live, busy, alive).Some?
    ensures CountInv(GrowStep(s, i, add, live, busy, alive).value)
  {
    NewWorkerCounts(s.workers);
    assert GrowStep(s, i, add, live, busy, alive).value.workers == s.workers
           || GrowStep(s, i, add, live, busy, alive).value.workers == s.workers + [AtLock];
  }

  lemma CountStepM(s: Pool, target: Option<nat>, alive: bool)
    requires CountInv(s) && ManagerStep(s, target, alive).Some?
    ensures CountInv(ManagerStep(s, target, alive).value)
  {
    if s.mgr.MSignal? {
      CountSignal(s, s.mgr.k, target);
    } else if s.mgr.MGrow? {
      CountGrow(s, s.mgr.i, s.mgr.add, s.mgr.live, s.mgr.busy, alive);
    }
  }

  lemma BoundsStep(s: Pool, a: Action)
    requires BoundsInv(s) && Step(s, a).Some?
    ensures BoundsInv(Step(s, a).value)
  {
  }

  // ---- Tasks ----------------------------------------------------------------------

  /** Steps that leave the ledger alone and keep every worker's task. */
  lemma LedgerFrame(s: Pool, t: Pool)
    requires LedgerInv(s) && |s.workers| <= |t.workers|
    requires t.sh.ring == s.sh.ring && t.taken == s.taken && t.takenBy == s.takenBy && t.runs == s.runs
    requires forall w, k :: 0 <= w < |s.workers| ==> (HoldsTask(s, w, k) <==> HoldsTask(t, w, k))
    requires forall w :: |s.workers| <= w < |t.workers| ==> t.workers[w] == AtLock
    ensures LedgerInv(t)
  {
    forall k | 0 <= k < |t.taken| && t.runs[k] == 0 ensures HoldsTask(t, t.takenBy[k], k) {
      assert HoldsTask(s, s.takenBy[k], k);
    }
    forall w | 0 <= w < |t.workers| && (t.workers[w].Taken? || t.workers[w].Running?)
      ensures var k := t.workers[w].ticket; k < |t.taken| && t.takenBy[k] == w && t.runs[k] == 0
    {
      assert HoldsTask(t, w, t.workers[w].ticket);
      assert HoldsTask(s, w, t.workers[w].ticket);
    }
  }

  lemma LedgerDequeue(s: Pool, w: nat)
    requires LedgerInv(s) && w < |s.workers| && s.workers[w].AtDequeue? && DequeueStep(s, w).Some?
    ensures LedgerInv(DequeueStep(s, w).value)
  {
    var t := DequeueStep(s, w).value;
    DropRemovesOldest(s.sh.ring);
    assert t.taken[|s.taken|] == Contents(s.sh.ring)[0] == |s.taken|;
    forall k | 0 <= k < |t.taken| && t.runs[k] == 0 ensures HoldsTask(t, t.takenBy[k], k) {
      assert k < |s.taken| ==> HoldsTask(s, s.takenBy[k], k);
    }
  }

  lemma LedgerExecute(s: Pool, w: nat, k: nat)
    requires LedgerInv(s) && w < |s.workers| && s.workers[w] == Running(k) && ExecuteStep(s, w, k).Some?
    ensures LedgerInv(ExecuteStep(s, w, k).value)
  {
    var t := ExecuteStep(s, w, k).value;
    forall j | 0 <= j < |t.taken| && t.runs[j] == 0 ensures HoldsTask(t, t.takenBy[j], j) {
      assert HoldsTask(s, s.takenBy[j], j);
    }
  }

  lemma LedgerKept(s: Pool, w: nat)
    requires WorkerStep(s, w).Some? && !s.workers[w].AtDequeue? && !s.workers[w].Running?
    ensures var t := WorkerStep(s, w).value;
            && t.sh.ring == s.sh.ring && t.taken == s.taken && t.takenBy == s.takenBy && t.runs == s.runs
            && forall k :: HoldsTask(s, w, k) <==> HoldsTask(t, w, k)
  {
  }

  lemma TaskKept(s: Pool, w: nat)
    requires WorkerStep(s, w).Some? && !s.workers[w].AtDequeue? && !s.workers[w].Running?
    ensures var t := WorkerStep(s, w).value;
            && t.sh.ring == s.sh.ring && t.taken == s.taken && t.takenBy == s.takenBy && t.runs == s.runs
            && forall v, k :: 0 <= v < |s.workers| ==> (HoldsTask(s, v, k) <==> HoldsTask(t, v, k))
  {
    LedgerKept(s, w);
    WorkerDelta(s, w);
  }

  lemma LedgerStepW(s: Pool, w: nat)
    requires LedgerInv(s) && WorkerStep(s, w).Some?
    ensures LedgerInv(WorkerStep(s, w).value)
  {
    if s.workers[w].AtDequeue? {
      LedgerDequeue(s, w);
    } else if s.workers[w].Running? {
      LedgerExecute(s, w, s.workers[w].ticket);
    } else {
      TaskKept(s, w);
      WorkerDelta(s, w);
      LedgerFrame(s, WorkerStep(s, w).value);
    }
  }

  lemma LedgerEnqueue(s: Pool, p: nat, target: Option<nat>)
    requires LedgerInv(s) && PcInv(s) && p < |s.producers| && s.producers[p].PEnqueue?
    requires EnqueueStep(s, p, target).Some?
    ensures LedgerInv(EnqueueStep(s, p, target).value)
  {
    var t := EnqueueStep(s, p, target).value;
    PutAppends(s.sh.ring, |s.runs|);
    forall k | 0 <= k < |t.taken| && t.runs[k] == 0 ensures HoldsTask(t, t.takenBy[k], k) {
      assert HoldsTask(s, s.takenBy[k], k);
    }
  }

  lemma LedgerStepP(s: Pool, p: nat, target: Option<nat>)
    requires LedgerInv(s) && PcInv(s) && ProducerStep(s, p, target).Some?
    ensures LedgerInv(ProducerStep(s, p, target).value)
  {
    if s.producers[p].PEnqueue? {
      LedgerEnqueue(s, p, target);
    } else {
      LedgerFrame(s, ProducerStep(s, p, target).value);
    }
  }

  lemma LedgerStepM(s: Pool, target: Option<nat>, alive: bool)
    requires LedgerInv(s) && ManagerStep(s, target, alive).Some?
    ensures LedgerInv(ManagerStep(s, target, alive).value)
  {
    LedgerFrame(s, ManagerStep(s, target, alive).value);
  }

  // ---- Wake-ups ------------------------------------------------------------------------

  lemma SleeperWasAsleep(s: Pool, t: Pool, changed: nat)
    requires |t.workers| == |s.workers| && SomeAsleep(t.workers)
    requires forall w :: 0 <= w < |s.workers| && w != changed ==> s.workers[w] == t.workers[w]
    requires changed < |s.workers| ==> t.workers[changed] != Asleep
    ensures SomeAsleep(s.workers)
  {
    var w :| 0 <= w < |t.workers| && t.workers[w] == Asleep;
    assert s.workers[w] == Asleep;
  }

  lemma SumsNonNegative(ws: seq<Worker>)
    ensures Sum(ws, Pledge) >= 0 && Sum(ws, Retired) >= 0
  {
    SumAtLeast(ws, Pledge);
    SumAtLeast(ws, Retired);
  }

  ghost function Uncovered(s: Pool): int { s.sh.ring.size - Pledges(s) - Retirements(s) }

  /** Only by taking a task, by retiring, or beside an empty queue does a worker use
      up a signal. */
  lemma PledgeDelta(s: Pool, w: nat)
    requires WorkerStep(s, w).Some? && !s.sh.shutdown
    ensures var t := WorkerStep(s, w).value;
            var was, now := s.workers[w], t.workers[w];
            t.sh.ring.size == 0 ||
            t.sh.ring.size - Pledge(now) - Retired(now) <= s.sh.ring.size - Pledge(was) - Retired(was)
  {
  }

  lemma UncoveredFrame(s: Pool, t: Pool, w: nat)
    requires w < |s.workers| == |t.workers| && t.workers == s.workers[w := t.workers[w]]
    ensures Uncovered(t) - Uncovered(s) ==
              (t.sh.ring.size - Pledge(t.workers[w]) - Retired(t.workers[w]))
              - (s.sh.ring.size - Pledge(s.workers[w]) - Retired(s.workers[w]))
  {
    SumUpdate(s.workers, w, t.workers[w], Pledge);
    SumUpdate(s.workers, w, t.workers[w], Retired);
  }

  lemma WorkerCovers(s: Pool, w: nat)
    requires WorkerStep(s, w).Some? && !s.sh.shutdown
    ensures var t := WorkerStep(s, w).value; t.sh.ring.size == 0 || Uncovered(t) <= Uncovered(s)
  {
    WorkerDelta(s, w);
    PledgeDelta(s, w);
    UncoveredFrame(s, WorkerStep(s, w).value, w);
  }

  lemma OnlyWaitersSleep(s: Pool, w: nat)
    requires WorkerStep(s, w).Some?
    ensures WorkerStep(s, w).value.workers[w] == Asleep ==> s.workers[w].AboutToWait?
  {
  }

  lemma WorkerFallsAsleep(s: Pool, w: nat)
    requires PcInv(s) && WorkerStep(s, w).Some? && SomeAsleep(WorkerStep(s, w).value.workers)
    ensures WorkerStep(s, w).value.sh.ring.size == 0 || SomeAsleep(s.workers)
  {
    if s.workers[w].AboutToWait? {
      assert s.sh.ring.size == 0;
    } else {
      WorkerDelta(s, w);
      OnlyWaitersSleep(s, w);
      SleeperWasAsleep(s, WorkerStep(s, w).value, w);
    }
  }

  lemma WakeStepW(s: Pool, w: nat)
    requires PcInv(s) && WakeInv(s) && WorkerStep(s, w).Some?
    ensures WakeInv(WorkerStep(s, w).value)
  {
    var t := WorkerStep(s, w).value;
    if !t.sh.shutdown && SomeAsleep(t.workers) {
      WorkerCovers(s, w);
      WorkerFallsAsleep(s, w);
      SumsNonNegative(t.workers);
    }
  }

  lemma WakeEnqueue(s: Pool, p: nat, target: Option<nat>)
    requires WakeInv(s) && p < |s.producers| && EnqueueStep(s, p, target).Some?
    ensures WakeInv(EnqueueStep(s, p, target).value)
  {
    var t := EnqueueStep(s, p, target).value;
    if SomeAsleep(t.workers) {
      WakeChange(s.workers, target, Pledge);
      WakeChange(s.workers, target, Retired);
      SleeperWasAsleep(s, t, if target.Some? then target.value else |s.workers|);
    }
  }

  /** The other producer steps wake nobody, or everybody. */
  lemma ProducerWakes(s: Pool, p: nat, target: Option<nat>)
    requires ProducerStep(s, p, target).Some? && !s.producers[p].PEnqueue?
    ensures var t := ProducerStep(s, p, target).value;
            t.sh == s.sh && (t.workers == s.workers || !SomeAsleep(t.workers))
  {
  }

  lemma WakeStepP(s: Pool, p: nat, target: Option<nat>)
    requires WakeInv(s) && ProducerStep(s, p, target).Some?
    ensures WakeInv(ProducerStep(s, p, target).value)
  {
    if s.producers[p].PEnqueue? {
      WakeEnqueue(s, p, target);
    } else {
      ProducerWakes(s, p, target);
    }
  }

  lemma WakeSignal(s: Pool, k: nat, target: Option<nat>)
    requires WakeInv(s) && SignalStep(s, k, target).Some?
    ensures WakeInv(SignalStep(s, k, target).value)
  {
    var t := SignalStep(s, k, target).value;
    if SomeAsleep(t.workers) && k < DEFAULT_THREAD_VARY {
      WakeChange(s.workers, target, Pledge);
      WakeChange(s.workers, target, Retired);
      SleeperWasAsleep(s, t, if target.Some? then target.value else |s.workers|);
    }
  }

  lemma WakeGrow(s: Pool, i: nat, add: nat, live: int, busy: int, alive: bool)
    requires WakeInv(s) && GrowStep(s, i, add, live, busy, alive).Some?
    ensures WakeInv(GrowStep(s, i, add, live, busy, alive).value)
  {
    var t := GrowStep(s, i, add, live, busy, alive).value;
    SumAppend(s.workers, AtLock, Pledge);
    SumAppend(s.workers, AtLock, Retired);
    if SomeAsleep(t.workers) {
      var w :| 0 <= w < |t.workers| && t.workers[w] == Asleep;
      assert s.workers[w] == Asleep;
    }
  }

  lemma WakeStepM(s: Pool, target: Option<nat>, alive: bool)
    requires WakeInv(s) && ManagerStep(s, target, alive).Some?
    ensures WakeInv(ManagerStep(s, target, alive).value)
  {
    if s.mgr.MSignal? {
      WakeSignal(s, s.mgr.k, target);
    } else if s.mgr.MGrow? {
      WakeGrow(s, s.mgr.i, s.mgr.add, s.mgr.live, s.mgr.busy, alive);
    }
  }

  // ---- All together ----------------------------------------------------------------------

  lemma SpuriousSums(s: Pool, w: nat)
    requires w < |s.workers| && s.workers[w] == Asleep
    ensures var ws := s.workers[w := Woken(false)];
            && Sum(ws, Unretired) == Sum(s.workers, Unretired) && Sum(ws, Busy) == Sum(s.workers, Busy)
            && Sum(ws, Pledge) == Sum(s.workers, Pledge) && Sum(ws, Retired) == Sum(s.workers, Retired)
  {
    SumUpdate(s.workers, w, Woken(false), Unretired);
    SumUpdate(s.workers, w, Woken(false), Busy);
    SumUpdate(s.workers, w, Woken(false), Pledge);
    SumUpdate(s.workers, w, Woken(false), Retired);
  }

  lemma SpuriousWake(s: Pool, w: nat)
    requires WakeInv(s) && Step(s, WSpurious(w)).Some?
    ensures WakeInv(Step(s, WSpurious(w)).value)
  {
    var t := Step(s, WSpurious(w)).value;
    SpuriousSums(s, w);
    if SomeAsleep(t.workers) {
      SleeperWasAsleep(s, t, w);
    }
  }

  lemma SpuriousLock(s: Pool, w: nat)
    requires LockInv(s) && PcInv(s) && Step(s, WSpurious(w)).Some?
    ensures LockInv(Step(s, WSpurious(w)).value) && PcInv(Step(s, WSpurious(w)).value)
  {
  }

  lemma SpuriousStep(s: Pool, w: nat)
    requires Inv(s) && Step(s, WSpurious(w)).Some?
    ensures Inv(Step(s, WSpurious(w)).value)
  {
    var t := Step(s, WSpurious(w)).value;
    SpuriousSums(s, w);
    SpuriousWake(s, w);
    SpuriousLock(s, w);
    SlotFrame(s, t);
    LedgerFrame(s, t);
  }

  lemma BroadcastLock(s: Pool)
    requires LockInv(s) && PcInv(s) && Step(s, DestroyBroadcast).Some?
    ensures var t := Step(s, DestroyBroadcast).value; LockInv(t) && PcInv(t) && WakeInv(t)
  {
  }

  lemma DestroyStep(s: Pool)
    requires Inv(s) && Step(s, DestroyBroadcast).Some?
    ensures Inv(Step(s, DestroyBroadcast).value)
  {
    var t := Step(s, DestroyBroadcast).value;
    BroadcastKeeps(s.workers, Unretired);
    BroadcastKeeps(s.workers, Busy);
    BroadcastLock(s);
    SlotFrame(s, t);
    LedgerFrame(s, t);
  }

  lemma InvStepW(s: Pool, w: nat)
    requires Inv(s) && WorkerStep(s, w).Some?
    ensures Inv(WorkerStep(s, w).value)
  {
    BoundsStep(s, W(w));
    LockStepW(s, w);
    PcStepW(s, w);
    CountStepW(s, w);
    SlotStepW(s, w);
    LedgerStepW(s, w);
    WakeStepW(s, w);
  }

  lemma InvStepP(s: Pool, p: nat, target: Option<nat>)
    requires Inv(s) && ProducerStep(s, p, target).Some?
    ensures Inv(ProducerStep(s, p, target).value)
  {
    BoundsStep(s, P(p, target));
    LockStepP(s, p, target);
    PcStepP(s, p, target);
    CountStepP(s, p, target);
    SlotStepP(s, p, target);
    LedgerStepP(s, p, target);
    WakeStepP(s, p, target);
  }

  lemma InvStepM(s: Pool, target: Option<nat>, alive: bool)
    requires Inv(s) && ManagerStep(s, target, alive).Some?
    ensures Inv(ManagerStep(s, target, alive).value)
  {
    BoundsStep(s, M(target, alive));
    LockStepM(s, target, alive);
    PcStepM(s, target, alive);
    CountStepM(s, target, alive);
    SlotStepM(s, target, alive);
    LedgerStepM(s, target, alive);
    WakeStepM(s, target, alive);
  }

  lemma ProducerSpuriousStep(s: Pool, p: nat)
    requires Inv(s) && Step(s, PSpurious(p)).Some?
    ensures Inv(Step(s, PSpurious(p)).value)
  {
    LedgerFrame(s, Step(s, PSpurious(p)).value);
  }

  lemma ShutdownStep(s: Pool)
    requires Inv(s)
    ensures Inv(Step(s, SetShutdown).value)
  {
    LedgerFrame(s, Step(s, SetShutdown).value);
  }

  /** Every step keeps the invariant. */
  lemma InvStep(s: Pool, a: Action)
    requires Inv(s) && Step(s, a).Some?
    ensures Inv(Step(s, a).value)
  {
    match a {
      case W(w) => InvStepW(s, w);
      case P(p, target) => InvStepP(s, p, target);
      case M(target, alive) => InvStepM(s, target, alive);
      case WSpurious(w) => SpuriousStep(s, w);
      case PSpurious(p) => ProducerSpuriousStep(s, p);
      case SetShutdown => ShutdownStep(s);
      case DestroyBroadcast => DestroyStep(s);
    }
  }

  lemma {:induction false} SumOfOnes<T>(ws: seq<T>, f: T -> int, c: int)
    requires forall k :: 0 <= k < |ws| ==> f(ws[k]) == c
    ensures Sum(ws, f) == c * |ws|
  {
    if ws != [] {
      SumOfOnes(ws[..|ws| - 1], f, c);
    }
  }

  lemma InitInv(min: nat, max: nat, queueMax: nat, producers: nat)
    requires ValidArguments(min, max, queueMax)
    ensures Inv(Init(min, max, queueMax, producers))
  {
    var s := Init(min, max, queueMax, producers);
    SumOfOnes(s.workers, Unretired, 1);
    SumOfOnes(s.workers, Busy, 0);
    ModWrap(0, 0, queueMax);
  }

  /** Every reachable state satisfies the invariant. */
  lemma Safety(s: Pool)
    requires Reachable(s)
    ensures Inv(s)
  {
    var min: nat, max: nat, queueMax: nat, producers: nat, acts: seq<Action> :|
      ValidArguments(min, max, queueMax) && Exec(Step, Init(min, max, queueMax, producers), acts) == Some(s);
    InitInv(min, max, queueMax, producers);
    forall t, a | Inv(t) && Step(t, a).Some? ensures Inv(Step(t, a).value) {
      InvStep(t, a);
    }
    InvariantHolds(Step, Inv, Init(min, max, queueMax, producers), acts);
  }
}
