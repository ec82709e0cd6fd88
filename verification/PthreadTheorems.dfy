/**
 What the pthread pool guarantees in every run.
 */
module PthreadTheorems {
  import opened Basics
  import opened Counting
  import opened Runs
  import opened TaskRing
  import opened PoolData
  import opened PthreadPool
  import opened PthreadInvariants

  // ---- Sizes ------------------------------------------------------------------------

  /** However stale the manager's snapshots are, the pool stays between its bounds;
      both counters say what they are meant to count. */
  lemma SizeBounds(s: Pool)
    requires Reachable(s)
    ensures s.sh.min <= s.sh.live <= s.sh.max && s.sh.live == Sum(s.workers, Unretired)
    ensures 0 <= s.sh.waitExit <= DEFAULT_THREAD_VARY
    ensures 0 <= s.sh.busy <= s.sh.live && s.sh.busy == Sum(s.workers, Busy)
  {
    Safety(s);
    SumAtLeast(s.workers, Busy);
    SumMonotone(s.workers, Busy, Unretired);
  }

  /** The bounds a pool is created with are the ones it keeps. */
  lemma ConfigurationKept(min: nat, max: nat, queueMax: nat, producers: nat, acts: seq<Action>, s: Pool)
    requires Exec(Step, Init(min, max, queueMax, producers), acts) == Some(s)
    ensures s.sh.min == min && s.sh.max == max && |s.sh.ring.slots| == queueMax && |s.producers| == producers
  {
    var kept := (t: Pool) =>
      t.sh.min == min && t.sh.max == max && |t.sh.ring.slots| == queueMax && |t.producers| == producers;
    forall t, a | kept(t) && Step(t, a).Some? ensures kept(Step(t, a).value) {
      ConfigurationStep(t, a);
    }
    InvariantHolds(Step, kept, Init(min, max, queueMax, producers), acts);
  }

  ghost predicate SameConfiguration(s: Pool, t: Pool) {
    && t.sh.min == s.sh.min && t.sh.max == s.sh.max
    && |t.sh.ring.slots| == |s.sh.ring.slots| && |t.producers| == |s.producers|
  }

  lemma ConfigurationW(s: Pool, w: nat)
    requires WorkerStep(s, w).Some?
    ensures SameConfiguration(s, WorkerStep(s, w).value)
  {
  }

  lemma ConfigurationP(s: Pool, p: nat, target: Option<nat>)
    requires ProducerStep(s, p, target).Some?
    ensures SameConfiguration(s, ProducerStep(s, p, target).value)
  {
  }

  lemma ConfigurationM(s: Pool, target: Option<nat>, alive: bool)
    requires ManagerStep(s, target, alive).Some?
    ensures SameConfiguration(s, ManagerStep(s, target, alive).value)
  {
  }

  lemma ConfigurationStep(s: Pool, a: Action)
    requires Step(s, a).Some?
    ensures SameConfiguration(s, Step(s, a).value)
  {
    match a {
      case W(w) => ConfigurationW(s, w);
      case P(p, target) => ConfigurationP(s, p, target);
      case M(target, alive) => ConfigurationM(s, target, alive);
      case _ =>
    }
  }

  // ---- The queue is a FIFO --------------------------------------------------------------

  /** Taken tasks are a prefix of accepted tasks and the ring holds the rest,
      oldest at the front. */
  lemma RingIsFifo(s: Pool)
    requires Reachable(s)
    ensures 0 < |s.sh.ring.slots| && s.sh.ring.rear == (s.sh.ring.front + s.sh.ring.size) % |s.sh.ring.slots|
    ensures |s.runs| == |s.taken| + s.sh.ring.size
    ensures forall k :: 0 <= k < |s.runs| ==> (s.taken + Contents(s.sh.ring))[k] == k
  {
    Safety(s);
  }

  /** An accepted task is in the ring, or held by the one worker that took it, or
      executed; never executed twice, never held by two workers. */
  lemma TaskConservation(s: Pool, k: nat)
    requires Reachable(s) && k < |s.runs|
    ensures WellFormed(s.sh.ring) && |s.takenBy| == |s.taken| && |s.runs| == |s.taken| + s.sh.ring.size
    ensures s.runs[k] <= 1
    ensures k >= |s.taken| ==>
              s.runs[k] == 0 && Contents(s.sh.ring)[k - |s.taken|] == k && forall w :: !HoldsTask(s, w, k)
    ensures k < |s.taken| ==>
              && (s.runs[k] == 0 <==> HoldsTask(s, s.takenBy[k], k))
              && forall w :: HoldsTask(s, w, k) ==> w == s.takenBy[k]
  {
    Safety(s);
  }

  // ---- Shutdown without the lock -----------------------------------------------------------

  /** Queue mutations so far: tasks taken plus tasks accepted. */
  function Mutations(s: Pool): nat { |s.taken| + |s.runs| }

  /** Some lock holder has passed its shutdown check and will still change the queue. */
  predicate PastCheck(s: Pool) {
    || (s.owner.OfWorker? && s.owner.w < |s.workers| && s.workers[s.owner.w].AtDequeue?)
    || (s.owner.OfProducer? && s.owner.p < |s.producers| && s.producers[s.owner.p].PEnqueue?)
  }

  function Still(s: Pool): nat { Mutations(s) + if PastCheck(s) then 1 else 0 }

  lemma LateW(s: Pool, w: nat)
    requires LockInv(s) && s.sh.shutdown && WorkerStep(s, w).Some?
    ensures var t := WorkerStep(s, w).value;
            t.sh.shutdown && Still(t) <= Still(s) && Mutations(s) <= Mutations(t)
  {
  }

  lemma LateP(s: Pool, p: nat, target: Option<nat>)
    requires LockInv(s) && s.sh.shutdown && ProducerStep(s, p, target).Some?
    ensures var t := ProducerStep(s, p, target).value;
            t.sh.shutdown && Still(t) <= Still(s) && Mutations(s) <= Mutations(t)
  {
  }

  lemma LateM(s: Pool, target: Option<nat>, alive: bool)
    requires LockInv(s) && s.sh.shutdown && ManagerStep(s, target, alive).Some?
    ensures var t := ManagerStep(s, target, alive).value;
            t.sh.shutdown && Still(t) <= Still(s) && Mutations(s) <= Mutations(t)
  {
  }

  lemma LateStep(s: Pool, a: Action)
    requires LockInv(s) && s.sh.shutdown && Step(s, a).Some?
    ensures var t := Step(s, a).value;
            t.sh.shutdown && Still(t) <= Still(s) && Mutations(s) <= Mutations(t)
  {
    match a {
      case W(w) => LateW(s, w);
      case P(p, target) => LateP(s, p, target);
      case M(target, alive) => LateM(s, target, alive);
      case _ =>
    }
  }

  lemma {:induction false} LateRun(s: Pool, acts: seq<Action>)
    requires Inv(s) && s.sh.shutdown && Exec(Step, s, acts).Some?
    ensures var t := Exec(Step, s, acts).value; Still(t) <= Still(s) && Mutations(s) <= Mutations(t)
    decreases |acts|
  {
    if acts != [] {
      LateStep(s, acts[0]);
      InvStep(s, acts[0]);
      LateRun(Step(s, acts[0]).value, acts[1..]);
    }
  }

  /** Although shutdown is written without the lock, at most one enqueue or dequeue
      still happens after it, and none if no lock holder was past its check. */
  lemma AtMostOneLateMutation(s: Pool, acts: seq<Action>)
    requires Reachable(s) && s.sh.shutdown && Exec(Step, s, acts).Some?
    ensures var t := Exec(Step, s, acts).value;
            Mutations(s) <= Mutations(t) <= Mutations(s) + (if PastCheck(s) then 1 else 0)
  {
    Safety(s);
    LateRun(s, acts);
  }

  // ---- Wake-ups ---------------------------------------------------------------------------------

  /** Before shutdown, while a worker sleeps un-signalled, every queued task has a
      signalled worker on its way or was robbed of its signal by a retirement. */
  lemma WakeAccounting(s: Pool)
    requires Reachable(s) && !s.sh.shutdown && SomeAsleep(s.workers)
    ensures s.sh.ring.size <= Pledges(s) + Retirements(s)
  {
    Safety(s);
  }

  /** No wake-up is lost: queued tasks are covered by signalled workers. */
  ghost predicate Covered(s: Pool) { SomeAsleep(s.workers) ==> s.sh.ring.size <= Pledges(s) }

  lemma NoRetirementNoLoss(s: Pool)
    requires Reachable(s) && !s.sh.shutdown
    requires forall w :: 0 <= w < |s.workers| ==> Unretired(s.workers[w]) == 1
    ensures Covered(s)
  {
    Safety(s);
    SumZero(s.workers, Retired);
  }

  /** A signalled worker about to retire: the one place a task's signal is dropped. */
  predicate Robs(s: Pool, a: Action) {
    a.W? && a.w < |s.workers| && s.workers[a.w] == Resumed(true) && s.sh.waitExit > 0 && s.sh.live > s.sh.min
  }

  /** A worker step that does not rob never uses a signal up beside queued work. */
  lemma CoverDelta(s: Pool, w: nat)
    requires WorkerStep(s, w).Some? && !s.sh.shutdown
    ensures var t := WorkerStep(s, w).value;
            var was, now := s.workers[w], t.workers[w];
            if Robs(s, W(w)) then
              t.sh.ring.size == s.sh.ring.size && Pledge(was) == 1 && Pledge(now) == 0
            else t.sh.ring.size == 0 || t.sh.ring.size - Pledge(now) <= s.sh.ring.size - Pledge(was)
  {
  }

  lemma CoverW(s: Pool, w: nat)
    requires Inv(s) && Covered(s) && !s.sh.shutdown && WorkerStep(s, w).Some?
    ensures var t := WorkerStep(s, w).value;
            Covered(t) <==> !(Robs(s, W(w)) && SomeAsleep(t.workers) && s.sh.ring.size == Pledges(s))
  {
    var t := WorkerStep(s, w).value;
    WorkerDelta(s, w);
    CoverDelta(s, w);
    SumUpdate(s.workers, w, t.workers[w], Pledge);
    SumsNonNegative(t.workers);
    if SomeAsleep(t.workers) {
      WorkerFallsAsleep(s, w);
    }
  }

  lemma CoverP(s: Pool, p: nat, target: Option<nat>)
    requires Covered(s) && ProducerStep(s, p, target).Some?
    ensures Covered(ProducerStep(s, p, target).value)
  {
    var t := ProducerStep(s, p, target).value;
    if SomeAsleep(t.workers) && s.producers[p].PEnqueue? {
      WakeChange(s.workers, target, Pledge);
      SleeperWasAsleep(s, t, if target.Some? then target.value else |s.workers|);
    }
  }

  lemma CoverSignal(s: Pool, k: nat, target: Option<nat>)
    requires Covered(s) && SignalStep(s, k, target).Some?
    ensures Covered(SignalStep(s, k, target).value)
  {
    var t := SignalStep(s, k, target).value;
    if SomeAsleep(t.workers) && k < DEFAULT_THREAD_VARY {
      WakeChange(s.workers, target, Pledge);
      SleeperWasAsleep(s, t, if target.Some? then target.value else |s.workers|);
    }
  }

  lemma CoverGrow(s: Pool, i: nat, add: nat, live: int, busy: int, alive: bool)
    requires Covered(s) && GrowStep(s, i, add, live, busy, alive).Some?
    ensures Covered(GrowStep(s, i, add, live, busy, alive).value)
  {
    var t := GrowStep(s, i, add, live, busy, alive).value;
    SumAppend(s.workers, AtLock, Pledge);
    if SomeAsleep(t.workers) {
      var w :| 0 <= w < |t.workers| && t.workers[w] == Asleep;
      assert s.workers[w] == Asleep;
    }
  }

  lemma CoverSpurious(s: Pool, w: nat)
    requires Covered(s) && Step(s, WSpurious(w)).Some?
    ensures Covered(Step(s, WSpurious(w)).value)
  {
    var t := Step(s, WSpurious(w)).value;
    SumUpdate(s.workers, w, Woken(false), Pledge);
    if SomeAsleep(t.workers) {
      SleeperWasAsleep(s, t, w);
    }
  }

  /** A robbery that leaves a queued task uncovered: another worker sleeps and there
      was no signalled worker to spare. */
  ghost predicate LosesWakeup(s: Pool, a: Action) {
    Robs(s, a) && SomeAsleep(s.workers) && s.sh.ring.size == Pledges(s)
  }

  /** Retiring puts nobody to sleep and wakes nobody. */
  lemma RobberyKeepsSleepers(s: Pool, a: Action)
    requires Robs(s, a) && Step(s, a).Some?
    ensures SomeAsleep(Step(s, a).value.workers) <==> SomeAsleep(s.workers)
  {
    var t := Step(s, a).value;
    if SomeAsleep(s.workers) {
      var v :| 0 <= v < |s.workers| && s.workers[v] == Asleep;
      assert t.workers[v] == Asleep;
    }
    if SomeAsleep(t.workers) {
      SleeperWasAsleep(s, t, a.w);
    }
  }

  /** Exactly when a step loses a wake-up. */
  lemma WakeupLostExactlyWhen(s: Pool, a: Action)
    requires Inv(s) && Covered(s) && !s.sh.shutdown && Step(s, a).Some?
    ensures Covered(Step(s, a).value) <==> !LosesWakeup(s, a)
  {
    match a {
      case W(w) =>
        CoverW(s, w);
        if Robs(s, a) {
          RobberyKeepsSleepers(s, a);
        }
      case P(p, target) => CoverP(s, p, target);
      case M(target, alive) =>
        if s.mgr.MSignal? {
          CoverSignal(s, s.mgr.k, target);
        } else if s.mgr.MGrow? {
          CoverGrow(s, s.mgr.i, s.mgr.add, s.mgr.live, s.mgr.busy, alive);
        }
      case WSpurious(w) => CoverSpurious(s, w);
      case _ =>
    }
  }

  /** Every state of the run is covered. */
  ghost predicate AlwaysCovered(s: Pool, acts: seq<Action>)
    decreases |acts|
  {
    Covered(s) && (acts != [] && Step(s, acts[0]).Some? ==> AlwaysCovered(Step(s, acts[0]).value, acts[1..]))
  }

  /** No step of the run loses a wake-up. */
  ghost predicate NeverLoses(s: Pool, acts: seq<Action>)
    decreases |acts|
  {
    acts != [] ==>
      !LosesWakeup(s, acts[0]) && (Step(s, acts[0]).Some? ==> NeverLoses(Step(s, acts[0]).value, acts[1..]))
  }

  lemma OnlySetShutdownSets(s: Pool, a: Action)
    requires Step(s, a).Some? && a != SetShutdown
    ensures Step(s, a).value.sh.shutdown == s.sh.shutdown
  {
    if a.W? {
      WorkerDelta(s, a.w);
    }
  }

  lemma {:induction false} CoveredRun(s: Pool, acts: seq<Action>)
    requires Inv(s) && Covered(s) && !s.sh.shutdown && SetShutdown !in acts && Exec(Step, s, acts).Some?
    ensures AlwaysCovered(s, acts) <==> NeverLoses(s, acts)
    decreases |acts|
  {
    if acts != [] {
      var t := Step(s, acts[0]).value;
      WakeupLostExactlyWhen(s, acts[0]);
      InvStep(s, acts[0]);
      OnlySetShutdownSets(s, acts[0]);
      if Covered(t) {
        CoveredRun(t, acts[1..]);
      }
    }
  }

  /** A run before shutdown covers its queued tasks in every state if and only if no
      step of it is a signalled worker that retires beside a sleeper with no signalled
      worker to spare. */
  lemma RunCoveredExactlyWhen(min: nat, max: nat, queueMax: nat, producers: nat, acts: seq<Action>)
    requires ValidArguments(min, max, queueMax) && SetShutdown !in acts
    requires Exec(Step, Init(min, max, queueMax, producers), acts).Some?
    ensures var s := Init(min, max, queueMax, producers); AlwaysCovered(s, acts) <==> NeverLoses(s, acts)
  {
    var s := Init(min, max, queueMax, producers);
    InitInv(min, max, queueMax, producers);
    SumAtLeast(s.workers, Pledge);
    CoveredRun(s, acts);
  }

  /** A step of the thread that holds the lock. */
  predicate OfOwner(s: Pool, a: Action) {
    match s.owner
    case Nobody => false
    case OfWorker(w) => a == W(w)
    case OfProducer(p) => a.P? && a.p == p
    case OfManager => a.M?
  }

  lemma HolderCanMove(s: Pool) returns (a: Action)
    requires Inv(s) && s.owner != Nobody
    ensures Step(s, a).Some? && OfOwner(s, a)
  {
    match s.owner {
      case OfWorker(w) => a := W(w);
      case OfProducer(p) =>
        if w :| 0 <= w < |s.workers| && s.workers[w] == Asleep {
          a := P(p, Some(w));
        } else {
          a := P(p, None);
        }
      case OfManager => a := M(None, true);
    }
  }

  lemma {:induction false} SumPositive(ws: seq<Worker>, f: Worker -> int) returns (w: nat)
    requires Sum(ws, f) > 0
    ensures w < |ws| && f(ws[w]) > 0
  {
    var n := |ws| - 1;
    if f(ws[n]) > 0 {
      w := n;
    } else {
      w := SumPositive(ws[..n], f);
    }
  }

  /** While no wake-up was lost the pool does not stall beside queued work: the holder
      of the lock can move, and when nobody holds it, a worker that has not retired. */
  lemma QueuedWorkMoves(s: Pool) returns (a: Action)
    requires Reachable(s) && !s.sh.shutdown && Covered(s) && s.sh.ring.size > 0
    ensures Step(s, a).Some?
    ensures if s.owner != Nobody then OfOwner(s, a)
            else a.W? && a.w < |s.workers| && Unretired(s.workers[a.w]) == 1
  {
    Safety(s);
    if s.owner != Nobody {
      a := HolderCanMove(s);
    } else {
      var w := SumPositive(s.workers, Unretired);
      if s.workers[w] == Asleep {
        w := SumPositive(s.workers, Pledge);
      }
      a := W(w);
    }
  }

  /** A producer waits un-notified only while the queue is full. */
  lemma ProducersNeverSleepBesideRoom(s: Pool, p: nat)
    requires Reachable(s) && p < |s.producers| && s.producers[p] == PAsleep
    ensures s.sh.ring.size == |s.sh.ring.slots|
  {
    Safety(s);
  }

  // ---- The slot table --------------------------------------------------------------------------

  /** Every worker that has not exited occupies exactly one slot. */
  lemma OneSlotEach(s: Pool, w: nat)
    requires Reachable(s) && w < |s.workers| && !s.workers[w].Gone?
    ensures w < |s.home| && s.home[w] < |s.sh.threads|
    ensures forall i :: 0 <= i < |s.sh.threads| ==> (s.sh.threads[i] == Some(w) <==> i == s.home[w])
  {
    Safety(s);
  }

  lemma HomeStep(s: Pool, a: Action)
    requires Step(s, a).Some?
    ensures s.home <= Step(s, a).value.home && |s.workers| <= |Step(s, a).value.workers|
  {
    match a {
      case W(w) => WorkerTableKept(s, w); WorkerDelta(s, w);
      case P(p, target) => ProducerHome(s, p, target);
      case _ =>
    }
  }

  lemma ProducerHome(s: Pool, p: nat, target: Option<nat>)
    requires ProducerStep(s, p, target).Some?
    ensures var t := ProducerStep(s, p, target).value; t.home == s.home && |t.workers| == |s.workers|
  {
  }

  lemma {:induction false} HomeKept(s: Pool, acts: seq<Action>)
    requires Inv(s) && Exec(Step, s, acts).Some?
    ensures var t := Exec(Step, s, acts).value; Inv(t) && s.home <= t.home
    decreases |acts|
  {
    if acts != [] {
      HomeStep(s, acts[0]);
      InvStep(s, acts[0]);
      HomeKept(Step(s, acts[0]).value, acts[1..]);
    }
  }

  /** Growth never overwrites a live thread: a worker keeps the slot it was created
      in until it has exited, whatever the manager does meanwhile. */
  lemma SlotKeptUntilExit(s: Pool, acts: seq<Action>, w: nat)
    requires Reachable(s) && w < |s.home| && Exec(Step, s, acts).Some?
    ensures var t := Exec(Step, s, acts).value;
            && w < |t.workers| && s.home[w] < |t.sh.threads|
            && (!t.workers[w].Gone? ==> t.sh.threads[s.home[w]] == Some(w))
  {
    Safety(s);
    HomeKept(s, acts);
  }
}
