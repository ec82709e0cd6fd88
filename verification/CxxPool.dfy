/**
 The C++11 thread pool: worker loop, `enqueue` and destructor as a labelled
 transition system in which every lock acquisition, critical section, task
 completion and notification is a step of its own, in any interleaving.

 A task's ticket is its place in the order of acceptance.
 */
module CxxPool {
  import opened Basics
  import opened Counting
  import opened Runs

  type Ticket = nat

  // ---- The data protected by queue_mutex ------------------------------------

  datatype Monitor = Monitor(tasks: seq<Ticket>, stop: bool)

  /** The predicate handed to condition.wait. */
  predicate MayProceed(m: Monitor) { m.stop || m.tasks != [] }

  /** The critical section of enqueue; None stands for the exception. */
  function Submit(m: Monitor, t: Ticket): Option<Monitor> {
    if m.stop then None else Some(m.(tasks := m.tasks + [t]))
  }

  /** A worker's critical section after its wait; None means the worker returns. */
  function Fetch(m: Monitor): (r: (Option<Ticket>, Monitor))
    requires MayProceed(m)
  {
    if m.tasks == [] then (None, m) else (Some(m.tasks[0]), m.(tasks := m.tasks[1..]))
  }

  // ---- Threads and their program counters -----------------------------------

  datatype Worker =
    | AtLock                    // about to lock queue_mutex
    | Asleep                    // in condition.wait, not notified
    | Woken(notified: bool)     // taken off the wait set, by a notification or spuriously
    | Checking(notified: bool)  // holds the lock, about to evaluate the wait predicate
    | Running(ticket: Ticket)   // took a task, lock released
    | Exited

  datatype Client =
    | Idle
    | AtEnqueue                 // called enqueue, wants the lock
    | Submitting                // holds the lock
    | Window                    // unlocked, has not yet called notify_one

  datatype Destructor = NotCalled | Locking | Stopping | Stopped | Joining(joined: nat)

  datatype Owner = Nobody | OfWorker(w: nat) | OfClient(c: nat) | OfDestructor

  /** `taken`, `takenBy` and `runs` are histories: the tickets in the order they were
      taken, who took each, and how often each accepted task has run.
      `ready` is the state of the returned futures. */
  datatype Pool = Pool(
    mon: Monitor, owner: Owner, workers: seq<Worker>, clients: seq<Client>, dtor: Destructor,
    taken: seq<Ticket>, takenBy: seq<nat>, runs: seq<nat>, ready: seq<bool>, rejected: nat)

  datatype Action =
    | Call(c: nat) | ClientLock(c: nat) | ClientBody(c: nat) | NotifyOne(c: nat, target: Option<nat>)
    | WorkerLock(w: nat) | WorkerBody(w: nat) | Finish(w: nat) | Spurious(w: nat)
    | Destroy | DtorLock | SetStop | NotifyAll | Join

  function Init(workers: nat, clients: nat): Pool {
    Pool(Monitor([], false), Nobody, seq(workers, _ => AtLock), seq(clients, _ => Idle), NotCalled,
         [], [], [], [], 0)
  }

  predicate SomeAsleep(ws: seq<Worker>) { exists w :: 0 <= w < |ws| && ws[w] == Asleep }

  function WakeAll(ws: seq<Worker>): (r: seq<Worker>)
    ensures |r| == |ws| && !SomeAsleep(r)
  {
    seq(|ws|, i requires 0 <= i < |ws| => if ws[i] == Asleep then Woken(true) else ws[i])
  }

  predicate At(s: Pool, w: nat, pc: Worker) { w < |s.workers| && s.workers[w] == pc }

  predicate ClientAt(s: Pool, c: nat, pc: Client) { c < |s.clients| && s.clients[c] == pc }

  function SetWorker(s: Pool, w: nat, pc: Worker): Pool
    requires w < |s.workers|
  {
    s.(workers := s.workers[w := pc])
  }

  function SetClient(s: Pool, c: nat, pc: Client): Pool
    requires c < |s.clients|
  {
    s.(clients := s.clients[c := pc])
  }

  // ---- Steps ----------------------------------------------------------------

  function ClientBodyStep(s: Pool, c: nat): Pool
    requires c < |s.clients|
  {
    match Submit(s.mon, |s.runs|)
    case None => SetClient(s, c, Idle).(owner := Nobody, rejected := s.rejected + 1)
    case Some(m) =>
      SetClient(s, c, Window).(owner := Nobody, mon := m, runs := s.runs + [0], ready := s.ready + [false])
  }

  function WorkerBodyStep(s: Pool, w: nat): Pool
    requires w < |s.workers|
  {
    if !MayProceed(s.mon) then SetWorker(s, w, Asleep).(owner := Nobody)
    else
      match Fetch(s.mon)
      case (None, _) => SetWorker(s, w, Exited).(owner := Nobody)
      case (Some(t), m) =>
        SetWorker(s, w, Running(t)).(owner := Nobody, mon := m, taken := s.taken + [t], takenBy := s.takenBy + [w])
  }

  function FinishStep(s: Pool, w: nat): Option<Pool> {
    if w < |s.workers| && s.workers[w].Running? && s.workers[w].ticket < |s.runs| == |s.ready| then
      var t := s.workers[w].ticket;
      Some(SetWorker(s, w, AtLock).(runs := s.runs[t := s.runs[t] + 1], ready := s.ready[t := true]))
    else None
  }

  function NotifyOneStep(s: Pool, c: nat, target: Option<nat>): Option<Pool> {
    if !ClientAt(s, c, Window) then None
    else
      match target
      case Some(w) =>
        if At(s, w, Asleep) then Some(SetWorker(SetClient(s, c, Idle), w, Woken(true))) else None
      case None =>
        if SomeAsleep(s.workers) then None else Some(SetClient(s, c, Idle))
  }

  function Step(s: Pool, a: Action): Option<Pool> {
    match a
    case Call(c) => if ClientAt(s, c, Idle) then Some(SetClient(s, c, AtEnqueue)) else None
    case ClientLock(c) =>
      if s.owner == Nobody && ClientAt(s, c, AtEnqueue)
      then Some(SetClient(s, c, Submitting).(owner := OfClient(c))) else None
    case ClientBody(c) => if ClientAt(s, c, Submitting) then Some(ClientBodyStep(s, c)) else None
    case NotifyOne(c, target) => NotifyOneStep(s, c, target)
    case WorkerLock(w) =>
      if s.owner == Nobody && w < |s.workers| && (s.workers[w] == AtLock || s.workers[w].Woken?)
      then Some(SetWorker(s, w, Checking(s.workers[w] == Woken(true))).(owner := OfWorker(w))) else None
    case WorkerBody(w) =>
      if w < |s.workers| && s.workers[w].Checking? then Some(WorkerBodyStep(s, w)) else None
    case Finish(w) => FinishStep(s, w)
    case Spurious(w) => if At(s, w, Asleep) then Some(SetWorker(s, w, Woken(false))) else None
    case Destroy => if s.dtor == NotCalled then Some(s.(dtor := Locking)) else None
    case DtorLock =>
      if s.owner == Nobody && s.dtor == Locking then Some(s.(dtor := Stopping, owner := OfDestructor)) else None
    case SetStop =>
      if s.dtor == Stopping then Some(s.(dtor := Stopped, owner := Nobody, mon := s.mon.(stop := true))) else None
    case NotifyAll =>
      if s.dtor == Stopped then Some(s.(dtor := Joining(0), workers := WakeAll(s.workers))) else None
    case Join =>
      if s.dtor.Joining? && At(s, s.dtor.joined, Exited) then Some(s.(dtor := Joining(s.dtor.joined + 1))) else None
  }

  ghost predicate Reachable(s: Pool) {
    exists workers: nat, clients: nat, acts: seq<Action> ::
      Exec(Step, Init(workers, clients), acts) == Some(s)
  }

  // ---- The invariant ---------------------------------------------------------

  /** Mutual exclusion: exactly the recorded owner is inside a critical section. */
  ghost predicate LockInv(s: Pool) {
    && (forall w :: 0 <= w < |s.workers| ==> (s.workers[w].Checking? <==> s.owner == OfWorker(w)))
    && (forall c :: 0 <= c < |s.clients| ==> (s.clients[c] == Submitting <==> s.owner == OfClient(c)))
    && (s.dtor == Stopping <==> s.owner == OfDestructor)
    && (s.owner.OfWorker? ==> s.owner.w < |s.workers|)
    && (s.owner.OfClient? ==> s.owner.c < |s.clients|)
  }

  /** Tickets leave the queue in acceptance order; a taken ticket is either held by
      exactly the worker that took it, or has run once and its future is ready. */
  ghost predicate LedgerInv(s: Pool) {
    && |s.takenBy| == |s.taken| && |s.ready| == |s.runs| == |s.taken| + |s.mon.tasks|
    && (forall k :: 0 <= k < |s.taken| ==> s.taken[k] == k && s.takenBy[k] < |s.workers|)
    && (forall j :: 0 <= j < |s.mon.tasks| ==> s.mon.tasks[j] == |s.taken| + j)
    && (forall k :: 0 <= k < |s.runs| ==> s.runs[k] <= 1 && (s.ready[k] <==> s.runs[k] == 1))
    && (forall k :: |s.taken| <= k < |s.runs| ==> s.runs[k] == 0)
    && (forall k :: 0 <= k < |s.taken| && s.runs[k] == 0 ==> At(s, s.takenBy[k], Running(k)))
    && (forall w :: 0 <= w < |s.workers| && s.workers[w].Running? ==>
         var k := s.workers[w].ticket;
         k < |s.taken| && s.takenBy[k] == w && s.runs[k] == 0)
  }

  ghost predicate StopInv(s: Pool) {
    && (s.mon.stop <==> s.dtor.Stopped? || s.dtor.Joining?)
    && (forall w :: 0 <= w < |s.workers| && s.workers[w] == Exited ==> s.mon.stop && s.mon.tasks == [])
    && (s.dtor.Joining? ==>
         && s.dtor.joined <= |s.workers|
         && !SomeAsleep(s.workers)
         && forall w :: 0 <= w < s.dtor.joined ==> s.workers[w] == Exited)
  }

  function Pledge(w: Worker): int { if w == Woken(true) || w == Checking(true) then 1 else 0 }

  function InWindow(c: Client): int { if c == Window then 1 else 0 }

  /** Notifications under way: workers notified that have not yet acted on it, and
      enqueuers between their unlock and their notify_one. */
  ghost function Outstanding(s: Pool): int { Sum(s.workers, Pledge) + Sum(s.clients, InWindow) }

  ghost predicate WakeInv(s: Pool) {
    SomeAsleep(s.workers) ==> |s.mon.tasks| <= Outstanding(s)
  }

  ghost predicate Inv(s: Pool) { LockInv(s) && LedgerInv(s) && StopInv(s) && WakeInv(s) }

  /** Steps that leave the ledger alone and neither start nor end a task. */
  lemma LedgerFrame(s: Pool, t: Pool)
    requires LedgerInv(s) && |t.workers| == |s.workers|
    requires t.mon.tasks == s.mon.tasks && t.taken == s.taken && t.takenBy == s.takenBy
    requires t.runs == s.runs && t.ready == s.ready
    requires forall w :: 0 <= w < |s.workers| ==>
               s.workers[w] == t.workers[w] || (!s.workers[w].Running? && !t.workers[w].Running?)
    ensures LedgerInv(t)
  {
    forall k | 0 <= k < |t.taken| && t.runs[k] == 0 ensures At(t, t.takenBy[k], Running(k)) {
      assert At(s, s.takenBy[k], Running(k));
    }
  }

  lemma LedgerFetch(s: Pool, w: nat)
    requires LedgerInv(s) && Step(s, WorkerBody(w)).Some? && s.mon.tasks != []
    ensures LedgerInv(Step(s, WorkerBody(w)).value)
  {
    var t := Step(s, WorkerBody(w)).value;
    forall k | 0 <= k < |t.taken| && t.runs[k] == 0 ensures At(t, t.takenBy[k], Running(k)) {
      assert k < |s.taken| ==> At(s, s.takenBy[k], Running(k));
    }
  }

  lemma LedgerFinish(s: Pool, w: nat)
    requires LedgerInv(s) && Step(s, Finish(w)).Some?
    ensures LedgerInv(Step(s, Finish(w)).value)
  {
    var t := Step(s, Finish(w)).value;
    forall k | 0 <= k < |t.taken| && t.runs[k] == 0 ensures At(t, t.takenBy[k], Running(k)) {
      assert At(s, s.takenBy[k], Running(k));
    }
  }

  lemma LedgerAccept(s: Pool, c: nat)
    requires LedgerInv(s) && Step(s, ClientBody(c)).Some? && !s.mon.stop
    ensures LedgerInv(Step(s, ClientBody(c)).value)
  {
    var t := Step(s, ClientBody(c)).value;
    forall k | 0 <= k < |t.taken| && t.runs[k] == 0 ensures At(t, t.takenBy[k], Running(k)) {
      assert At(s, s.takenBy[k], Running(k));
    }
  }

  lemma LedgerStep(s: Pool, a: Action)
    requires LedgerInv(s) && Step(s, a).Some?
    ensures LedgerInv(Step(s, a).value)
  {
    if a.WorkerBody? && s.mon.tasks != [] {
      LedgerFetch(s, a.w);
    } else if a.Finish? {
      LedgerFinish(s, a.w);
    } else if a.ClientBody? && !s.mon.stop {
      LedgerAccept(s, a.c);
    } else {
      LedgerFrame(s, Step(s, a).value);
    }
  }

  lemma LockStepWorker(s: Pool, a: Action)
    requires LockInv(s) && Step(s, a).Some? && (a.WorkerLock? || a.WorkerBody? || a.Finish? || a.Spurious?)
    ensures LockInv(Step(s, a).value)
  {
  }

  lemma LockStepClient(s: Pool, a: Action)
    requires LockInv(s) && Step(s, a).Some? && (a.Call? || a.ClientLock? || a.ClientBody? || a.NotifyOne?)
    ensures LockInv(Step(s, a).value)
  {
  }

  lemma LockStep(s: Pool, a: Action)
    requires LockInv(s) && Step(s, a).Some?
    ensures LockInv(Step(s, a).value)
  {
    match a {
      case WorkerLock(_) => LockStepWorker(s, a);
      case WorkerBody(_) => LockStepWorker(s, a);
      case Finish(_) => LockStepWorker(s, a);
      case Spurious(_) => LockStepWorker(s, a);
      case Call(_) => LockStepClient(s, a);
      case ClientLock(_) => LockStepClient(s, a);
      case ClientBody(_) => LockStepClient(s, a);
      case NotifyOne(_, _) => LockStepClient(s, a);
      case _ =>
    }
  }

  lemma StopStepWorker(s: Pool, w: nat)
    requires LockInv(s) && StopInv(s) && Step(s, WorkerBody(w)).Some?
    ensures StopInv(Step(s, WorkerBody(w)).value)
  {
  }

  lemma StopStep(s: Pool, a: Action)
    requires LockInv(s) && StopInv(s) && Step(s, a).Some?
    ensures StopInv(Step(s, a).value)
  {
    if a.WorkerBody? {
      StopStepWorker(s, a.w);
    }
  }

  /** A worker falls asleep only beside an empty queue. */
  lemma AsleepOrigin(s: Pool, a: Action)
    requires Step(s, a).Some? && SomeAsleep(Step(s, a).value.workers)
    ensures SomeAsleep(s.workers) || (Step(s, a).value.mon.tasks == [] && s.mon.tasks == [])
  {
    var t := Step(s, a).value;
    var w :| 0 <= w < |t.workers| && t.workers[w] == Asleep;
    if !(a.WorkerBody? && a.w == w) {
      assert s.workers[w] == Asleep;
    }
  }

  lemma OutstandingWorker(s: Pool, a: Action)
    requires Step(s, a).Some? && (a.WorkerLock? || a.WorkerBody? || a.Finish? || a.Spurious?)
    ensures var t := Step(s, a).value;
            && t.clients == s.clients
            && Sum(t.workers, Pledge) == Sum(s.workers, Pledge)
                 - (if a.WorkerBody? && s.workers[a.w] == Checking(true) then 1 else 0)
  {
    SumUpdate(s.workers, a.w, Step(s, a).value.workers[a.w], Pledge);
  }

  lemma OutstandingClient(s: Pool, a: Action)
    requires Step(s, a).Some? && (a.Call? || a.ClientLock? || a.ClientBody?)
    ensures var t := Step(s, a).value;
            && t.workers == s.workers
            && Sum(t.clients, InWindow) == Sum(s.clients, InWindow)
                 + (if a.ClientBody? && !s.mon.stop then 1 else 0)
  {
    SumUpdate(s.clients, a.c, Step(s, a).value.clients[a.c], InWindow);
  }

  /** How one step changes the notifications under way. */
  lemma OutstandingStep(s: Pool, a: Action)
    requires Step(s, a).Some? && !a.NotifyAll?
    ensures var t := Step(s, a).value;
            Outstanding(t) == Outstanding(s)
              + (if a.ClientBody? && !s.mon.stop then 1
                 else if a.NotifyOne? && a.target == None then -1
                 else if a.WorkerBody? && s.workers[a.w] == Checking(true) then -1
                 else 0)
  {
    if a.NotifyOne? {
      SumUpdate(s.clients, a.c, Idle, InWindow);
      if a.target.Some? {
        SumUpdate(s.workers, a.target.value, Woken(true), Pledge);
      }
    } else if a.WorkerLock? || a.WorkerBody? || a.Finish? || a.Spurious? {
      OutstandingWorker(s, a);
    } else if a.Call? || a.ClientLock? || a.ClientBody? {
      OutstandingClient(s, a);
    }
  }

  lemma WakeStep(s: Pool, a: Action)
    requires WakeInv(s) && Step(s, a).Some?
    ensures WakeInv(Step(s, a).value)
  {
    var t := Step(s, a).value;
    if SomeAsleep(t.workers) {
      AsleepOrigin(s, a);
      OutstandingStep(s, a);
      SumAtLeast(t.workers, Pledge);
      SumAtLeast(t.clients, InWindow);
    }
  }

  /** Every reachable state satisfies the invariant. */
  lemma {:induction false} Safety(s: Pool)
    requires Reachable(s)
    ensures Inv(s)
  {
    var workers: nat, clients: nat, acts: seq<Action> :| Exec(Step, Init(workers, clients), acts) == Some(s);
    forall t, a | Inv(t) && Step(t, a).Some? ensures Inv(Step(t, a).value) {
      LockStep(t, a);
      LedgerStep(t, a);
      StopStep(t, a);
      WakeStep(t, a);
    }
    InvariantHolds(Step, Inv, Init(workers, clients), acts);
  }

  // ---- Drain on stop ---------------------------------------------------------

  predicate Joined(s: Pool) { s.dtor.Joining? && s.dtor.joined == |s.workers| }

  /** Every accepted task was taken, in acceptance order, ran exactly once, and
      its future is ready. */
  ghost predicate Drained(s: Pool) {
    && s.mon.tasks == [] && |s.taken| == |s.runs| == |s.ready|
    && forall k :: 0 <= k < |s.runs| ==> s.taken[k] == k && s.runs[k] == 1 && s.ready[k]
  }

  /** When the destructor's joins are over the pool has drained, unless it was
      built without workers and still accepted a task. */
  lemma DrainOnStop(s: Pool)
    requires Reachable(s) && Joined(s)
    ensures Drained(s) <==> |s.workers| > 0 || s.runs == []
  {
    Safety(s);
    if |s.workers| > 0 {
      assert s.workers[0] == Exited;
      forall k | 0 <= k < |s.runs| ensures s.runs[k] == 1 {
        assert s.workers[s.takenBy[k]] == Exited;
      }
    }
    assert s.taken != [] ==> s.takenBy[0] < |s.workers|;
  }

  lemma ReachableNext(s: Pool, a: Action, t: Pool)
    requires Reachable(s) && Step(s, a) == Some(t)
    ensures Reachable(t)
  {
    var workers: nat, clients: nat, acts: seq<Action> :| Exec(Step, Init(workers, clients), acts) == Some(s);
    ExecNext(Step, Init(workers, clients), acts, s, a, t);
  }

  /** The excluded case happens: a pool of no workers accepts a task and is
      destroyed without ever running it. */
  lemma NoWorkersLoseTask() returns (s: Pool)
    ensures Reachable(s) && Joined(s) && s.mon.tasks == [0] && s.ready == [false]
  {
    var s0 := Init(0, 1);
    assert Exec(Step, s0, []) == Some(s0);
    var s1 := EnqueueAlone(s0);
    s := DestroyIdle(s1);
  }

  lemma EnterAlone(s: Pool) returns (t: Pool)
    requires Reachable(s) && s.clients == [Idle] && s.owner == Nobody
    ensures Reachable(t) && t == s.(clients := [Submitting], owner := OfClient(0))
  {
    var s1 := s.(clients := [AtEnqueue]);
    assert s.clients[0 := AtEnqueue] == s1.clients;
    ReachableNext(s, Call(0), s1);
    t := s1.(clients := [Submitting], owner := OfClient(0));
    assert s1.clients[0 := Submitting] == t.clients;
    ReachableNext(s1, ClientLock(0), t);
  }

  /** One enqueue, start to end, by the only client of a pool without workers. */
  lemma EnqueueAlone(s: Pool) returns (t: Pool)
    requires Reachable(s) && s.workers == [] && s.clients == [Idle] && s.owner == Nobody && !s.mon.stop
    ensures Reachable(t)
    ensures t == s.(mon := s.mon.(tasks := s.mon.tasks + [|s.runs|]), runs := s.runs + [0], ready := s.ready + [false])
  {
    var s2 := EnterAlone(s);
    var s3 := ClientBodyStep(s2, 0);
    assert s2.clients[0 := Window] == [Window] == s3.clients;
    ReachableNext(s2, ClientBody(0), s3);
    t := s3.(clients := [Idle]);
    assert s3.clients[0 := Idle] == t.clients;
    ReachableNext(s3, NotifyOne(0, None), t);
  }

  /** Running the destructor of a pool without workers. */
  lemma DestroyIdle(s: Pool) returns (t: Pool)
    requires Reachable(s) && s.workers == [] && s.owner == Nobody && s.dtor == NotCalled
    ensures Reachable(t) && t == s.(dtor := Joining(0), mon := s.mon.(stop := true))
  {
    var s1 := s.(dtor := Locking);
    var s2 := s1.(dtor := Stopping, owner := OfDestructor);
    var s3 := s2.(dtor := Stopped, owner := Nobody, mon := s.mon.(stop := true));
    t := s3.(dtor := Joining(0));
    ReachableNext(s, Destroy, s1);
    ReachableNext(s1, DtorLock, s2);
    ReachableNext(s2, SetStop, s3);
    ReachableNext(s3, NotifyAll, t);
  }

  // ---- No lost wake-up -------------------------------------------------------

  /** While a worker sleeps un-notified, every queued task has a notification
      under way, also in the gap between unlock and notify_one. */
  lemma NoLostWakeup(s: Pool)
    requires Reachable(s) && SomeAsleep(s.workers)
    ensures |s.mon.tasks| <= Outstanding(s)
  {
    Safety(s);
  }

  /** Steps the pool's own threads take; the others belong to the environment. */
  predicate Internal(a: Action) { !a.Call? && !a.Destroy? && !a.Spurious? }

  lemma OwnerCanMove(s: Pool) returns (a: Action)
    requires LockInv(s) && s.owner != Nobody
    ensures Internal(a) && Step(s, a).Some?
  {
    match s.owner {
      case OfWorker(w) => a := WorkerBody(w);
      case OfClient(c) => a := ClientBody(c);
      case OfDestructor => a := SetStop;
    }
  }

  lemma WorkerCanMove(s: Pool, w: nat) returns (a: Action)
    requires LockInv(s) && LedgerInv(s) && s.owner == Nobody && w < |s.workers|
    requires s.workers[w] != Asleep && s.workers[w] != Exited
    ensures Internal(a) && Step(s, a).Some?
  {
    a := if s.workers[w].Running? then Finish(w) else WorkerLock(w);
  }

  /** When everyone sleeps beside queued work, some enqueuer is about to notify. */
  lemma NotifierExists(s: Pool) returns (c: nat)
    requires WakeInv(s) && s.mon.tasks != [] && |s.workers| > 0
    requires forall w :: 0 <= w < |s.workers| ==> s.workers[w] == Asleep
    ensures ClientAt(s, c, Window)
  {
    assert s.workers[0] == Asleep;
    SumZero(s.workers, Pledge);
    if forall c :: 0 <= c < |s.clients| ==> s.clients[c] != Window {
      SumZero(s.clients, InWindow);
      assert false;
    }
    c :| c < |s.clients| && s.clients[c] == Window;
  }

  /** With a worker in the pool, queued work or an unfinished destructor always
      leaves some thread of the pool able to move: it never deadlocks. */
  lemma NeverStuck(s: Pool) returns (a: Action)
    requires Reachable(s) && |s.workers| > 0
    requires s.mon.tasks != [] || (s.dtor != NotCalled && !Joined(s))
    ensures Internal(a) && Step(s, a).Some?
  {
    Safety(s);
    if s.owner != Nobody {
      a := OwnerCanMove(s);
    } else if w :| 0 <= w < |s.workers| && s.workers[w] != Asleep && s.workers[w] != Exited {
      a := WorkerCanMove(s, w);
    } else if s.dtor == Locking {
      a := DtorLock;
    } else if s.dtor == Stopped {
      a := NotifyAll;
    } else if s.dtor.Joining? {
      assert s.workers[0] == Exited;
      a := Join;
    } else {
      var c := NotifierExists(s);
      a := NotifyOne(c, Some(0));
    }
  }

  // ---- Progress after notify_all ---------------------------------------------

  predicate OfAWorker(a: Action) { a.WorkerLock? || a.WorkerBody? || a.Finish? || a.Spurious? }

  function Rank(w: Worker): int {
    match w
    case Exited => 0
    case Checking(_) => 1
    case Running(_) => 3
    case _ => 2
  }

  /** How many steps the workers still have to take once stop is announced. */
  ghost function Remaining(s: Pool): int { 3 * |s.mon.tasks| + Sum(s.workers, Rank) }

  ghost function WorkerSteps(acts: seq<Action>): nat {
    if acts == [] then 0 else (if OfAWorker(acts[0]) then 1 else 0) + WorkerSteps(acts[1..])
  }

  /** What one worker step does to the rank of its worker and to the queue. */
  lemma RankDelta(s: Pool, a: Action)
    requires StopInv(s) && s.dtor.Joining? && Step(s, a).Some? && OfAWorker(a)
    ensures var t := Step(s, a).value;
            && a.w < |s.workers| == |t.workers| && t.workers == s.workers[a.w := t.workers[a.w]]
            && 3 * |t.mon.tasks| + Rank(t.workers[a.w]) == 3 * |s.mon.tasks| + Rank(s.workers[a.w]) - 1
  {
  }

  lemma OthersKeepRank(s: Pool, a: Action)
    requires StopInv(s) && s.dtor.Joining? && Step(s, a).Some? && !OfAWorker(a)
    ensures var t := Step(s, a).value;
            t.workers == s.workers && t.mon.tasks == s.mon.tasks
  {
    if a.NotifyOne? {
      assert s.mon.stop;
    }
  }

  /** After notify_all nobody sleeps again, and each worker step uses up one unit. */
  lemma CountdownStep(s: Pool, a: Action)
    requires Inv(s) && s.dtor.Joining? && Step(s, a).Some?
    ensures var t := Step(s, a).value;
            t.dtor.Joining? && !SomeAsleep(t.workers) &&
            Remaining(t) == Remaining(s) - (if OfAWorker(a) then 1 else 0)
  {
    var t := Step(s, a).value;
    StopStep(s, a);
    assert t.dtor.Joining?;
    if OfAWorker(a) {
      RankDelta(s, a);
      SumUpdate(s.workers, a.w, t.workers[a.w], Rank);
    } else {
      OthersKeepRank(s, a);
    }
  }

  /** Along any run after notify_all the workers take exactly as many steps as
      `Remaining` falls, so at most `Remaining(s)` of them. */
  lemma {:induction false} ShutdownProgress(s: Pool, acts: seq<Action>)
    requires Inv(s) && s.dtor.Joining? && Exec(Step, s, acts).Some?
    ensures var t := Exec(Step, s, acts).value;
            Inv(t) && t.dtor.Joining? && WorkerSteps(acts) == Remaining(s) - Remaining(t)
    decreases |acts|
  {
    if acts != [] {
      var t := Step(s, acts[0]).value;
      CountdownStep(s, acts[0]);
      LockStep(s, acts[0]);
      LedgerStep(s, acts[0]);
      StopStep(s, acts[0]);
      WakeStep(s, acts[0]);
      ShutdownProgress(t, acts[1..]);
    }
  }

  lemma ShutdownBound(s: Pool, acts: seq<Action>)
    requires Reachable(s) && s.dtor.Joining? && Exec(Step, s, acts).Some?
    ensures WorkerSteps(acts) <= Remaining(s)
  {
    Safety(s);
    ShutdownProgress(s, acts);
    SumAtLeast(Exec(Step, s, acts).value.workers, Rank);
  }

  /** A run that can go no further after the destructor was called has joined
      every worker. */
  lemma ShutdownCompletes(s: Pool)
    requires Reachable(s) && |s.workers| > 0 && s.dtor != NotCalled
    requires forall a :: Internal(a) ==> Step(s, a).None?
    ensures Joined(s) && Drained(s) && forall w :: 0 <= w < |s.workers| ==> s.workers[w] == Exited
  {
    if !Joined(s) {
      var a := NeverStuck(s);
      assert false;
    }
    Safety(s);
    DrainOnStop(s);
  }

  // ---- The class ---------------------------------------------------------------

  /** The pool's own fields, updated in place by its critical sections. */
  class ThreadPool {
    var tasks: seq<Ticket>
    var stop: bool

    function View(): Monitor
      reads this
    {
      Monitor(tasks, stop)
    }

    constructor ()
      ensures View() == Init(0, 0).mon
    {
      tasks := [];
      stop := false;
    }

    /** `accepted` is false where the source throws. */
    method Enqueue(t: Ticket) returns (accepted: bool)
      modifies this
      ensures accepted <==> !old(stop)
      ensures accepted ==> Submit(old(View()), t) == Some(View())
      ensures !accepted ==> Submit(old(View()), t) == None && View() == old(View())
    {
      if stop {
        return false;
      }
      tasks := tasks + [t];
      return true;
    }

    method Next() returns (t: Option<Ticket>)
      requires MayProceed(View())
      modifies this
      ensures (t, View()) == Fetch(old(View()))
    {
      if stop && tasks == [] {
        return None;
      }
      t := Some(tasks[0]);
      tasks := tasks[1..];
    }

    method Stop()
      modifies this
      ensures View() == old(View()).(stop := true)
    {
      stop := true;
    }

    /** A worker's loop once stop is set and no other thread interferes: it runs
        every queued task in order and returns. */
    method WorkerLoop() returns (ran: seq<Ticket>)
      requires stop
      modifies this
      ensures ran == old(tasks) && tasks == [] && stop
    {
      ran := [];
      while true
        invariant stop && ran + tasks == old(tasks)
        decreases |tasks|
      {
        var t := Next();
        if t == None {
          return;
        }
        ran := ran + [t.value];
      }
    }
  }
}
