/**
 The destructor of the C++11 pool from call to return: after notify_all every schedule
 ends, and from any state a schedule joins all workers.
 */
module CxxShutdown {
  import opened Basics
  import opened Counting
  import opened Runs
  import opened CxxPool

  function ClientRank(c: Client): int {
    match c
    case Idle => 0
    case AtEnqueue => 2
    case _ => 1
  }

  /** Steps of the pool's own threads that are left after notify_all: those of the workers,
      of callers that are inside enqueue, and one join for each worker. */
  ghost function StepsLeft(s: Pool): int {
    Remaining(s) + Sum(s.clients, ClientRank) + if s.dtor.Joining? then |s.workers| - s.dtor.joined else 0
  }

  lemma InvStep(s: Pool, a: Action)
    requires Inv(s) && Step(s, a).Some?
    ensures Inv(Step(s, a).value)
  {
    LockStep(s, a);
    LedgerStep(s, a);
    StopStep(s, a);
    WakeStep(s, a);
  }

  predicate OfAClient(a: Action) { a.ClientLock? || a.ClientBody? || a.NotifyOne? }

  /** A caller inside enqueue goes on; the task of a new one is refused by now. */
  lemma ClientGoesOn(s: Pool, a: Action)
    requires StopInv(s) && s.dtor.Joining? && Step(s, a).Some? && OfAClient(a)
    ensures var t := Step(s, a).value;
            && a.c < |s.clients| == |t.clients| && t.clients == s.clients[a.c := t.clients[a.c]]
            && ClientRank(t.clients[a.c]) == ClientRank(s.clients[a.c]) - 1
            && t.dtor == s.dtor && |t.workers| == |s.workers|
  {
  }

  /** A worker, or the destructor joining the next one. */
  lemma OtherGoesOn(s: Pool, a: Action)
    requires StopInv(s) && s.dtor.Joining? && Step(s, a).Some? && Internal(a) && !OfAClient(a)
    ensures var t := Step(s, a).value;
            && t.clients == s.clients && |t.workers| == |s.workers|
            && t.dtor == if OfAWorker(a) then s.dtor else Joining(s.dtor.joined + 1)
  {
  }

  lemma StepsLeftFall(s: Pool, a: Action)
    requires Inv(s) && s.dtor.Joining? && Step(s, a).Some? && Internal(a)
    ensures Step(s, a).value.dtor.Joining? && StepsLeft(Step(s, a).value) == StepsLeft(s) - 1
  {
    var t := Step(s, a).value;
    CountdownStep(s, a);
    if OfAClient(a) {
      ClientGoesOn(s, a);
      SumUpdate(s.clients, a.c, t.clients[a.c], ClientRank);
    } else {
      OtherGoesOn(s, a);
    }
  }

  lemma StepsLeftNonNegative(s: Pool)
    requires StopInv(s)
    ensures StepsLeft(s) >= 0
  {
    SumAtLeast(s.workers, Rank);
    SumAtLeast(s.clients, ClientRank);
  }

  /** A run of nobody but the pool's own threads. */
  ghost predicate InternalRun(s: Pool, acts: seq<Action>, t: Pool) {
    Exec(Step, s, acts) == Some(t) && forall a :: a in acts ==> Internal(a)
  }

  /** After notify_all a run of the pool's own threads has used up as many steps as it has
      taken, so that every schedule ends. */
  lemma {:induction false} EverySchedule(s: Pool, acts: seq<Action>, t: Pool)
    requires Inv(s) && s.dtor.Joining? && InternalRun(s, acts, t)
    ensures t.dtor.Joining? && |acts| == StepsLeft(s) - StepsLeft(t) <= StepsLeft(s)
    decreases |acts|
  {
    if acts != [] {
      StepsLeftFall(s, acts[0]);
      InvStep(s, acts[0]);
      EverySchedule(Step(s, acts[0]).value, acts[1..], t);
    } else {
      StepsLeftNonNegative(t);
    }
  }

  lemma OneFirst(s: Pool, a: Action, u: Pool, acts: seq<Action>, t: Pool)
    requires Step(s, a) == Some(u) && Internal(a) && InternalRun(u, acts, t)
    ensures InternalRun(s, [a] + acts, t)
  {
    assert ([a] + acts)[1..] == acts;
  }

  function Phase(s: Pool): nat {
    (match s.dtor case NotCalled => 9 case Locking => 3 case Stopping => 2 case Stopped => 1 case Joining(_) => 0)
    + if s.dtor == Locking && s.owner != Nobody then 1 else 0
  }

  /** The destructor gets the lock from whoever has it, announces the stop and wakes all. */
  lemma {:induction false} AnnouncesStop(s: Pool) returns (acts: seq<Action>, t: Pool)
    requires Reachable(s) && s.dtor != NotCalled
    ensures InternalRun(s, acts, t) && Reachable(t) && t.dtor.Joining? && |t.workers| == |s.workers|
    decreases Phase(s)
  {
    if s.dtor.Joining? {
      acts, t := [], s;
    } else {
      var a := AnnouncingStep(s);
      var u := Step(s, a).value;
      ReachableNext(s, a, u);
      acts, t := AnnouncesStop(u);
      OneFirst(s, a, u, acts, t);
      acts := [a] + acts;
    }
  }

  lemma AnnouncingStep(s: Pool) returns (a: Action)
    requires Reachable(s) && s.dtor != NotCalled && !s.dtor.Joining?
    ensures Internal(a) && Step(s, a).Some?
    ensures var u := Step(s, a).value;
            Phase(u) < Phase(s) && u.dtor != NotCalled && |u.workers| == |s.workers|
  {
    Safety(s);
    match s.dtor {
      case Locking =>
        if s.owner == Nobody {
          a := DtorLock;
        } else {
          a := if s.owner.OfWorker? then WorkerBody(s.owner.w) else ClientBody(s.owner.c);
        }
      case Stopping => a := SetStop;
      case Stopped => a := NotifyAll;
    }
  }

  /** After notify_all the pool's own threads can go on until all workers are joined. */
  lemma {:induction false} JoinsAll(s: Pool) returns (acts: seq<Action>, t: Pool)
    requires Reachable(s) && s.dtor.Joining? && |s.workers| > 0
    ensures InternalRun(s, acts, t) && Reachable(t) && Joined(t) && |t.workers| == |s.workers|
    decreases StepsLeft(s)
  {
    if Joined(s) {
      acts, t := [], s;
    } else {
      var a := NeverStuck(s);
      var u := Step(s, a).value;
      Safety(s);
      StepsLeftNonNegative(s);
      StepsLeftFall(s, a);
      WorkersKept(s, a);
      ReachableNext(s, a, u);
      acts, t := JoinsAll(u);
      OneFirst(s, a, u, acts, t);
      acts := [a] + acts;
    }
  }

  lemma WorkersKept(s: Pool, a: Action)
    requires Step(s, a).Some?
    ensures |Step(s, a).value.workers| == |s.workers|
  {
  }

  /** Once the destructor of a pool with workers is called, whatever state the pool is in,
      its own threads can bring it to its end: every accepted task run, every worker
      joined. */
  lemma DestructorReturns(s: Pool) returns (acts: seq<Action>, t: Pool)
    requires Reachable(s) && s.dtor != NotCalled && |s.workers| > 0
    ensures InternalRun(s, acts, t) && Joined(t) && Drained(t)
  {
    var x, u := AnnouncesStop(s);
    var y;
    y, t := JoinsAll(u);
    ExecAppend(Step, s, x, y);
    acts := x + y;
    DrainOnStop(t);
  }

  /** No call of enqueue is refused before the stop. */
  lemma RefusedOnlyAfterStop(s: Pool)
    requires Reachable(s) && !s.mon.stop
    ensures s.rejected == 0
  {
    var workers: nat, clients: nat, acts: seq<Action> :| Exec(Step, Init(workers, clients), acts) == Some(s);
    InvariantHolds(Step, (t: Pool) => !t.mon.stop ==> t.rejected == 0, Init(workers, clients), acts);
  }
}
