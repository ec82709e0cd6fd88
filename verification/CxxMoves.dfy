/**
 Who can move when in the C++11 thread pool, what ends a worker's sleep, and what the
 two critical sections decide.
 */
module CxxMoves {
  import opened Basics
  import opened CxxPool

  // ---- Who can move ----------------------------------------------------------------

  predicate OfWorkerOnly(a: Action, w: nat) { a == WorkerLock(w) || a == WorkerBody(w) || a == Finish(w) }

  /** A worker waits for nothing but the lock, unless it sleeps or has returned. */
  lemma WorkerMovesExactlyWhen(s: Pool, w: nat)
    requires Reachable(s)
    ensures (exists a :: OfWorkerOnly(a, w) && Step(s, a).Some?) <==>
              && w < |s.workers| && s.workers[w] != Asleep && s.workers[w] != Exited
              && (s.workers[w] == AtLock || s.workers[w].Woken? ==> s.owner == Nobody)
  {
    Safety(s);
    if w < |s.workers| {
      assert OfWorkerOnly(WorkerLock(w), w) && OfWorkerOnly(WorkerBody(w), w) && OfWorkerOnly(Finish(w), w);
      assert s.workers[w].Checking? ==> Step(s, WorkerBody(w)).Some?;
      assert s.workers[w].Running? ==> Step(s, Finish(w)).Some?;
    }
  }

  /** A notification can go to any sleeper, and to nobody only if nobody sleeps. */
  predicate CanWake(ws: seq<Worker>, target: Option<nat>) {
    match target
    case None => forall w :: 0 <= w < |ws| ==> ws[w] != Asleep
    case Some(w) => w < |ws| && ws[w] == Asleep
  }

  /** A caller of enqueue waits for the lock and then goes through, also its notification. */
  lemma ClientMovesExactlyWhen(s: Pool, c: nat, target: Option<nat>)
    requires Reachable(s) && c < |s.clients|
    ensures match s.clients[c]
            case Idle => Step(s, Call(c)).Some?
            case AtEnqueue => Step(s, ClientLock(c)).Some? <==> s.owner == Nobody
            case Submitting => Step(s, ClientBody(c)).Some?
            case Window => Step(s, NotifyOne(c, target)).Some? <==> CanWake(s.workers, target)
  {
  }

  /** The destructor waits for the lock and then for the workers, in order. */
  lemma DestructorMovesExactlyWhen(s: Pool)
    requires Reachable(s)
    ensures match s.dtor
            case NotCalled => Step(s, Destroy).Some?
            case Locking => Step(s, DtorLock).Some? <==> s.owner == Nobody
            case Stopping => Step(s, SetStop).Some?
            case Stopped => Step(s, NotifyAll).Some?
            case Joining(j) => Step(s, Join).Some? <==> j < |s.workers| && s.workers[j] == Exited
    ensures forall w: nat :: Step(s, Spurious(w)).Some? <==> w < |s.workers| && s.workers[w] == Asleep
  {
  }

  // ---- What ends a sleep --------------------------------------------------------------

  /** A worker's sleep ends by a notification that picks it, by notify_all, or by nothing. */
  lemma SleepEndsExactlyBy(s: Pool, a: Action, t: Pool, w: nat)
    requires Step(s, a) == Some(t) && w < |s.workers| && s.workers[w] == Asleep
    ensures |t.workers| == |s.workers|
    ensures t.workers[w] != Asleep <==>
              (a.NotifyOne? && a.target == Some(w)) || a == NotifyAll || a == Spurious(w)
    ensures t.workers[w] != Asleep ==> t.workers[w] == Woken(a != Spurious(w))
  {
  }

  /** The mark of a notification is set by nothing else, and lost exactly when its worker
      comes out of the wait and looks at the queue. */
  lemma MarksFollowNotifications(s: Pool, a: Action, t: Pool, w: nat)
    requires Step(s, a) == Some(t) && w < |s.workers|
    ensures |t.workers| == |s.workers|
    ensures Pledge(t.workers[w]) > Pledge(s.workers[w]) <==>
              s.workers[w] == Asleep && ((a.NotifyOne? && a.target == Some(w)) || a == NotifyAll)
    ensures Pledge(t.workers[w]) < Pledge(s.workers[w]) <==> a == WorkerBody(w) && s.workers[w] == Checking(true)
  {
  }

  /** notify_one takes exactly one sleeper off the wait set if there is any, notify_all
      every one; neither touches the queue. */
  lemma NotificationsWake(s: Pool, a: Action, t: Pool)
    requires Step(s, a) == Some(t) && (a.NotifyOne? || a == NotifyAll)
    ensures t.mon == s.mon && |t.workers| == |s.workers|
    ensures a.NotifyOne? && SomeAsleep(s.workers) ==>
              exists w :: 0 <= w < |s.workers| && s.workers[w] == Asleep && t.workers == s.workers[w := Woken(true)]
    ensures a.NotifyOne? && !SomeAsleep(s.workers) ==> t.workers == s.workers
    ensures a == NotifyAll ==>
              forall w :: 0 <= w < |s.workers| ==>
                t.workers[w] == if s.workers[w] == Asleep then Woken(true) else s.workers[w]
  {
  }

  // ---- The critical sections -------------------------------------------------------------

  /** With the lock a worker sleeps exactly if there is no task and no stop, returns
      exactly if there is no task and the pool is stopped, and otherwise takes the oldest
      task, stopped or not; it leaves the lock free. */
  lemma WorkerDecides(s: Pool, w: nat, t: Pool)
    requires Reachable(s) && Step(s, WorkerBody(w)) == Some(t)
    ensures w < |s.workers| == |t.workers| && t.owner == Nobody && t.mon.stop == s.mon.stop
    ensures t.workers[w] == Asleep <==> s.mon.tasks == [] && !s.mon.stop
    ensures t.workers[w] == Exited <==> s.mon.tasks == [] && s.mon.stop
    ensures s.mon.tasks == [] ==> t.mon == s.mon && t.taken == s.taken
    ensures s.mon.tasks != [] ==>
              && t.workers[w].Running? && [t.workers[w].ticket] + t.mon.tasks == s.mon.tasks
              && t.taken == s.taken + [t.workers[w].ticket]
  {
  }

  /** enqueue fails exactly after stop, and then leaves the queue alone; otherwise its
      task goes last, with a future that is not ready, and a notification follows. */
  lemma RefusedExactlyAfterStop(s: Pool, c: nat, t: Pool)
    requires Reachable(s) && Step(s, ClientBody(c)) == Some(t)
    ensures c < |t.clients| && t.owner == Nobody && t.workers == s.workers
    ensures t.clients[c] == if s.mon.stop then Idle else Window
    ensures t.rejected == s.rejected + if s.mon.stop then 1 else 0
    ensures s.mon.stop ==> t.mon == s.mon && t.runs == s.runs && t.ready == s.ready
    ensures !s.mon.stop ==>
              && t.mon.tasks == s.mon.tasks + [|s.runs|] && !t.mon.stop
              && t.runs == s.runs + [0] && t.ready == s.ready + [false]
  {
  }

  /** A task that ends makes its future ready; nothing else does. */
  lemma ReadyExactlyByFinish(s: Pool, a: Action, t: Pool, k: nat)
    requires Reachable(s) && Step(s, a) == Some(t) && k < |s.ready| && !s.ready[k]
    ensures k < |t.ready|
    ensures t.ready[k] <==> a.Finish? && a.w < |s.workers| && s.workers[a.w] == Running(k)
  {
  }
}
