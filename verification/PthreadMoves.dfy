/**
 Who can move when in the pthread pool, what ends a sleep, and what a worker does with
 a wake-up.
 */
module PthreadMoves {
  import opened Basics
  import opened TaskRing
  import opened PoolData
  import opened PthreadPool
  import opened PthreadInvariants

  // ---- Who can move ----------------------------------------------------------------

  /** A worker waits for nothing but the lock, unless it sleeps or has exited. */
  lemma WorkerMovesExactlyWhen(s: Pool, w: nat)
    requires Reachable(s)
    ensures Step(s, W(w)).Some? <==>
              && w < |s.workers| && s.workers[w] != Asleep && !s.workers[w].Gone?
              && (s.workers[w] == AtLock || s.workers[w].Woken? ==> s.owner == Nobody)
  {
    Safety(s);
    if w < |s.workers| && s.workers[w].AtDequeue? {
      assert PcW(s.sh, s.workers[w]);
    }
  }

  /** A signal can go to any sleeper, and to nobody only if nobody sleeps. */
  predicate CanWake(ws: seq<Worker>, target: Option<nat>) {
    match target
    case None => forall w :: 0 <= w < |ws| ==> ws[w] != Asleep
    case Some(w) => w < |ws| && ws[w] == Asleep
  }

  /** So does a producer, unless it sleeps. */
  lemma ProducerMovesExactlyWhen(s: Pool, p: nat, target: Option<nat>)
    requires Reachable(s)
    ensures Step(s, P(p, target)).Some? <==>
              && p < |s.producers| && s.producers[p] != PAsleep
              && (s.producers[p] == PLock || s.producers[p] == PWoken ==> s.owner == Nobody)
              && (s.producers[p] == PEnqueue ==> CanWake(s.workers, target))
  {
    Safety(s);
  }

  /** The manager, until it has exited; about a slot whose thread has not exited it is
      told so. */
  lemma ManagerMovesExactlyWhen(s: Pool, target: Option<nat>, alive: bool)
    requires Reachable(s)
    ensures Step(s, M(target, alive)).Some? <==>
              match s.mgr
              case MExited => false
              case MSleep => s.owner == Nobody
              case MGrowLock(_, _) => s.owner == Nobody
              case MShrinkLock => s.owner == Nobody
              case MSignal(k) => k < 10 ==> CanWake(s.workers, target)
              case MGrow(i, add, _, _) => Scanning(s.sh, i, add) && !alive ==> SlotVacant(s, i)
              case _ => true
  {
    Safety(s);
  }

  predicate SlotVacant(s: Pool, i: nat) {
    i < |s.sh.threads| &&
    match s.sh.threads[i]
    case None => true
    case Some(w) => w < |s.workers| && s.workers[w].Gone?
  }

  /** A sleep can end by itself, shutdown can be written at any time, and the last
      broadcast comes after it, when the manager has exited. */
  lemma OthersMoveExactlyWhen(s: Pool)
    requires Reachable(s)
    ensures forall w: nat :: Step(s, WSpurious(w)).Some? <==> w < |s.workers| && s.workers[w] == Asleep
    ensures forall p: nat :: Step(s, PSpurious(p)).Some? <==> p < |s.producers| && s.producers[p] == PAsleep
    ensures Step(s, SetShutdown) == Some(s.(sh := s.sh.(shutdown := true)))
    ensures Step(s, DestroyBroadcast).Some? <==> s.sh.shutdown && s.mgr == MExited
  {
  }

  // ---- What ends a sleep --------------------------------------------------------------

  /** The step signals queue_not_empty: a task was stored, or the manager wants a thread
      to retire. */
  predicate Signals(s: Pool, a: Action) {
    || (a.P? && a.p < |s.producers| && s.producers[a.p] == PEnqueue)
    || (a.M? && s.mgr.MSignal? && s.mgr.k < 10)
  }

  /** The step broadcasts on it: a producer found the pool shut down, or destroy did. */
  predicate Broadcasts(s: Pool, a: Action) {
    || (a.P? && a.p < |s.producers| && s.producers[a.p] == PCheck && s.sh.shutdown)
    || a == DestroyBroadcast
  }

  lemma OtherWorkersStay(s: Pool, v: nat, w: nat)
    requires WorkerStep(s, v).Some? && v != w && w < |s.workers|
    ensures w < |WorkerStep(s, v).value.workers| && WorkerStep(s, v).value.workers[w] == s.workers[w]
  {
    WorkerDelta(s, v);
  }

  /** A worker's sleep ends by a signal that picks it, by a broadcast, or by nothing; in
      the last case it comes back unmarked. */
  lemma SleepEndsExactlyBy(s: Pool, a: Action, t: Pool, w: nat)
    requires Step(s, a) == Some(t) && w < |s.workers| && s.workers[w] == Asleep
    ensures w < |t.workers|
    ensures t.workers[w] != Asleep <==>
              (Signals(s, a) && a.target == Some(w)) || Broadcasts(s, a) || a == WSpurious(w)
    ensures t.workers[w] != Asleep ==> t.workers[w] == Woken(a != WSpurious(w))
  {
    match a {
      case W(v) => OtherWorkersStay(s, v, w);
      case _ =>
    }
  }

  /** A worker is done with its signal. */
  predicate Spends(sh: Shared, w: Worker) {
    match w
    case AtDequeue(sig) => sig
    case Resumed(sig) => sig && sh.waitExit > 0 && sh.live > sh.min
    case AtShutdownCheck(sig) => sig && sh.shutdown
    case AtWhile(sig) => sig && sh.ring.size == 0 && !sh.shutdown
    case _ => false
  }

  lemma MarkOfWorker(s: Pool, w: nat)
    requires WorkerStep(s, w).Some?
    ensures w < |s.workers| == |WorkerStep(s, w).value.workers|
    ensures Pledge(WorkerStep(s, w).value.workers[w])
              == Pledge(s.workers[w]) - if Spends(s.sh, s.workers[w]) then 1 else 0
  {
  }

  /** The mark of a signal is set by nothing but a signal or a broadcast, and it is lost
      exactly when its worker takes a task, retires, leaves after shutdown, or finds the
      queue empty again. */
  lemma MarksFollowSignals(s: Pool, a: Action, t: Pool, w: nat)
    requires Step(s, a) == Some(t) && w < |s.workers|
    ensures w < |t.workers|
    ensures Pledge(t.workers[w]) > Pledge(s.workers[w]) <==>
              s.workers[w] == Asleep && ((Signals(s, a) && a.target == Some(w)) || Broadcasts(s, a))
    ensures Pledge(t.workers[w]) < Pledge(s.workers[w]) <==> a == W(w) && Spends(s.sh, s.workers[w])
  {
    match a {
      case W(v) =>
        if v == w {
          MarkOfWorker(s, w);
        } else {
          OtherWorkersStay(s, v, w);
        }
      case _ =>
    }
  }

  /** A signal takes exactly one sleeper off the wait set if there is any, a broadcast
      all of them; neither touches anybody else. */
  lemma SignalsAndBroadcasts(s: Pool, a: Action, t: Pool)
    requires Step(s, a) == Some(t) && (Signals(s, a) || Broadcasts(s, a))
    ensures |t.workers| == |s.workers|
    ensures Signals(s, a) && SomeAsleep(s.workers) ==>
              exists w :: 0 <= w < |s.workers| && s.workers[w] == Asleep && t.workers == s.workers[w := Woken(true)]
    ensures Signals(s, a) && !SomeAsleep(s.workers) ==> t.workers == s.workers
    ensures Broadcasts(s, a) ==>
              forall w :: 0 <= w < |s.workers| ==>
                t.workers[w] == if s.workers[w] == Asleep then Woken(true) else s.workers[w]
  {
  }

  /** A producer's sleep ends when a task is taken, or by nothing. */
  lemma ProducerSleepEndsExactlyBy(s: Pool, a: Action, t: Pool, p: nat)
    requires Step(s, a) == Some(t) && p < |s.producers| && s.producers[p] == PAsleep
    ensures p < |t.producers|
    ensures t.producers[p] != PAsleep <==> (a.W? && s.workers[a.w].AtDequeue?) || a == PSpurious(p)
    ensures t.producers[p] != PAsleep ==> t.producers[p] == PWoken
  {
    match a {
      case W(w) => ProducersBesideWorker(s, w);
      case _ =>
    }
  }

  lemma ProducersBesideWorker(s: Pool, w: nat)
    requires WorkerStep(s, w).Some?
    ensures var t := WorkerStep(s, w).value;
            t.producers == if s.workers[w].AtDequeue? then WakeProducers(s.producers) else s.producers
  {
  }

  // ---- What a wake-up is used for ---------------------------------------------------------

  /** Back from its wait a worker uses up a retirement request if there is one, also when
      the pool is at its minimum; it retires exactly if there was one and the pool is
      larger, and otherwise looks at the queue again. */
  lemma RetiresExactlyWhen(s: Pool, w: nat, t: Pool)
    requires Reachable(s) && w < |s.workers| && s.workers[w].Resumed? && Step(s, W(w)) == Some(t)
    ensures |t.workers| == |s.workers|
    ensures t.workers[w] == Leaving(true) <==> s.sh.waitExit > 0 && s.sh.live > s.sh.min
    ensures t.workers[w] != Leaving(true) ==> t.workers[w] == AtWhile(s.workers[w].sig) && t.owner == s.owner
    ensures t.workers[w] == Leaving(true) ==> t.owner == Nobody
    ensures t.sh == s.sh.(waitExit := t.sh.waitExit, live := t.sh.live)
    ensures t.sh.waitExit == s.sh.waitExit - if s.sh.waitExit > 0 then 1 else 0
    ensures t.sh.live == s.sh.live - if t.workers[w] == Leaving(true) then 1 else 0
  {
  }

  /** A producer that got in is refused exactly after shutdown, and then wakes all the
      workers; otherwise its task goes behind all others and nothing else changes. */
  lemma RefusedExactlyAfterShutdown(s: Pool, p: nat, target: Option<nat>, t: Pool)
    requires Reachable(s) && p < |s.producers| && s.producers[p] == PCheck && Step(s, P(p, target)) == Some(t)
    ensures |t.producers| == |s.producers| && t.sh == s.sh && t.runs == s.runs
    ensures t.producers[p] == if s.sh.shutdown then Idle else PEnqueue
    ensures t.owner == if s.sh.shutdown then Nobody else OfProducer(p)
    ensures s.sh.shutdown ==> !SomeAsleep(t.workers)
  {
    Safety(s);
  }

  lemma AcceptedGoesLast(s: Pool, p: nat, target: Option<nat>, t: Pool)
    requires Reachable(s) && p < |s.producers| && s.producers[p] == PEnqueue && Step(s, P(p, target)) == Some(t)
    ensures WellFormed(s.sh.ring) && WellFormed(t.sh.ring)
    ensures Contents(t.sh.ring) == Contents(s.sh.ring) + [|s.runs|] && t.runs == s.runs + [0]
    ensures t.owner == Nobody && |t.producers| == |s.producers| && t.producers[p] == Idle
  {
    Safety(s);
    PutAppends(s.sh.ring, |s.runs|);
  }
}
