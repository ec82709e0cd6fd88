/**
 One thread of the pthread pool at a time: what a worker and a producer do from end to
 end when nobody comes in between.
 */
module PthreadRounds {
  import opened Basics
  import opened Runs
  import opened TaskRing
  import opened PoolData
  import opened PthreadPool
  import opened PthreadInvariants

  function Times(a: Action, n: nat): seq<Action> { seq(n, _ => a) }

  /** Of two updates of one place the second counts. */
  lemma Overwritten<T>(s: seq<T>, i: nat, x: T, y: T)
    requires i < |s|
    ensures s[i := x][i := y] == s[i := y]
    ensures y == s[i] ==> s[i := y] == s
  {
  }

  /** One more step of the same thread. */
  lemma OneMore(s: Pool, a: Action, n: nat, t: Pool, u: Pool)
    requires Exec(Step, s, Times(a, n)) == Some(t) && Step(t, a) == Some(u)
    ensures Exec(Step, s, Times(a, n + 1)) == Some(u)
  {
    assert Times(a, n + 1) == Times(a, n) + [a];
    ExecNext(Step, s, Times(a, n), t, a, u);
  }

  lemma TwoMore(s: Pool, a: Action, n: nat, t: Pool, u: Pool, v: Pool)
    requires Exec(Step, s, Times(a, n)) == Some(t) && Step(t, a) == Some(u) && Step(u, a) == Some(v)
    ensures Exec(Step, s, Times(a, n + 2)) == Some(v)
  {
    OneMore(s, a, n, t, u);
    OneMore(s, a, n + 1, u, v);
  }

  lemma ThreeSteps(s: Pool, a: Action, t: Pool, u: Pool, v: Pool)
    requires Step(s, a) == Some(t) && Step(t, a) == Some(u) && Step(u, a) == Some(v)
    ensures Exec(Step, s, Times(a, 3)) == Some(v)
  {
    assert Exec(Step, s, Times(a, 0)) == Some(s);
    TwoMore(s, a, 0, s, t, u);
    OneMore(s, a, 2, u, v);
  }

  lemma FourSteps(s: Pool, a: Action, t: Pool, u: Pool, v: Pool, x: Pool)
    requires Step(s, a) == Some(t) && Step(t, a) == Some(u) && Step(u, a) == Some(v) && Step(v, a) == Some(x)
    ensures Exec(Step, s, Times(a, 4)) == Some(x)
  {
    ThreeSteps(s, a, t, u, v);
    OneMore(s, a, 3, v, x);
  }

  /** A worker outside the lock, nobody in it. */
  predicate Outside(s: Pool, w: nat) { w < |s.workers| && s.workers[w] == AtLock && s.owner == Nobody }

  /** From the lock to the task in hand. */
  lemma TakesTask(s: Pool, w: nat) returns (t: Pool)
    requires Reachable(s) && Outside(s, w) && !s.sh.shutdown && s.sh.ring.size > 0
    ensures Exec(Step, s, Times(W(w), 4)) == Some(t)
    ensures WellFormed(s.sh.ring) && WellFormed(t.sh.ring) && Contents(s.sh.ring) == [|s.taken|] + Contents(t.sh.ring)
    ensures t == s.(sh := s.sh.(ring := t.sh.ring), workers := s.workers[w := Taken(|s.taken|)],
                    producers := WakeProducers(s.producers), taken := s.taken + [|s.taken|], takenBy := s.takenBy + [w])
  {
    Safety(s);
    Overwritten(s.workers, w, AtWhile(false), AtShutdownCheck(false));
    Overwritten(s.workers, w, AtShutdownCheck(false), AtDequeue(false));
    Overwritten(s.workers, w, AtDequeue(false), Taken(|s.taken|));
    DropRemovesOldest(s.sh.ring);
    var s1 := s.(workers := s.workers[w := AtWhile(false)], owner := OfWorker(w));
    var s2 := s1.(workers := s.workers[w := AtShutdownCheck(false)]);
    var s3 := s1.(workers := s.workers[w := AtDequeue(false)]);
    assert Contents(s.sh.ring)[0] == |s.taken|;
    t := DequeueStep(s3, w).value;
    FourSteps(s, W(w), s1, s2, s3, t);
  }

  /** Counted busy. */
  lemma StartsTask(s: Pool, w: nat, k: Ticket)
    requires w < |s.workers| && s.workers[w] == Taken(k)
    ensures Step(s, W(w)) == Some(s.(workers := s.workers[w := Running(k)], sh := s.sh.(busy := s.sh.busy + 1)))
  {
  }

  /** Executed. */
  lemma ExecutesTask(s: Pool, w: nat, k: Ticket)
    requires w < |s.workers| && s.workers[w] == Running(k) && k < |s.runs|
    ensures Step(s, W(w)) == Some(s.(workers := s.workers[w := Finished], runs := s.runs[k := s.runs[k] + 1]))
  {
  }

  /** Counted idle again. */
  lemma EndsTask(s: Pool, w: nat)
    requires w < |s.workers| && s.workers[w] == Finished
    ensures Step(s, W(w)) == Some(s.(workers := s.workers[w := AtLock], sh := s.sh.(busy := s.sh.busy - 1)))
  {
  }

  /** From the task in hand back to the lock. */
  lemma FinishesTask(s: Pool, w: nat, k: Ticket) returns (t: Pool)
    requires w < |s.workers| && s.workers[w] == Taken(k) && k < |s.runs|
    ensures Exec(Step, s, Times(W(w), 3)) == Some(t)
    ensures t == s.(workers := s.workers[w := AtLock], runs := s.runs[k := s.runs[k] + 1])
  {
    var s1 := s.(workers := s.workers[w := Running(k)], sh := s.sh.(busy := s.sh.busy + 1));
    var s2 := s1.(workers := s1.workers[w := Finished], runs := s.runs[k := s.runs[k] + 1]);
    t := s2.(workers := s2.workers[w := AtLock], sh := s2.sh.(busy := s2.sh.busy - 1));
    StartsTask(s, w, k);
    ExecutesTask(s1, w, k);
    EndsTask(s2, w);
    ThreeSteps(s, W(w), s1, s2, t);
    Overwritten(s.workers, w, Running(k), Finished);
    Overwritten(s.workers, w, Finished, AtLock);
    assert t.sh == s.sh;
  }

  lemma OldestHasNotRun(s: Pool)
    requires Reachable(s) && s.sh.ring.size > 0
    ensures |s.taken| < |s.runs| && s.runs[|s.taken|] == 0
  {
    Safety(s);
  }

  /** A worker that finds work takes the oldest task, executes it once and is back at the
      lock, with every waiting producer woken and everybody else as before. */
  lemma WorkerRunsOldestTask(s: Pool, w: nat) returns (t: Pool)
    requires Reachable(s) && Outside(s, w) && !s.sh.shutdown && s.sh.ring.size > 0
    ensures Exec(Step, s, Times(W(w), 7)) == Some(t)
    ensures WellFormed(s.sh.ring) && WellFormed(t.sh.ring) && Contents(s.sh.ring) == [|s.taken|] + Contents(t.sh.ring)
    ensures |s.taken| < |s.runs| && s.runs[|s.taken|] == 0
    ensures t == s.(sh := s.sh.(ring := t.sh.ring), producers := t.producers, taken := s.taken + [|s.taken|],
                    takenBy := s.takenBy + [w], runs := s.runs[|s.taken| := 1])
    ensures |t.producers| == |s.producers| && forall p :: 0 <= p < |s.producers| ==>
              t.producers[p] == if s.producers[p] == PAsleep then PWoken else s.producers[p]
  {
    OldestHasNotRun(s);
    Overwritten(s.workers, w, Taken(|s.taken|), AtLock);
    var u := TakesTask(s, w);
    t := FinishesTask(u, w, |s.taken|);
    ExecAppend(Step, s, Times(W(w), 4), Times(W(w), 3));
    assert Times(W(w), 7) == Times(W(w), 4) + Times(W(w), 3);
  }

  /** A worker that finds none goes to sleep and leaves everything as it was. */
  lemma IdleWorkerSleeps(s: Pool, w: nat)
    requires Outside(s, w) && !s.sh.shutdown && s.sh.ring.size == 0
    ensures Exec(Step, s, Times(W(w), 3)) == Some(s.(workers := s.workers[w := Asleep]))
  {
    Overwritten(s.workers, w, AtWhile(false), AboutToWait);
    Overwritten(s.workers, w, AboutToWait, Asleep);
    var s1 := s.(workers := s.workers[w := AtWhile(false)], owner := OfWorker(w));
    var s2 := s1.(workers := s.workers[w := AboutToWait]);
    ThreeSteps(s, W(w), s1, s2, s.(workers := s.workers[w := Asleep]));
  }

  /** After shutdown a worker exits, whatever is queued. */
  lemma WorkerExitsAfterShutdown(s: Pool, w: nat)
    requires Outside(s, w) && s.sh.shutdown
    ensures Exec(Step, s, Times(W(w), 4)) == Some(s.(workers := s.workers[w := Gone(false)]))
  {
    Overwritten(s.workers, w, AtWhile(false), AtShutdownCheck(false));
    Overwritten(s.workers, w, AtShutdownCheck(false), Leaving(false));
    Overwritten(s.workers, w, Leaving(false), Gone(false));
    var s1 := s.(workers := s.workers[w := AtWhile(false)], owner := OfWorker(w));
    var s2 := s1.(workers := s.workers[w := AtShutdownCheck(false)]);
    var s3 := s.(workers := s.workers[w := Leaving(false)]);
    FourSteps(s, W(w), s1, s2, s3, s.(workers := s.workers[w := Gone(false)]));
  }

  /** Back from its wait, nobody in the lock. */
  predicate ComesBack(s: Pool, w: nat) { w < |s.workers| && s.workers[w].Woken? && s.owner == Nobody }

  /** The lock taken back. */
  lemma ResumesStep(s: Pool, w: nat)
    requires ComesBack(s, w)
    ensures Step(s, W(w))
              == Some(s.(workers := s.workers[w := Resumed(s.workers[w].sig)], owner := OfWorker(w)))
  {
  }

  /** The request taken up. */
  lemma RetiresStep(s: Pool, w: nat)
    requires w < |s.workers| && s.workers[w].Resumed? && s.sh.waitExit > 0 && s.sh.live > s.sh.min
    ensures Step(s, W(w)) == Some(s.(workers := s.workers[w := Leaving(true)], owner := Nobody,
                                     sh := s.sh.(waitExit := s.sh.waitExit - 1, live := s.sh.live - 1)))
  {
  }

  /** The exit. */
  lemma ExitsStep(s: Pool, w: nat)
    requires w < |s.workers| && s.workers[w] == Leaving(true)
    ensures Step(s, W(w)) == Some(s.(workers := s.workers[w := Gone(true)]))
  {
  }

  /** A woken worker that is asked to retire, in a pool above its minimum, does so and
      exits without a look at the queue. */
  lemma WokenWorkerRetires(s: Pool, w: nat) returns (t: Pool)
    requires ComesBack(s, w) && s.sh.waitExit > 0 && s.sh.live > s.sh.min
    ensures Exec(Step, s, Times(W(w), 3)) == Some(t)
    ensures t == s.(workers := s.workers[w := Gone(true)],
                    sh := s.sh.(waitExit := s.sh.waitExit - 1, live := s.sh.live - 1))
  {
    var sig, sh := s.workers[w].sig, s.sh.(waitExit := s.sh.waitExit - 1, live := s.sh.live - 1);
    var s1 := s.(workers := s.workers[w := Resumed(sig)], owner := OfWorker(w));
    var s2 := s1.(workers := s1.workers[w := Leaving(true)], owner := Nobody, sh := sh);
    t := s2.(workers := s2.workers[w := Gone(true)]);
    ResumesStep(s, w);
    RetiresStep(s1, w);
    ExitsStep(s2, w);
    ThreeSteps(s, W(w), s1, s2, t);
    Overwritten(s.workers, w, Resumed(sig), Leaving(true));
    Overwritten(s.workers, w, Leaving(true), Gone(true));
  }

  lemma RequestsAndSize(s: Pool)
    requires Reachable(s)
    ensures 0 <= s.sh.waitExit && s.sh.min <= s.sh.live
  {
    Safety(s);
  }

  /** Otherwise, with nothing queued, it uses up the request if there was one and sleeps
      again. */
  lemma WokenWorkerSleepsAgain(s: Pool, w: nat)
    requires Reachable(s) && ComesBack(s, w) && (s.sh.waitExit == 0 || s.sh.live == s.sh.min)
    requires s.sh.ring.size == 0 && !s.sh.shutdown
    ensures Exec(Step, s, Times(W(w), 4))
              == Some(s.(workers := s.workers[w := Asleep],
                         sh := s.sh.(waitExit := if s.sh.waitExit > 0 then s.sh.waitExit - 1 else 0)))
  {
    RequestsAndSize(s);
    Overwritten(s.workers, w, Resumed(s.workers[w].sig), AtWhile(s.workers[w].sig));
    Overwritten(s.workers, w, AtWhile(s.workers[w].sig), AboutToWait);
    Overwritten(s.workers, w, AboutToWait, Asleep);
    var sh := s.sh.(waitExit := if s.sh.waitExit > 0 then s.sh.waitExit - 1 else 0);
    var s1 := s.(workers := s.workers[w := Resumed(s.workers[w].sig)], owner := OfWorker(w));
    var s2 := s1.(workers := s.workers[w := AtWhile(s.workers[w].sig)], sh := sh);
    var s3 := s2.(workers := s.workers[w := AboutToWait]);
    FourSteps(s, W(w), s1, s2, s3, s.(workers := s.workers[w := Asleep], sh := sh));
  }

  /** A producer outside the lock, nobody in it. */
  predicate Calls(s: Pool, p: nat) { p < |s.producers| && s.producers[p] == Idle && s.owner == Nobody }

  /** From the call to the store. */
  lemma ReachesStore(s: Pool, p: nat, target: Option<nat>)
    requires Calls(s, p) && !s.sh.shutdown && s.sh.ring.size < |s.sh.ring.slots|
    ensures Exec(Step, s, Times(P(p, target), 4))
              == Some(s.(producers := s.producers[p := PEnqueue], owner := OfProducer(p)))
  {
    Overwritten(s.producers, p, PLock, PWhile);
    Overwritten(s.producers, p, PWhile, PCheck);
    Overwritten(s.producers, p, PCheck, PEnqueue);
    var a := P(p, target);
    var s1 := s.(producers := s.producers[p := PLock]);
    var s2 := s.(producers := s.producers[p := PWhile], owner := OfProducer(p));
    var s3 := s2.(producers := s.producers[p := PCheck]);
    FourSteps(s, a, s1, s2, s3, s2.(producers := s.producers[p := PEnqueue]));
  }

  lemma RingOf(s: Pool)
    requires Reachable(s)
    ensures WellFormed(s.sh.ring)
  {
    Safety(s);
  }

  /** threadpool_add into a queue with room: the task goes last, one sleeping worker is
      signalled if there is one, and nothing else changes. */
  lemma AddGoesThrough(s: Pool, p: nat, target: Option<nat>) returns (t: Pool)
    requires Reachable(s) && Calls(s, p) && !s.sh.shutdown && s.sh.ring.size < |s.sh.ring.slots|
    requires match target case None => !SomeAsleep(s.workers) case Some(w) => w < |s.workers| && s.workers[w] == Asleep
    ensures Exec(Step, s, Times(P(p, target), 5)) == Some(t)
    ensures WellFormed(s.sh.ring) && WellFormed(t.sh.ring) && Contents(t.sh.ring) == Contents(s.sh.ring) + [|s.runs|]
    ensures t == s.(sh := s.sh.(ring := t.sh.ring), runs := s.runs + [0],
                    workers := if target.Some? then s.workers[target.value := Woken(true)] else s.workers)
  {
    RingOf(s);
    PutAppends(s.sh.ring, |s.runs|);
    ReachesStore(s, p, target);
    Overwritten(s.producers, p, PEnqueue, Idle);
    var u := s.(producers := s.producers[p := PEnqueue], owner := OfProducer(p));
    t := EnqueueStep(u, p, target).value;
    OneMore(s, P(p, target), 4, u, t);
  }

  /** A full queue puts its caller to sleep and leaves everything as it was. */
  lemma AddWaitsForRoom(s: Pool, p: nat)
    requires Calls(s, p) && !s.sh.shutdown && s.sh.ring.size == |s.sh.ring.slots|
    ensures Exec(Step, s, Times(P(p, None), 4)) == Some(s.(producers := s.producers[p := PAsleep]))
  {
    Overwritten(s.producers, p, PLock, PWhile);
    Overwritten(s.producers, p, PWhile, PAboutToWait);
    Overwritten(s.producers, p, PAboutToWait, PAsleep);
    var a := P(p, None);
    var s1 := s.(producers := s.producers[p := PLock]);
    var s2 := s.(producers := s.producers[p := PWhile], owner := OfProducer(p));
    var s3 := s2.(producers := s.producers[p := PAboutToWait]);
    FourSteps(s, a, s1, s2, s3, s.(producers := s.producers[p := PAsleep]));
  }

  /** After shutdown the caller comes back with nothing stored and every sleeping worker
      woken. */
  lemma AddRefused(s: Pool, p: nat)
    requires Calls(s, p) && s.sh.shutdown
    ensures Exec(Step, s, Times(P(p, None), 4)) == Some(s.(workers := WakeWorkers(s.workers)))
  {
    Overwritten(s.producers, p, PLock, PWhile);
    Overwritten(s.producers, p, PWhile, PCheck);
    Overwritten(s.producers, p, PCheck, Idle);
    var a := P(p, None);
    var s1 := s.(producers := s.producers[p := PLock]);
    var s2 := s.(producers := s.producers[p := PWhile], owner := OfProducer(p));
    var s3 := s2.(producers := s.producers[p := PCheck]);
    FourSteps(s, a, s1, s2, s3, s.(workers := WakeWorkers(s.workers)));
  }
}
