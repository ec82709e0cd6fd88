/**
 The manager's growth scan among the steps of everybody else: it holds `lock`, but
 workers run, finish and exit, producers arrive, sleepers wake and shutdown is
 written while it goes through the slot table.
 */
module PthreadGrowth {
  import opened Basics
  import opened Counting
  import opened Runs
  import opened PoolData
  import opened PthreadPool
  import opened PthreadInvariants

  // ---- Runs within one scan ------------------------------------------------------

  /** A run all of whose states belong to the same scan. */
  ghost predicate InScan(s: Pool, acts: seq<Action>)
    decreases |acts|
  {
    s.mgr.MGrow? && (acts == [] || (Step(s, acts[0]).Some? && InScan(Step(s, acts[0]).value, acts[1..])))
  }

  /** The scan looks at its next slot. */
  predicate Asks(s: Pool, a: Action) { a.M? && s.mgr.MGrow? && Scanning(s.sh, s.mgr.i, s.mgr.add) }

  /** Slot i is answered for with alive[i], at whatever moment the scan gets there. */
  ghost predicate Answered(s: Pool, acts: seq<Action>, alive: seq<bool>)
    decreases |acts|
  {
    acts == [] ||
    (&& (Asks(s, acts[0]) ==> s.mgr.i < |alive| && acts[0].alive == alive[s.mgr.i])
     && (Step(s, acts[0]).Some? ==> Answered(Step(s, acts[0]).value, acts[1..], alive)))
  }

  predicate HoldsGone(s: Pool, i: nat) {
    && i < |s.sh.threads| && s.sh.threads[i].Some? && s.sh.threads[i].value < |s.workers|
    && s.workers[s.sh.threads[i].value].Gone?
  }

  /** The question about a slot whose thread has exited is answered with no. */
  ghost predicate AnsweredRightly(s: Pool, acts: seq<Action>)
    decreases |acts|
  {
    acts == [] ||
    (&& (Asks(s, acts[0]) && HoldsGone(s, s.mgr.i) ==> !acts[0].alive)
     && (Step(s, acts[0]).Some? ==> AnsweredRightly(Step(s, acts[0]).value, acts[1..])))
  }

  // ---- What the others can do meanwhile -------------------------------------------

  /** Nobody retires, nobody comes back, and of the shared fields only the two that
      `lock` does not guard may differ. */
  ghost predicate Beside(s: Pool, t: Pool) {
    && t.mgr == s.mgr && t.home == s.home && |t.workers| == |s.workers|
    && t.sh == s.sh.(busy := t.sh.busy, shutdown := t.sh.shutdown)
    && forall w :: 0 <= w < |s.workers| ==>
         Unretired(t.workers[w]) == Unretired(s.workers[w]) && (s.workers[w].Gone? ==> t.workers[w].Gone?)
  }

  lemma BesideW(s: Pool, w: nat)
    requires LockInv(s) && s.mgr.MGrow? && WorkerStep(s, w).Some?
    ensures Beside(s, WorkerStep(s, w).value)
  {
    assert !HoldsW(s.workers[w]);
  }

  lemma BesideP(s: Pool, p: nat, target: Option<nat>)
    requires LockInv(s) && s.mgr.MGrow? && ProducerStep(s, p, target).Some?
    ensures Beside(s, ProducerStep(s, p, target).value)
  {
    assert !HoldsP(s.producers[p]);
  }

  lemma BesideStep(s: Pool, a: Action)
    requires LockInv(s) && s.mgr.MGrow? && !a.M? && Step(s, a).Some?
    ensures Beside(s, Step(s, a).value)
  {
    match a {
      case W(w) => BesideW(s, w);
      case P(p, target) => BesideP(s, p, target);
      case _ =>
    }
  }

  // ---- Every scan computes Scan ------------------------------------------------------

  /** Scan neither reads nor writes the two fields. */
  lemma {:induction false} ScanIgnores(sh: Shared, b: int, d: bool, i: nat, add: nat, tid: Tid, alive: seq<bool>)
    requires Sized(sh) && |alive| == sh.max
    ensures Sized(sh.(busy := b, shutdown := d))
    ensures Scan(sh.(busy := b, shutdown := d), i, add, tid, alive)
            == (Scan(sh, i, add, tid, alive).0.(busy := b, shutdown := d), Scan(sh, i, add, tid, alive).1)
    decreases sh.max - i
  {
    if Scanning(sh, i, add) {
      if Reusable(sh, i, alive[i]) {
        ScanIgnores(Spawn(sh, i, tid), b, d, i + 1, add + 1, tid + 1, alive);
      } else {
        ScanIgnores(sh, b, d, i + 1, add, tid, alive);
      }
    }
  }

  /** What is still to come of the scan that s is in. */
  function Outcome(s: Pool, alive: seq<bool>): (Shared, nat)
    requires Sized(s.sh) && |alive| == s.sh.max && s.mgr.MGrow?
  {
    Scan(s.sh, s.mgr.i, s.mgr.add, |s.workers|, alive)
  }

  /** The same outcome, but for the two fields. */
  ghost predicate SameOutcome(s: Pool, t: Pool, alive: seq<bool>) {
    && Sized(s.sh) && Sized(t.sh) && |alive| == s.sh.max == t.sh.max && s.mgr.MGrow? && t.mgr.MGrow?
    && Outcome(t, alive).1 == Outcome(s, alive).1
    && Outcome(t, alive).0 == Outcome(s, alive).0.(busy := t.sh.busy, shutdown := t.sh.shutdown)
  }

  lemma OutcomeStep(s: Pool, a: Action, alive: seq<bool>)
    requires Inv(s) && s.mgr.MGrow? && |alive| == s.sh.max && Step(s, a).Some? && Step(s, a).value.mgr.MGrow?
    requires Asks(s, a) ==> a.alive == alive[s.mgr.i]
    ensures SameOutcome(s, Step(s, a).value, alive)
  {
    var t := Step(s, a).value;
    if a.M? {
      ScanIgnores(s.sh, s.sh.busy, s.sh.shutdown, s.mgr.i, s.mgr.add, |s.workers|, alive);
    } else {
      BesideStep(s, a);
      ScanIgnores(s.sh, t.sh.busy, t.sh.shutdown, s.mgr.i, s.mgr.add, |s.workers|, alive);
    }
  }

  lemma {:induction false} OutcomeRun(s: Pool, acts: seq<Action>, alive: seq<bool>)
    requires Inv(s) && InScan(s, acts) && |alive| == s.sh.max && Answered(s, acts, alive)
    ensures Exec(Step, s, acts).Some? && SameOutcome(s, Exec(Step, s, acts).value, alive)
    decreases |acts|
  {
    if acts != [] {
      var t := Step(s, acts[0]).value;
      InvStep(s, acts[0]);
      OutcomeStep(s, acts[0], alive);
      OutcomeRun(t, acts[1..], alive);
    } else {
      ScanIgnores(s.sh, s.sh.busy, s.sh.shutdown, s.mgr.i, s.mgr.add, |s.workers|, alive);
    }
  }

  /** However the scan's steps are interleaved with those of others, once it has
      looked at its last slot it has computed `Scan` of the state it started from,
      on table, live count and batch. */
  lemma EveryScanComputesScan(s: Pool, acts: seq<Action>, alive: seq<bool>)
    requires Reachable(s) && s.mgr.MGrow? && s.mgr.i == s.mgr.add == 0
    requires InScan(s, acts) && |alive| == s.sh.max && Answered(s, acts, alive)
    ensures Exec(Step, s, acts).Some? && Sized(s.sh)
    ensures var t := Exec(Step, s, acts).value;
            t.mgr.MGrow? && (!Scanning(t.sh, t.mgr.i, t.mgr.add) ==>
              (t.sh, t.mgr.add)
                == (Scan(s.sh, 0, 0, |s.workers|, alive).0.(busy := t.sh.busy, shutdown := t.sh.shutdown),
                    Scan(s.sh, 0, 0, |s.workers|, alive).1))
  {
    Safety(s);
    OutcomeRun(s, acts, alive);
  }

  // ---- How many it adds -----------------------------------------------------------------

  /** Retired, the slot still taken because the thread has not exited. */
  function Lingering(w: Worker): int { if w == Leaving(true) then 1 else 0 }

  ghost predicate CountsLingering(s: Pool, w: nat) { w < |s.workers| && s.workers[w] == Leaving(true) }

  /** Every slot scanned so far holds an unretired worker, or one that had retired
      but not exited when the scan began in s. */
  ghost predicate Filled(s: Pool, u: Pool) {
    && u.mgr.MGrow? && u.mgr.add <= DEFAULT_THREAD_VARY
    && u.sh.max == s.sh.max && u.sh.live == s.sh.live + u.mgr.add && |s.workers| <= |u.workers|
    && (forall w :: 0 <= w < |s.workers| ==>
         Unretired(u.workers[w]) == Unretired(s.workers[w]) && (s.workers[w].Gone? ==> u.workers[w].Gone?))
    && (forall w :: |s.workers| <= w < |u.workers| ==> Unretired(u.workers[w]) == 1)
    && (forall i :: 0 <= i < u.mgr.i && i < |u.sh.threads| ==>
         && u.sh.threads[i].Some? && u.sh.threads[i].value < |u.workers|
         && (Unretired(u.workers[u.sh.threads[i].value]) == 1 || CountsLingering(s, u.sh.threads[i].value)))
  }

  lemma FilledBeside(s: Pool, u: Pool, v: Pool)
    requires Filled(s, u) && Beside(u, v)
    ensures Filled(s, v)
  {
  }

  lemma FilledScan(s: Pool, u: Pool, target: Option<nat>, alive: bool)
    requires Filled(s, u) && SlotInv(u) && ManagerStep(u, target, alive).Some?
    requires Scanning(u.sh, u.mgr.i, u.mgr.add) && (HoldsGone(u, u.mgr.i) ==> !alive)
    ensures Filled(s, ManagerStep(u, target, alive).value)
  {
  }

  lemma {:induction false} FilledRun(s: Pool, u: Pool, acts: seq<Action>)
    requires Filled(s, u) && Inv(u) && InScan(u, acts) && AnsweredRightly(u, acts)
    ensures Exec(Step, u, acts).Some?
    ensures Filled(s, Exec(Step, u, acts).value) && Inv(Exec(Step, u, acts).value)
    decreases |acts|
  {
    if acts != [] {
      var a, v := acts[0], Step(u, acts[0]).value;
      InvStep(u, a);
      if a.M? {
        FilledScan(s, u, a.target, a.alive);
      } else {
        BesideStep(u, a);
        FilledBeside(s, u, v);
      }
      FilledRun(s, v, acts[1..]);
    }
  }

  /** A sum bounded term by term by two others, the second over a shorter sequence. */
  lemma {:induction false} SumSplit<A, B, C>(a: seq<A>, f: A -> int, b: seq<B>, g: B -> int, c: seq<C>, h: C -> int)
    requires |c| <= |a| == |b|
    requires forall k :: 0 <= k < |a| ==> f(a[k]) <= g(b[k]) + (if k < |c| then h(c[k]) else 0)
    ensures Sum(a, f) <= Sum(b, g) + Sum(c, h)
    decreases |a|
  {
    if a != [] {
      var n := |a| - 1;
      SumSplit(a[..n], f, b[..n], g, if |c| > n then c[..n] else c, h);
    }
  }

  ghost function InTable(u: Pool): (r: seq<bool>)
    requires SlotInv(u)
    ensures |r| == |u.workers|
    ensures forall w :: 0 <= w < |r| ==> (r[w] <==> u.sh.threads[u.home[w]] == Some(w))
  {
    seq(|u.workers|, w requires 0 <= w < |u.workers| => u.sh.threads[u.home[w]] == Some(w))
  }

  /** When all slots have been scanned, the unretired and the lingering fill them. */
  lemma AllSlotsFilled(s: Pool, u: Pool)
    requires Filled(s, u) && SlotInv(u) && CountInv(u) && u.mgr.i >= u.sh.max
    ensures u.sh.max <= u.sh.live + Sum(s.workers, Lingering)
  {
    var table := InTable(u);
    OccupiedCount(u.sh.threads, table, u.home);
    SumOfOnes(u.sh.threads, Occupied(table), 1);
    forall w | 0 <= w < |table|
      ensures One(table[w]) <= Unretired(u.workers[w]) + (if w < |s.workers| then Lingering(s.workers[w]) else 0)
    {
      if table[w] {
        assert u.sh.threads[u.home[w]] == Some(w);
      }
    }
    SumSplit(table, One, u.workers, Unretired, s.workers, Lingering);
  }

  function Min(a: int, b: int): int { if a <= b then a else b }

  lemma BatchBounds(s: Pool, t: Pool)
    requires Filled(s, t) && Inv(t)
    ensures t.mgr.add <= Min(DEFAULT_THREAD_VARY, s.sh.max - s.sh.live)
    ensures !Scanning(t.sh, t.mgr.i, t.mgr.add) ==>
              t.mgr.add >= Min(DEFAULT_THREAD_VARY, s.sh.max - s.sh.live - Sum(s.workers, Lingering))
  {
    SumAtLeast(s.workers, Lingering);
    if t.mgr.i >= t.sh.max {
      AllSlotsFilled(s, t);
    }
  }

  /** In every run through a growth scan with right liveness answers, the live count
      grows with the batch; when the scan is over it has added at most
      min(10, max - live), and falls short of that by no more than the threads that
      had retired but not exited when it began. */
  lemma GrowthBounds(s: Pool, acts: seq<Action>)
    requires Reachable(s) && s.mgr.MGrow? && s.mgr.i == s.mgr.add == 0
    requires InScan(s, acts) && AnsweredRightly(s, acts)
    ensures Exec(Step, s, acts).Some?
    ensures var t := Exec(Step, s, acts).value;
            var room := s.sh.max - s.sh.live;
            && t.mgr.MGrow? && t.sh.max == s.sh.max && t.sh.live == s.sh.live + t.mgr.add
            && t.mgr.add <= Min(DEFAULT_THREAD_VARY, room)
            && (!Scanning(t.sh, t.mgr.i, t.mgr.add) ==>
                 t.mgr.add >= Min(DEFAULT_THREAD_VARY, room - Sum(s.workers, Lingering)))
  {
    Safety(s);
    FilledRun(s, s, acts);
    BatchBounds(s, Exec(Step, s, acts).value);
  }

  /** Once every retired worker has really exited, every scan adds exactly
      min(10, max - live) workers, in every interleaving. */
  lemma GrowthAddsBatch(s: Pool, acts: seq<Action>)
    requires Reachable(s) && s.mgr.MGrow? && s.mgr.i == s.mgr.add == 0
    requires forall w :: 0 <= w < |s.workers| ==> s.workers[w] != Leaving(true)
    requires InScan(s, acts) && AnsweredRightly(s, acts)
    ensures Exec(Step, s, acts).Some?
    ensures var t := Exec(Step, s, acts).value;
            t.mgr.MGrow? && (!Scanning(t.sh, t.mgr.i, t.mgr.add) ==>
              && t.mgr.add == Min(DEFAULT_THREAD_VARY, s.sh.max - s.sh.live)
              && t.sh.live == s.sh.live + t.mgr.add)
  {
    SumZero(s.workers, Lingering);
    GrowthBounds(s, acts);
  }

  // ---- A scan can always be finished -----------------------------------------------------

  /** One scan step keeps the answers honest and is one round of Scan. */
  lemma ScanOne(s: Pool, alive: seq<bool>)
    requires SlotInv(s) && s.mgr.MGrow? && |alive| == s.sh.max && Scanning(s.sh, s.mgr.i, s.mgr.add)
    requires forall i :: s.mgr.i <= i < s.sh.max ==> HonestAnswer(s, i, alive[i])
    ensures Step(s, M(None, alive[s.mgr.i])).Some?
    ensures var u := Step(s, M(None, alive[s.mgr.i])).value;
            && SlotInv(u) && u.mgr.MGrow? && u.mgr.i == s.mgr.i + 1 && u.sh.max == s.sh.max
            && u.mgr.live == s.mgr.live && u.mgr.busy == s.mgr.busy && s.mgr.add <= u.mgr.add
            && u.workers == s.workers + seq(u.mgr.add - s.mgr.add, _ => AtLock)
            && (forall i :: u.mgr.i <= i < u.sh.max ==> HonestAnswer(u, i, alive[i]))
            && Scan(s.sh, s.mgr.i, s.mgr.add, |s.workers|, alive)
                 == Scan(u.sh, u.mgr.i, u.mgr.add, |u.workers|, alive)
  {
    var i := s.mgr.i;
    assert HonestAnswer(s, i, alive[i]);
    var u := Step(s, M(None, alive[i])).value;
    SlotStepM(s, None, alive[i]);
    forall j | u.mgr.i <= j < u.sh.max ensures HonestAnswer(u, j, alive[j]) {
      assert HonestAnswer(s, j, alive[j]) && u.sh.threads[j] == s.sh.threads[j];
    }
  }

  /** From any state of a scan the manager can finish it alone, as the loop of the
      class does: its steps up to the unlock compute Scan. */
  lemma {:induction false} ManagerScans(s: Pool, alive: seq<bool>) returns (acts: seq<Action>, t: Pool)
    requires SlotInv(s) && s.mgr.MGrow? && |alive| == s.sh.max
    requires forall i :: s.mgr.i <= i < s.sh.max ==> HonestAnswer(s, i, alive[i])
    ensures Exec(Step, s, acts) == Some(t) && t.owner == Nobody
    ensures t.mgr == MShrinkTest(s.mgr.live, s.mgr.busy)
    ensures var (sh, add) := Scan(s.sh, s.mgr.i, s.mgr.add, |s.workers|, alive);
            t.sh == sh && s.mgr.add <= add && t.workers == s.workers + seq(add - s.mgr.add, _ => AtLock)
    ensures forall a :: a in acts ==> a.M?
    decreases s.sh.max - s.mgr.i
  {
    var i := s.mgr.i;
    if !Scanning(s.sh, i, s.mgr.add) {
      acts := [M(None, true)];
      t := s.(mgr := MShrinkTest(s.mgr.live, s.mgr.busy), owner := Nobody);
      assert Exec(Step, t, []) == Some(t);
    } else {
      ScanOne(s, alive);
      var u := Step(s, M(None, alive[i])).value;
      var rest;
      rest, t := ManagerScans(u, alive);
      acts := [M(None, alive[i])] + rest;
      assert acts[1..] == rest;
    }
  }
}
