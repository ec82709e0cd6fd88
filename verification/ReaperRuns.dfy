/**
 Whole runs of the reaper: which children exist is decided by the forks of the run,
 what the handler prints by how they end, and every outcome can happen.
 */
module ReaperRuns {
  import opened Basics
  import opened Counting
  import opened Runs
  import opened Reaper

  // ---- Forks and children ------------------------------------------------------------

  predicate IsFork(a: Action) { a.Fork? || a.ForkFails? }

  /** The results of the forks of a run, in order. */
  ghost function Forks(acts: seq<Action>): seq<bool> {
    if acts == [] then []
    else (if IsFork(acts[0]) then [acts[0].Fork?] else []) + Forks(acts[1..])
  }

  /** How many forks lie behind the parent. */
  function Turns(s: System): nat {
    match s.parent
    case Blocking => 0
    case Forking(i) => i
    case _ => |s.children|
  }

  lemma ForkEffect(s: System, a: Action)
    requires Inv(s) && Step(s, a).Some?
    ensures var u := Step(s, a).value;
            && |u.children| == |s.children| && Turns(u) == Turns(s) + (if IsFork(a) then 1 else 0) <= |s.children|
            && (forall i :: 0 <= i < |s.children| && !(IsFork(a) && i == Turns(s)) ==>
                 (u.children[i] == NotForked <==> s.children[i] == NotForked))
            && (IsFork(a) ==> (u.children[Turns(s)] == NotForked <==> a.ForkFails?))
  {
  }

  /** From s on the forks of the run decide which children come to be, and nobody else does. */
  lemma {:induction false} ForksDecideFrom(s: System, acts: seq<Action>, t: System)
    requires Inv(s) && Exec(Step, s, acts) == Some(t)
    ensures |t.children| == |s.children| && Turns(s) + |Forks(acts)| == Turns(t) <= |s.children|
    ensures forall i :: 0 <= i < Turns(s) ==> (t.children[i] == NotForked <==> s.children[i] == NotForked)
    ensures forall i :: Turns(s) <= i < Turns(t) ==> (t.children[i] == NotForked <==> !Forks(acts)[i - Turns(s)])
    decreases |acts|
  {
    if acts != [] {
      var u := Step(s, acts[0]).value;
      InvStep(s, acts[0]);
      ForkEffect(s, acts[0]);
      ForksDecideFrom(u, acts[1..], t);
      assert Forks(acts) == (if IsFork(acts[0]) then [acts[0].Fork?] else []) + Forks(acts[1..]);
    }
  }

  lemma InitInv(n: nat)
    ensures Inv(Init(n))
  {
  }

  /** Child i is unborn exactly until fork i, and was not forked exactly if that fork failed. */
  lemma ForksDecide(n: nat, acts: seq<Action>, s: System)
    requires Exec(Step, Init(n), acts) == Some(s)
    ensures |s.children| == n && |Forks(acts)| <= n
    ensures forall i :: 0 <= i < n ==> (s.children[i] == Unborn <==> i >= |Forks(acts)|)
    ensures forall i :: 0 <= i < |Forks(acts)| ==> (s.children[i] == NotForked <==> !Forks(acts)[i])
  {
    InitInv(n);
    ForksDecideFrom(Init(n), acts, s);
    Safety(s);
  }

  // ---- Counting reports -----------------------------------------------------------------

  function IsReaped(c: Child): int { if c.Reaped? then 1 else 0 }

  function IsTrue(b: bool): int { if b then 1 else 0 }

  lemma ReportsCountStep(s: System, a: Action)
    requires Inv(s) && Step(s, a).Some?
    ensures var t := Step(s, a).value;
            |t.reports| - |s.reports| == Sum(t.children, IsReaped) - Sum(s.children, IsReaped)
  {
    match a {
      case Fork => SumUpdate(s.children, s.parent.i, Alive, IsReaped);
      case ForkFails => SumUpdate(s.children, s.parent.i, NotForked, IsReaped);
      case Die(i, status) => SumUpdate(s.children, i, Zombie(status), IsReaped);
      case Wait(i) => SumUpdate(s.children, i, Reaped(s.children[i].status), IsReaped);
      case _ =>
    }
  }

  lemma {:induction false} ReportsCountFrom(s: System, acts: seq<Action>, t: System)
    requires Inv(s) && Exec(Step, s, acts) == Some(t)
    ensures |t.reports| - |s.reports| == Sum(t.children, IsReaped) - Sum(s.children, IsReaped)
    decreases |acts|
  {
    if acts != [] {
      InvStep(s, acts[0]);
      ReportsCountStep(s, acts[0]);
      ReportsCountFrom(Step(s, acts[0]).value, acts[1..], t);
    }
  }

  /** Sums of two sequences whose terms agree. */
  lemma {:induction false} SumAgrees<A, B>(s: seq<A>, t: seq<B>, f: A -> int, g: B -> int)
    requires |s| == |t| && forall k :: 0 <= k < |s| ==> f(s[k]) == g(t[k])
    ensures Sum(s, f) == Sum(t, g)
  {
    if s != [] {
      SumAgrees(s[..|s| - 1], t[..|t| - 1], f, g);
    }
  }

  lemma {:induction false} SumAllTrue(bs: seq<bool>)
    requires forall k :: 0 <= k < |bs| ==> bs[k]
    ensures Sum(bs, IsTrue) == |bs|
  {
    if bs != [] {
      SumAllTrue(bs[..|bs| - 1]);
    }
  }

  lemma {:induction false} NoFailuresNoFalse(acts: seq<Action>)
    requires ForkFails !in acts
    ensures forall k :: 0 <= k < |Forks(acts)| ==> Forks(acts)[k]
  {
    if acts != [] {
      NoFailuresNoFalse(acts[1..]);
    }
  }

  /** When the parent can go no further and no child is alive, all n forks were made and
      the handler has printed as many reports as forks succeeded: n if none failed. */
  lemma AsManyReportsAsForks(n: nat, acts: seq<Action>, s: System)
    requires Exec(Step, Init(n), acts) == Some(s)
    requires forall a :: Internal(a) ==> Step(s, a).None?
    requires forall i :: 0 <= i < |s.children| ==> s.children[i] != Alive
    ensures |Forks(acts)| == n && |s.reports| == Sum(Forks(acts), IsTrue)
    ensures ForkFails !in acts ==> |s.reports| == n
  {
    InitInv(n);
    ForksDecide(n, acts, s);
    QuiescentMeansReaped(s);
    ReportsCountFrom(Init(n), acts, s);
    SumZero(Init(n).children, IsReaped);
    assert forall i :: 0 <= i < n ==> s.children[i] != Unborn;
    forall i | 0 <= i < n ensures IsReaped(s.children[i]) == IsTrue(Forks(acts)[i]) {
      assert s.children[i] == NotForked <==> !Forks(acts)[i];
    }
    SumAgrees(s.children, Forks(acts), IsReaped, IsTrue);
    if ForkFails !in acts {
      NoFailuresNoFalse(acts);
      SumAllTrue(Forks(acts));
    }
  }

  // ---- Deliveries -------------------------------------------------------------------------

  function Raised(a: Action): int { if a.Die? || a.Stray? then 1 else 0 }

  function Delivered(a: Action): int { if a.Deliver? then 1 else 0 }

  function HandlerDone(a: Action): int { if a.WaitNone? then 1 else 0 }

  lemma {:induction false} DeliveriesFrom(s: System, acts: seq<Action>, t: System)
    requires Exec(Step, s, acts) == Some(t)
    ensures IsTrue(t.pending) + Sum(acts, Delivered) <= IsTrue(s.pending) + Sum(acts, Raised)
    ensures IsTrue(t.inHandler) + Sum(acts, HandlerDone) == IsTrue(s.inHandler) + Sum(acts, Delivered)
    decreases |acts|
  {
    if acts != [] {
      DeliveriesFrom(Step(s, acts[0]).value, acts[1..], t);
      SumFirst(acts, Raised);
      SumFirst(acts, Delivered);
      SumFirst(acts, HandlerDone);
    }
  }

  lemma {:induction false} SumFirst<T>(s: seq<T>, f: T -> int)
    requires s != []
    ensures Sum(s, f) == f(s[0]) + Sum(s[1..], f)
    decreases |s|
  {
    if |s| > 1 {
      var n := |s| - 1;
      SumFirst(s[..n], f);
      assert s[..n][1..] == s[1..][..n - 1];
    }
  }

  /** The handler runs at most once for each time the signal is raised, one run at a
      time: it has been entered once more than left exactly while it is running. */
  lemma DeliveriesAreBounded(n: nat, acts: seq<Action>, s: System)
    requires Exec(Step, Init(n), acts) == Some(s)
    ensures Sum(acts, Delivered) + IsTrue(s.pending) <= Sum(acts, Raised)
    ensures Sum(acts, Delivered) == Sum(acts, HandlerDone) + IsTrue(s.inHandler)
  {
    DeliveriesFrom(Init(n), acts, s);
  }

  // ---- Every outcome happens ---------------------------------------------------------------

  /** How fork and life of a child go: None if the fork fails. */
  type Fate = Option<Status>

  ghost predicate PossibleFates(fates: seq<Fate>) {
    forall i :: 0 <= i < |fates| && fates[i].Some? && fates[i].value.Exited? ==> fates[i].value.code == (i + 1) % 256
  }

  function Forked(f: Fate): Child { if f.Some? then Alive else NotForked }

  function Dead(f: Fate): Child { if f.Some? then Zombie(f.value) else NotForked }

  function Gathered(f: Fate): Child { if f.Some? then Reaped(f.value) else NotForked }

  /** The first k children one stage further than the others. */
  function Upto(fates: seq<Fate>, k: nat, ahead: Fate -> Child, behind: Fate -> Child): (cs: seq<Child>)
    ensures |cs| == |fates|
  {
    seq(|fates|, i requires 0 <= i < |fates| => if i < k then ahead(fates[i]) else behind(fates[i]))
  }

  lemma UptoNext(fates: seq<Fate>, k: nat, ahead: Fate -> Child, behind: Fate -> Child)
    requires k < |fates|
    ensures Upto(fates, k + 1, ahead, behind) == Upto(fates, k, ahead, behind)[k := ahead(fates[k])]
  {
  }

  ghost predicate Reached(n: nat, s: System) { exists acts: seq<Action> :: Exec(Step, Init(n), acts) == Some(s) }

  lemma ReachedNext(n: nat, s: System, a: Action, t: System)
    requires Reached(n, s) && Step(s, a) == Some(t)
    ensures Reached(n, t)
  {
    var acts: seq<Action> :| Exec(Step, Init(n), acts) == Some(s);
    ExecNext(Step, Init(n), acts, s, a, t);
  }

  function NoChild(f: Fate): Child { Unborn }

  /** The parent after k forks. */
  lemma {:induction false} AfterForks(fates: seq<Fate>, k: nat)
    requires k <= |fates|
    ensures Reached(|fates|, System(Upto(fates, k, Forked, NoChild), Forking(k), true, false, false, false, []))
  {
    var n := |fates|;
    if k == 0 {
      assert Exec(Step, Init(n), []) == Some(Init(n));
      assert Init(n).children == Upto(fates, 0, Forked, NoChild);
      ReachedNext(n, Init(n), Block, Init(n).(parent := Forking(0), blocked := true));
    } else {
      AfterForks(fates, k - 1);
      UptoNext(fates, k - 1, Forked, NoChild);
      var s := System(Upto(fates, k - 1, Forked, NoChild), Forking(k - 1), true, false, false, false, []);
      ReachedNext(n, s, if fates[k - 1].Some? then Fork else ForkFails,
                  s.(children := Upto(fates, k, Forked, NoChild), parent := Forking(k)));
    }
  }

  /** The parent waiting, the first k children dead. */
  lemma {:induction false} AfterDeaths(fates: seq<Fate>, k: nat) returns (s: System)
    requires PossibleFates(fates) && k <= |fates|
    ensures Reached(|fates|, s)
    ensures s == System(Upto(fates, k, Dead, Forked), Waiting, false, true, s.pending, false, [])
  {
    var n := |fates|;
    if k == 0 {
      AfterForks(fates, n);
      assert Upto(fates, n, Forked, NoChild) == Upto(fates, 0, Dead, Forked);
      var t := System(Upto(fates, 0, Dead, Forked), Forking(n), true, false, false, false, []);
      var u := t.(parent := Unblocking, installed := true);
      s := u.(parent := Waiting, blocked := false);
      ReachedNext(n, t, Install, u);
      ReachedNext(n, u, Unblock, s);
    } else {
      var t := AfterDeaths(fates, k - 1);
      UptoNext(fates, k - 1, Dead, Forked);
      if fates[k - 1].Some? {
        s := t.(children := Upto(fates, k, Dead, Forked), pending := true);
        ReachedNext(n, t, Die(k - 1, fates[k - 1].value), s);
      } else {
        s := t;
        assert t.children[k - 1] == Dead(fates[k - 1]);
      }
    }
  }

  /** The handler running with nothing pending, the first k children reaped. */
  lemma {:induction false} AfterWaits(fates: seq<Fate>, k: nat) returns (s: System)
    requires PossibleFates(fates) && k <= |fates|
    ensures Reached(|fates|, s)
    ensures s == System(Upto(fates, k, Gathered, Dead), Waiting, false, true, false, true, s.reports)
  {
    var n := |fates|;
    if k == 0 {
      var t := AfterDeaths(fates, n);
      assert Upto(fates, n, Dead, Forked) == Upto(fates, 0, Gathered, Dead);
      s := t.(pending := false, inHandler := true);
      ReachedNext(n, t, Stray, t.(pending := true));
      ReachedNext(n, t.(pending := true), Deliver, s);
    } else {
      var t := AfterWaits(fates, k - 1);
      UptoNext(fates, k - 1, Gathered, Dead);
      if fates[k - 1].Some? {
        s := t.(children := Upto(fates, k, Gathered, Dead), reports := t.reports + [(k - 1, fates[k - 1].value)]);
        ReachedNext(n, t, Wait(k - 1), s);
      } else {
        s := t;
        assert t.children[k - 1] == Gathered(fates[k - 1]);
      }
    }
  }

  /** Whatever happens to the forks and the children, killed or ended with their own
      numbers, some run ends with everyone reaped and no signal left. */
  lemma EveryOutcomeHappens(fates: seq<Fate>) returns (s: System)
    requires PossibleFates(fates)
    ensures Reached(|fates|, s) && s.parent == Waiting && !s.pending && !s.inHandler
    ensures forall i :: 0 <= i < |fates| ==>
              i < |s.children| && s.children[i] == if fates[i].Some? then Reaped(fates[i].value) else NotForked
  {
    var t := AfterWaits(fates, |fates|);
    assert forall i :: 0 <= i < |fates| ==> t.children[i] == Gathered(fates[i]);
    s := t.(inHandler := false);
    ReachedNext(|fates|, t, WaitNone, s);
  }

  /** A child that ends by itself returns its number, in eight bits; a signal can kill
      it at any time; nothing else ends it. */
  lemma EndsExactlyWhen(s: System, i: nat, status: Status)
    requires Reachable(s)
    ensures Step(s, Die(i, status)).Some? <==>
              i < |s.children| && s.children[i] == Alive && (status.Killed? || status.code == (i + 1) % 256)
    ensures Step(s, Die(i, status)).Some? ==>
              s.parent != Blocking && ZombieWaits(Step(s, Die(i, status)).value, i, status)
  {
    Safety(s);
  }

  /** Child i is a zombie and the signal that says so is pending. */
  predicate ZombieWaits(s: System, i: nat, status: Status) {
    i < |s.children| && s.children[i] == Zombie(status) && s.pending && (s.blocked || s.installed)
  }

  /** One successful call of waitpid. */
  lemma ReapsOne(s: System) returns (i: nat, u: System)
    requires Inv(s) && s.inHandler && SomeZombie(s.children)
    ensures Step(s, Wait(i)) == Some(u) && Inv(u)
    ensures i < |s.children| && s.children[i].Zombie?
    ensures u == s.(children := s.children[i := Reaped(s.children[i].status)], reports := u.reports)
    ensures |u.reports| == |s.reports| + 1
    ensures 0 <= Sum(u.children, Unreaped) < Sum(s.children, Unreaped)
  {
    i :| 0 <= i < |s.children| && s.children[i].Zombie?;
    u := WaitStep(s, i).value;
    WaitInv(s, i);
    WaitsCountStep(s, Wait(i));
    SumAtMost(u.children);
  }

  /** From inside the handler: successful calls of waitpid, and the handler's exit, after
      which no zombie is left; what was pending stays so. */
  lemma {:induction false} HandlerReapsAll(s: System) returns (acts: seq<Action>, t: System)
    requires Inv(s) && s.inHandler
    ensures Exec(Step, s, acts) == Some(t) && !SomeZombie(t.children) && !t.inHandler && t.pending == s.pending
    ensures |acts| >= 1 && acts[|acts| - 1] == WaitNone && forall k :: 0 <= k < |acts| - 1 ==> acts[k].Wait?
    ensures |t.reports| - |s.reports| == |acts| - 1
    ensures forall i :: 0 <= i < |s.children| ==>
              i < |t.children| &&
              t.children[i] == if s.children[i].Zombie? then Reaped(s.children[i].status) else s.children[i]
    decreases Sum(s.children, Unreaped)
  {
    SumAtMost(s.children);
    if SomeZombie(s.children) {
      var i, u := ReapsOne(s);
      acts, t := HandlerReapsAll(u);
      acts := [Wait(i)] + acts;
    } else {
      acts, t := [WaitNone], s.(inHandler := false);
      assert Exec(Step, t, []) == Some(t);
    }
  }
}
