/**
 The SIGCHLD reaper: a parent that blocks the signal, forks its children, installs a
 handler and unblocks.  However many children die, the signal has one pending bit.
 A SIGCHLD that arrives while blocked stays pending, also before the handler exists;
 one that is neither blocked nor handled is discarded.
 */
module Reaper {
  import opened Basics
  import opened Counting
  import opened Runs

  datatype Status = Exited(code: nat) | Killed(signo: nat)

  datatype Child = Unborn | NotForked | Alive | Zombie(status: Status) | Reaped(status: Status)

  datatype Parent = Blocking | Forking(i: nat) | Unblocking | Waiting

  /** `reports` is what the handler printed: which child, with which status. */
  datatype System = System(
    children: seq<Child>, parent: Parent, blocked: bool, installed: bool, pending: bool, inHandler: bool,
    reports: seq<(nat, Status)>)

  /** Stray: a SIGCHLD for another reason than a death, such as a stopped child. */
  datatype Action =
    | Block | Fork | ForkFails | Install | Unblock
    | Die(i: nat, status: Status) | Stray
    | Deliver | Wait(i: nat) | WaitNone

  function Init(n: nat): System {
    System(seq(n, _ => Unborn), Blocking, false, false, false, false, [])
  }

  predicate SomeZombie(cs: seq<Child>) { exists i :: 0 <= i < |cs| && cs[i].Zombie? }

  /** A child that ends by itself returns its number; only the low eight bits reach
      the parent. */
  predicate PossibleEnd(i: nat, status: Status) { status.Exited? ==> status.code == (i + 1) % 256 }

  function ForkStep(s: System, c: Child): Option<System> {
    if s.parent.Forking? && s.parent.i < |s.children|
    then Some(s.(children := s.children[s.parent.i := c], parent := Forking(s.parent.i + 1)))
    else None
  }

  function WaitStep(s: System, i: nat): Option<System> {
    if s.inHandler && i < |s.children| && s.children[i].Zombie?
    then Some(s.(children := s.children[i := Reaped(s.children[i].status)],
                 reports := s.reports + [(i, s.children[i].status)]))
    else None
  }

  function Step(s: System, a: Action): Option<System> {
    match a
    case Block => if s.parent == Blocking then Some(s.(parent := Forking(0), blocked := true)) else None
    case Fork => ForkStep(s, Alive)
    case ForkFails => ForkStep(s, NotForked)
    case Install =>
      if s.parent == Forking(|s.children|) then Some(s.(parent := Unblocking, installed := true)) else None
    case Unblock => if s.parent == Unblocking then Some(s.(parent := Waiting, blocked := false)) else None
    case Die(i, status) =>
      if i < |s.children| && s.children[i] == Alive && PossibleEnd(i, status)
      then Some(s.(children := s.children[i := Zombie(status)], pending := true)) else None
    case Stray => Some(s.(pending := s.pending || s.blocked || s.installed))
    case Deliver =>
      if s.pending && !s.blocked && s.installed && !s.inHandler
      then Some(s.(pending := false, inHandler := true)) else None
    case Wait(i) => WaitStep(s, i)
    case WaitNone => if s.inHandler && !SomeZombie(s.children) then Some(s.(inHandler := false)) else None
  }

  ghost predicate Reachable(s: System) {
    exists n: nat, acts: seq<Action> :: Exec(Step, Init(n), acts) == Some(s)
  }

  /** Each reaped child was reported once, with the status it died with. */
  ghost predicate ReportInv(cs: seq<Child>, reports: seq<(nat, Status)>) {
    && (forall k :: 0 <= k < |reports| ==>
         reports[k].0 < |cs| && cs[reports[k].0] == Reaped(reports[k].1) && PossibleEnd(reports[k].0, reports[k].1))
    && (forall a, b :: 0 <= a < b < |reports| ==> reports[a].0 != reports[b].0)
    && (forall i :: 0 <= i < |cs| && cs[i].Reaped? ==> (i, cs[i].status) in reports)
    && (forall i :: 0 <= i < |cs| && cs[i].Zombie? ==> PossibleEnd(i, cs[i].status))
  }

  predicate Born(s: System, i: nat) {
    match s.parent
    case Blocking => false
    case Forking(k) => i < k
    case _ => true
  }

  ghost predicate Inv(s: System) {
    && ReportInv(s.children, s.reports)
    && (SomeZombie(s.children) ==> s.pending || s.inHandler)
    && (s.parent.Forking? ==> s.parent.i <= |s.children|)
    && (forall i :: 0 <= i < |s.children| ==> (s.children[i] == Unborn <==> !Born(s, i)))
    && (s.installed <==> s.parent.Unblocking? || s.parent.Waiting?)
    && (s.blocked <==> s.parent.Forking? || s.parent.Unblocking?)
    && (s.inHandler ==> s.parent.Waiting?)
  }

  lemma WaitInv(s: System, i: nat)
    requires Inv(s) && WaitStep(s, i).Some?
    ensures Inv(WaitStep(s, i).value)
  {
    var t := WaitStep(s, i).value;
    assert t.reports[|s.reports|] == (i, s.children[i].status);
    forall j | 0 <= j < |t.children| && t.children[j].Reaped? ensures (j, t.children[j].status) in t.reports {
      assert j != i ==> (j, s.children[j].status) in s.reports;
    }
  }

  lemma DieInv(s: System, i: nat, status: Status)
    requires Inv(s) && Step(s, Die(i, status)).Some?
    ensures Inv(Step(s, Die(i, status)).value)
  {
  }

  lemma ForkInv(s: System, c: Child)
    requires Inv(s) && ForkStep(s, c).Some? && (c == Alive || c == NotForked)
    ensures Inv(ForkStep(s, c).value)
  {
    var t := ForkStep(s, c).value;
    assert forall i :: 0 <= i < |s.children| && i != s.parent.i ==> t.children[i] == s.children[i];
    if SomeZombie(t.children) {
      var i :| 0 <= i < |t.children| && t.children[i].Zombie?;
      assert s.children[i].Zombie?;
    }
  }

  lemma InvStep(s: System, a: Action)
    requires Inv(s) && Step(s, a).Some?
    ensures Inv(Step(s, a).value)
  {
    match a {
      case Wait(i) => WaitInv(s, i);
      case Die(i, status) => DieInv(s, i, status);
      case Fork => ForkInv(s, Alive);
      case ForkFails => ForkInv(s, NotForked);
      case _ =>
    }
  }

  lemma Safety(s: System)
    requires Reachable(s)
    ensures Inv(s)
  {
    var n: nat, acts: seq<Action> :| Exec(Step, Init(n), acts) == Some(s);
    forall t, a | Inv(t) && Step(t, a).Some? ensures Inv(Step(t, a).value) {
      InvStep(t, a);
    }
    InvariantHolds(Step, Inv, Init(n), acts);
  }

  /** No death goes unnoticed: while there is a zombie the signal is pending or the
      handler is still in its loop. */
  lemma ZombieIsAnnounced(s: System)
    requires Reachable(s) && SomeZombie(s.children)
    ensures s.pending || s.inHandler
  {
    Safety(s);
  }

  /** Steps the parent process takes without the outside world. */
  predicate Internal(a: Action) { !a.Die? && !a.Stray? }

  /** Inside the handler a turn of the loop or its exit is always possible. */
  lemma HandlerCanMove(s: System) returns (a: Action)
    requires s.inHandler
    ensures Internal(a) && (a.Wait? || a == WaitNone) && Step(s, a).Some?
  {
    a := WaitNone;
    if SomeZombie(s.children) {
      var i :| 0 <= i < |s.children| && s.children[i].Zombie?;
      a := Wait(i);
    }
  }

  /** When the parent can go no further and no child is alive, every child that was
      forked has been reaped and reported exactly once, with the status it ended with. */
  lemma QuiescentMeansReaped(s: System)
    requires Reachable(s)
    requires forall a :: Internal(a) ==> Step(s, a).None?
    requires forall i :: 0 <= i < |s.children| ==> s.children[i] != Alive
    ensures forall i :: 0 <= i < |s.children| ==>
              s.children[i] == NotForked ||
              (&& s.children[i].Reaped? && (i, s.children[i].status) in s.reports
               && (s.children[i].status.Exited? ==> s.children[i].status.code == (i + 1) % 256))
    ensures forall a, b :: 0 <= a < b < |s.reports| ==> s.reports[a].0 != s.reports[b].0
    ensures forall k :: 0 <= k < |s.reports| ==>
              s.reports[k].0 < |s.children| && s.children[s.reports[k].0] == Reaped(s.reports[k].1)
  {
    Safety(s);
    assert Step(s, Block).None? && Step(s, Fork).None? && Step(s, Install).None? && Step(s, Unblock).None?;
    assert s.parent.Waiting?;
    if s.inHandler {
      var a := HandlerCanMove(s);
      assert false;
    }
    assert Step(s, Deliver).None?;
    forall i | 0 <= i < |s.children| && s.children[i].Reaped?
      ensures (i, s.children[i].status) in s.reports && PossibleEnd(i, s.children[i].status)
    {
      var k :| 0 <= k < |s.reports| && s.reports[k] == (i, s.children[i].status);
      assert s.children[s.reports[k].0] == Reaped(s.reports[k].1);
    }
  }

  // ---- Termination of the handler --------------------------------------------------------

  function Unreaped(c: Child): int { if c.Reaped? then 0 else 1 }

  ghost function Waits(acts: seq<Action>): nat {
    if acts == [] then 0 else (if acts[0].Wait? then 1 else 0) + Waits(acts[1..])
  }

  lemma WaitsCountStep(s: System, a: Action)
    requires Inv(s) && Step(s, a).Some?
    ensures Sum(Step(s, a).value.children, Unreaped) == Sum(s.children, Unreaped) - (if a.Wait? then 1 else 0)
  {
    match a {
      case Fork => SumUpdate(s.children, s.parent.i, Alive, Unreaped);
      case ForkFails => SumUpdate(s.children, s.parent.i, NotForked, Unreaped);
      case Die(i, status) => SumUpdate(s.children, i, Zombie(status), Unreaped);
      case Wait(i) => SumUpdate(s.children, i, Reaped(s.children[i].status), Unreaped);
      case _ =>
    }
  }

  /** Each successful waitpid uses up one child, whatever happens around it. */
  lemma {:induction false} WaitsCount(s: System, acts: seq<Action>)
    requires Inv(s) && Exec(Step, s, acts).Some?
    ensures Waits(acts) == Sum(s.children, Unreaped) - Sum(Exec(Step, s, acts).value.children, Unreaped)
    decreases |acts|
  {
    if acts != [] {
      WaitsCountStep(s, acts[0]);
      InvStep(s, acts[0]);
      WaitsCount(Step(s, acts[0]).value, acts[1..]);
    }
  }

  lemma {:induction false} SumAtMost(cs: seq<Child>)
    ensures 0 <= Sum(cs, Unreaped) <= |cs|
  {
    if cs != [] {
      SumAtMost(cs[..|cs| - 1]);
    }
  }

  /** In any run the handler's loops make at most one successful turn per child. */
  lemma HandlerTerminates(s: System, acts: seq<Action>)
    requires Reachable(s) && Exec(Step, s, acts).Some?
    ensures Waits(acts) <= |s.children|
  {
    Safety(s);
    WaitsCount(s, acts);
    SumAtMost(s.children);
    SumAtMost(Exec(Step, s, acts).value.children);
  }

  // ---- The handler's loop ---------------------------------------------------------------------

  /** What other processes may do to the table between two calls. */
  ghost predicate Died(before: seq<Child>, after: seq<Child>) {
    && |after| == |before|
    && forall i :: 0 <= i < |before| ==>
         after[i] == before[i] || (before[i] == Alive && after[i].Zombie? && PossibleEnd(i, after[i].status))
  }

  predicate OfOutside(a: Action) { a.Die? || a.Stray? }

  /** Deaths that have happened by number n, one step each. */
  lemma {:induction false} DeathsAreSteps(s: System, after: seq<Child>, n: nat) returns (acts: seq<Action>, t: System)
    requires Died(s.children, after) && n <= |after|
    ensures Exec(Step, s, acts) == Some(t) && t == s.(children := after[..n] + s.children[n..], pending := t.pending)
    ensures forall a :: a in acts ==> OfOutside(a)
    decreases n
  {
    if n == 0 {
      acts, t := [], s;
      assert s.children[0..] == s.children;
    } else {
      var i := n - 1;
      acts, t := DeathsAreSteps(s, after, i);
      assert t.children[i] == s.children[i];
      if after[i] != s.children[i] {
        var u := t.(children := t.children[i := after[i]], pending := true);
        ExecNext(Step, s, acts, t, Die(i, after[i].status), u);
        acts, t := acts + [Die(i, after[i].status)], u;
      }
      assert t.children == after[..n] + s.children[n..];
    }
  }

  /** Whatever happens between two calls is a run of steps of the outside world. */
  lemma ElapseIsRun(s: System, t: System) returns (acts: seq<Action>)
    requires Died(s.children, t.children) && t == s.(children := t.children, pending := t.pending)
    requires s.installed && (t.pending || t == s)
    ensures Exec(Step, s, acts) == Some(t) && forall a :: a in acts ==> OfOutside(a)
  {
    if t == s {
      return [];
    }
    var u;
    acts, u := DeathsAreSteps(s, t.children, |t.children|);
    assert u.children == t.children;
    ExecNext(Step, s, acts, u, Stray, t);
    acts := acts + [Stray];
  }

  /** Dying is not being reaped, so deaths leave the number of unreaped children. */
  lemma DiedKeepsSum(before: seq<Child>, after: seq<Child>)
    requires Died(before, after)
    ensures Sum(after, Unreaped) == Sum(before, Unreaped)
  {
    SumBelow(before, after, Unreaped);
    SumBelow(after, before, Unreaped);
  }

  /** A run, and one successful waitpid after it. */
  lemma WaitAfter(s: System, acts: seq<Action>, t: System, i: nat, u: System) returns (longer: seq<Action>)
    requires Exec(Step, s, acts) == Some(t) && WaitStep(t, i) == Some(u)
    ensures Exec(Step, s, longer) == Some(u) && longer == acts + [Wait(i)]
    ensures Sum(u.children, Unreaped) == Sum(t.children, Unreaped) - 1
  {
    longer := acts + [Wait(i)];
    ExecNext(Step, s, acts, t, Wait(i), u);
    SumUpdate(t.children, i, Reaped(t.children[i].status), Unreaped);
  }

  /** Children that were alive may have died or been reaped; of the others only
      zombies changed, by being reaped. */
  ghost predicate OnlyReaped(before: seq<Child>, after: seq<Child>) {
    && |after| == |before|
    && forall i :: 0 <= i < |before| && !before[i].Alive? ==>
         after[i] == before[i] || (before[i].Zombie? && after[i] == Reaped(before[i].status))
  }

  class Kernel {
    var children: seq<Child>
    var pending: bool
    var reports: seq<(nat, Status)>

    /** The system while its parent is in the handler. */
    function View(): System
      reads this
    {
      System(children, Waiting, false, true, pending, true, reports)
    }

    /** Any number of children may die here; the caller knows no more than this. */
    method Elapse()
      modifies this`children, this`pending
      ensures Died(old(children), children)
      ensures pending || View() == old(View())
    {
      pending := true;
    }

    /** catch_child: reap until waitpid finds no more.  The loop is a run of the
        system that ends with the handler's exit. */
    method CatchChild() returns (ghost acts: seq<Action>)
      requires ReportInv(children, reports)
      modifies this
      ensures Exec(Step, old(View()), acts) == Some(View().(inHandler := false))
      ensures ReportInv(children, reports) && !SomeZombie(children)
      ensures |children| == |old(children)| && old(reports) <= reports
      ensures forall i :: 0 <= i < |children| && !old(children)[i].Alive? ==>
                children[i] == if old(children)[i].Zombie? then Reaped(old(children)[i].status) else old(children)[i]
    {
      acts := [];
      while true
        invariant Exec(Step, old(View()), acts) == Some(View())
        invariant ReportInv(children, reports)
        invariant OnlyReaped(old(children), children) && old(reports) <= reports
        decreases Sum(children, Unreaped)
      {
        SumAtMost(children);
        var more;
        ghost var turn;
        more, turn := OneTurn();
        ExecAppend(Step, old(View()), acts, turn);
        acts := acts + turn;
        if !more {
          ExecNext(Step, old(View()), acts, View(), WaitNone, View().(inHandler := false));
          acts := acts + [WaitNone];
          return;
        }
        SumAtMost(children);
      }
    }

    /** The time between two calls is a run of the system in which nobody is reaped. */
    method LetElapse() returns (ghost acts: seq<Action>)
      requires ReportInv(children, reports)
      modifies this`children, this`pending
      ensures Exec(Step, old(View()), acts) == Some(View())
      ensures ReportInv(children, reports) && OnlyReaped(old(children), children)
      ensures Sum(children, Unreaped) == Sum(old(children), Unreaped)
    {
      Elapse();
      acts := ElapseIsRun(old(View()), View());
      DiedKeepsSum(old(children), children);
    }

    /** One call of waitpid after some time has passed: false when it finds no zombie. */
    method OneTurn() returns (more: bool, ghost acts: seq<Action>)
      requires ReportInv(children, reports)
      modifies this
      ensures Exec(Step, old(View()), acts) == Some(View())
      ensures ReportInv(children, reports) && OnlyReaped(old(children), children) && old(reports) <= reports
      ensures !more ==> !SomeZombie(children) && Sum(children, Unreaped) == Sum(old(children), Unreaped)
      ensures more ==> Sum(children, Unreaped) == Sum(old(children), Unreaped) - 1
    {
      acts := LetElapse();
      more := SomeZombie(children);
      if more {
        var i :| 0 <= i < |children| && children[i].Zombie?;
        ghost var before := View();
        ReapOne(i);
        acts := WaitAfter(old(View()), acts, before, i, View());
      }
    }

    /** One successful waitpid: one step of the system. */
    method ReapOne(i: nat)
      requires i < |children| && children[i].Zombie? && ReportInv(children, reports)
      modifies this`children, this`reports
      ensures ReportInv(children, reports)
      ensures WaitStep(old(View()), i) == Some(View())
      ensures children == old(children)[i := Reaped(old(children)[i].status)]
      ensures reports == old(reports) + [(i, old(children)[i].status)]
    {
      var status := children[i].status;
      reports := reports + [(i, status)];
      children := children[i := Reaped(status)];
      assert reports[|reports| - 1] == (i, status);
      forall j | 0 <= j < |children| && children[j].Reaped? ensures (j, children[j].status) in reports {
        assert j != i ==> (j, old(children)[j].status) in old(reports);
      }
    }
  }
}
