/**
 Which descriptors the reactor closes, over whole runs, and the run in which a byte
 that was read is never sent back.
 */
module ReactorDescriptors {
  import opened Basics
  import opened Runs
  import opened ReactorTable
  import opened ReactorTheorems

  // ---- Descriptors nobody watches -----------------------------------------------------------

  /** Open, but in no slot: only the end of the process closes them. */
  function Leaked(r: Reactor): set<int> { r.open - r.interest.Keys }

  /** The listener's event hands out a descriptor that fcntl fails on. */
  predicate FailsFcntl(ev: Event, a: Answer) {
    ev.slot == MAX_EVENTS && IN in ev.mask && a.accepted.Connected? && !a.accepted.nonblocking
  }

  lemma CallLeak(r: Reactor, i: nat, a: Answer)
    requires Inv(r) && i <= MAX_EVENTS && r.slots[i].status == 1 && Call(r, i, a).Some?
    ensures Leaked(Call(r, i, a).value) ==
              Leaked(r) + if i == MAX_EVENTS && a.accepted.Connected? && !a.accepted.nonblocking
                          then {a.accepted.fd} else {}
  {
    assert SlotShape(i, r.slots[i]);
    if i < MAX_EVENTS && r.slots[i].callBack == SendData {
      SendInv(r, i, a);
    }
  }

  lemma DispatchLeak(r: Reactor, batch: seq<Event>, a: Answer, b: Answer)
    requires Pendings(r, batch) && batch != [] && Dispatch(r, batch[0], a, b).Some?
    ensures Leaked(Dispatch(r, batch[0], a, b).value) ==
              Leaked(r) + if FailsFcntl(batch[0], a) then {a.accepted.fd} else {}
  {
    var ev := batch[0];
    DispatchOnce(r, ev, a, b);
    assert SlotShape(ev.slot, r.slots[ev.slot]);
    if IN in ev.mask {
      CallLeak(r, ev.slot, a);
    } else if OUT in ev.mask {
      CallLeak(r, ev.slot, b);
    }
  }

  /** Some event of the turn does. */
  ghost predicate Leaks(t: Turn) {
    exists j :: 0 <= j < |t.batch| && j < |t.answers| && FailsFcntl(t.batch[j], t.answers[j].0)
  }

  lemma {:induction false} DispatchAllLeak(r: Reactor, t: Turn)
    requires Pendings(r, t.batch) && |t.answers| == |t.batch| && DispatchAll(r, t.batch, t.answers).Some?
    ensures Leaked(DispatchAll(r, t.batch, t.answers).value) == {} <==> Leaked(r) == {} && !Leaks(t)
    decreases |t.batch|
  {
    if t.batch != [] {
      var a, rest := t.answers[0], Turn(t.now, t.batch[1..], t.answers[1..]);
      DispatchStep(r, t.batch, a.0, a.1);
      DispatchLeak(r, t.batch, a.0, a.1);
      DispatchAllLeak(Dispatch(r, t.batch[0], a.0, a.1).value, rest);
      LeaksNext(t, rest);
    }
  }

  lemma LeaksNext(t: Turn, rest: Turn)
    requires t.batch != [] && |t.answers| == |t.batch|
    requires rest.batch == t.batch[1..] && rest.answers == t.answers[1..]
    ensures Leaks(t) <==> FailsFcntl(t.batch[0], t.answers[0].0) || Leaks(rest)
  {
    if j :| 0 <= j < |t.batch| && FailsFcntl(t.batch[j], t.answers[j].0) {
      assert j > 0 ==> FailsFcntl(rest.batch[j - 1], rest.answers[j - 1].0);
    }
    if j :| 0 <= j < |rest.batch| && FailsFcntl(rest.batch[j], rest.answers[j].0) {
      assert FailsFcntl(t.batch[j + 1], t.answers[j + 1].0);
    }
  }

  lemma SweepLeak(r: Reactor, now: int, n: nat)
    requires Inv(r) && CanSweep(r)
    ensures Leaked(Sweep(r, now, n)) == {} <==> Leaked(r) == {}
  {
    var t := Sweep(r, now, n);
    SweepInv(r, now, n);
    forall fd ensures fd in Leaked(t) <==> fd in Leaked(r) && !TimedOut(r, now, n, fd) {
      SweepCloses(r, now, n, fd);
    }
    forall fd | fd in Leaked(r) ensures !TimedOut(r, now, n, fd) {
    }
    assert forall fd :: fd in Leaked(t) <==> fd in Leaked(r);
  }

  lemma {:induction false} LeakRun(r: Reactor, turns: seq<Turn>)
    requires Inv(r) && Exec(Step, r, turns).Some?
    ensures Leaked(Exec(Step, r, turns).value) == {} <==>
              Leaked(r) == {} && forall j :: 0 <= j < |turns| ==> !Leaks(turns[j])
    decreases |turns|
  {
    if turns != [] {
      var t := turns[0];
      SweepInv(r, t.now, SWEEP);
      SweepLeak(r, t.now, SWEEP);
      DispatchAllLeak(Sweep(r, t.now, SWEEP), t);
      StepInv(r, t);
      LeakRun(Step(r, t).value, turns[1..]);
      assert forall j :: 0 < j < |turns| ==> turns[j] == turns[1..][j - 1];
    }
  }

  lemma NoneLeaked(r: Reactor)
    requires Inv(r)
    ensures Leaked(r) == {} <==> r.open == r.interest.Keys
  {
    if Leaked(r) == {} {
      forall fd ensures fd in r.open <==> fd in r.interest.Keys {
        assert fd !in Leaked(r);
      }
      assert r.open == r.interest.Keys;
    }
  }

  lemma StartLeak(lfd: int, now: int)
    ensures Leaked(Start(lfd, now)) == {}
  {
  }

  /** Over whole runs, every open descriptor sits in the interest set, so that each
      connection that ended was closed, exactly when fcntl failed on no accepted one. */
  lemma NoDescriptorLeaksExactlyWhen(lfd: int, now: int, turns: seq<Turn>, r: Reactor)
    requires Exec(Step, Start(lfd, now), turns) == Some(r)
    ensures r.open == r.interest.Keys <==> forall j :: 0 <= j < |turns| ==> !Leaks(turns[j])
  {
    StartInv(lfd, now);
    StartLeak(lfd, now);
    LeakRun(Start(lfd, now), turns);
    Safety(r);
    NoneLeaked(r);
  }

  // ---- A byte that is never echoed -------------------------------------------------------------

  /** A sweep that finds nothing expired moves the cursor only. */
  lemma {:induction false} QuietSweep(r: Reactor, now: int, n: nat)
    requires CanSweep(r) && forall i :: 0 <= i < |r.slots| ==> !Expired(r.slots[i], now)
    ensures Sweep(r, now, n) == r.(checkpos := Sweep(r, now, n).checkpos)
    decreases n
  {
    if n > 0 {
      QuietSweep(Inspect(r, now), now, n - 1);
    }
  }

  /** A batch of one event runs the callback of its slot. */
  lemma SingleEvent(r: Reactor, i: nat, a: Answer)
    requires Inv(r) && i <= MAX_EVENTS && r.slots[i].status == 1
    ensures var batch := [Event(i, r.slots[i].events)];
            Reported(r, batch) && DispatchAll(r, batch, [(a, a)]) == Call(r, i, a)
  {
    var ev := Event(i, r.slots[i].events);
    assert SlotShape(i, r.slots[i]);
    DispatchOnce(r, ev, a, a);
    if Call(r, i, a).Some? {
      assert DispatchAll(Call(r, i, a).value, [], []) == Some(Call(r, i, a).value);
    }
  }

  /** A turn at time 0 with one event and nothing expired. */
  lemma TurnOfOne(r: Reactor, i: nat, a: Answer) returns (p: nat, turn: Turn)
    requires Reachable(r) && i <= MAX_EVENTS && InTable(r, i) && r.slots[i].status == 1
    requires forall j :: 0 <= j < |r.slots| ==> !Expired(r.slots[j], 0)
    ensures turn == Turn(0, [Event(i, r.slots[i].events)], [(a, a)])
    ensures p <= MAX_EVENTS && Step(r, turn) == Call(r.(checkpos := p), i, a)
  {
    Safety(r);
    turn := Turn(0, [Event(i, r.slots[i].events)], [(a, a)]);
    QuietSweep(r, 0, SWEEP);
    SweepInv(r, 0, SWEEP);
    p := Sweep(r, 0, SWEEP).checkpos;
    SingleEvent(Sweep(r, 0, SWEEP), i, a);
  }

  lemma ReachableNext(r: Reactor, turn: Turn, t: Reactor)
    requires Reachable(r) && Step(r, turn) == Some(t)
    ensures Reachable(t)
  {
    var lfd: int, now: int, turns: seq<Turn> :| Exec(Step, Start(lfd, now), turns) == Some(r);
    ExecNext(Step, Start(lfd, now), turns, r, turn, t);
  }

  // ---- First turns of a server that listens on lfd ----------------------------------------

  lemma StartCanAccept(lfd: int, p: nat, a: Answer)
    requires a.accepted.Connected? ==> a.accepted.fd != lfd
    ensures var s := Start(lfd, 0).(checkpos := p);
            && InTable(s, 0) && s.slots[0] == Blank() && s.slots[MAX_EVENTS].callBack == AcceptConn
            && AcceptDefined(s, a) && FirstFree(s.slots, 0) == 0
  {
    var s := Start(lfd, 0).(checkpos := p);
    assert s.slots[0] == Blank();
    assert HasRoom(s);
  }

  lemma StartReachable(lfd: int)
    ensures Reachable(Start(lfd, 0))
  {
    assert Exec(Step, Start(lfd, 0), []) == Some(Start(lfd, 0));
  }

  lemma FirstTurn(lfd: int, a: Answer) returns (p: nat, turn: Turn)
    requires a.accepted.Connected? ==> a.accepted.fd != lfd
    ensures turn == Turn(0, [Event(MAX_EVENTS, {IN})], [(a, a)])
    ensures var s := Start(lfd, 0).(checkpos := p);
            InTable(s, 0) && AcceptDefined(s, a) && Step(Start(lfd, 0), turn) == Some(OnAccept(s, a))
  {
    StartReachable(lfd);
    p, turn := TurnOfOne(Start(lfd, 0), MAX_EVENTS, a);
    StartCanAccept(lfd, p, a);
  }

  /** A connection whose fcntl fails: it stays open, and nobody watches it. */
  lemma FailedFcntlLeaks(lfd: int, fd: int) returns (turn: Turn, r: Reactor)
    requires fd != lfd
    ensures Exec(Step, Start(lfd, 0), [turn]) == Some(r) && Leaks(turn)
    ensures fd in r.open && fd !in r.interest
  {
    var a := Answer(Connected(fd, false), Eof, 0, 0);
    var p;
    p, turn := FirstTurn(lfd, a);
    r := OnAccept(Start(lfd, 0).(checkpos := p), a);
    assert Exec(Step, r, []) == Some(r);
    assert FailsFcntl(turn.batch[0], turn.answers[0].0);
  }

  /** The listener and one connection, in slot 0, both renewed at time 0; the
      connection waits for its callback's condition. */
  ghost predicate ClientShape(r: Reactor, lfd: int, fd: int, callBack: Callback) {
    && InTable(r, 0) && r.interest.Keys == r.open == {lfd, fd}
    && r.slots[0].fd == fd && r.slots[0].status == 1 && r.slots[0].callBack == callBack
    && r.slots[0].events == (if callBack == RecvData then {IN} else {OUT})
    && (forall j :: 0 <= j < |r.slots| ==> !Expired(r.slots[j], 0))
  }

  ghost predicate OneClient(r: Reactor, lfd: int, fd: int, callBack: Callback) {
    Reachable(r) && ClientShape(r, lfd, fd, callBack)
  }

  lemma FirstAccept(lfd: int, fd: int, p: nat) returns (r: Reactor)
    requires fd != lfd
    ensures var s, a := Start(lfd, 0).(checkpos := p), Answer(Connected(fd, true), Eof, 0, 0);
            InTable(s, 0) && AcceptDefined(s, a) && r == OnAccept(s, a)
    ensures ClientShape(r, lfd, fd, RecvData)
  {
    var s, a := Start(lfd, 0).(checkpos := p), Answer(Connected(fd, true), Eof, 0, 0);
    StartCanAccept(lfd, p, a);
    r := OnAccept(s, a);
    assert r.slots == s.slots[0 := MyEvent(fd, {IN}, RecvData, 1, [], 0, 0)];
  }

  lemma AcceptOne(lfd: int, fd: int) returns (r: Reactor)
    requires fd != lfd
    ensures OneClient(r, lfd, fd, RecvData)
  {
    var p, turn := FirstTurn(lfd, Answer(Connected(fd, true), Eof, 0, 0));
    r := FirstAccept(lfd, fd, p);
    StartReachable(lfd);
    ReachableNext(Start(lfd, 0), turn, r);
  }

  lemma FirstRead(r: Reactor, lfd: int, fd: int, data: Bytes) returns (s: Reactor)
    requires InTable(r, 0) && r.slots[0].fd == fd && r.slots[0].status == 1 && r.slots[0].callBack == RecvData
    requires r.interest.Keys == r.open == {lfd, fd} && 0 < |data| < BUFLEN
    ensures Call(r, 0, Answer(Refused, Got(data), 0, 0)) == Some(s)
    ensures s.slots == r.slots[0 := MyEvent(fd, {OUT}, SendData, 1, [], 0, 0)]
    ensures s.interest.Keys == s.open == {lfd, fd}
  {
    s := OnRecv(r, 0, Answer(Refused, Got(data), 0, 0));
    assert s.interest.Keys == r.interest.Keys - {fd} + {fd};
  }

  lemma ReadOne(r: Reactor, lfd: int, fd: int, data: Bytes) returns (s: Reactor, turn: Turn)
    requires OneClient(r, lfd, fd, RecvData) && 0 < |data| < BUFLEN
    ensures Step(r, turn) == Some(s) && OneClient(s, lfd, fd, SendData)
    ensures var a := Answer(Refused, Got(data), 0, 0); turn == Turn(0, [Event(0, {IN})], [(a, a)])
  {
    var p;
    p, turn := TurnOfOne(r, 0, Answer(Refused, Got(data), 0, 0));
    s := FirstRead(r.(checkpos := p), lfd, fd, data);
    ReachableNext(r, turn, s);
  }

  lemma FirstWrite(s: Reactor, lfd: int, fd: int, p: nat) returns (t: Reactor)
    requires OneClient(s, lfd, fd, SendData) && fd != lfd
    ensures Call(s.(checkpos := p), 0, Answer(Refused, Eof, 0, 0)) == Some(t) && t.sent == 0 && t.open == {lfd}
  {
    Safety(s);
    assert SlotShape(0, s.slots[0]);
    t := OnSend(s.(checkpos := p), 0, Answer(Refused, Eof, 0, 0));
    assert t.open == {lfd, fd} - {fd};
  }

  lemma WriteOne(s: Reactor, lfd: int, fd: int) returns (t: Reactor, turn: Turn)
    requires OneClient(s, lfd, fd, SendData) && fd != lfd
    ensures Step(s, turn) == Some(t) && turn.batch == [Event(0, {OUT})]
    ensures t.sent == 0 && t.open == {lfd}
  {
    var p;
    p, turn := TurnOfOne(s, 0, Answer(Refused, Eof, 0, 0));
    t := FirstWrite(s, lfd, fd, p);
  }

  /** Whatever is read from a first connection, the next turn can run its write
      callback, which sends nothing and closes it. */
  lemma ReceivedDataIsNotEchoed(lfd: int, fd: int, data: Bytes)
    returns (r: Reactor, s: Reactor, t: Reactor, read: Turn, write: Turn)
    requires fd != lfd && 0 < |data| < BUFLEN
    ensures Reachable(r) && Step(r, read) == Some(s) && Step(s, write) == Some(t)
    ensures fd in r.interest && r.interest[fd].slot == 0
    ensures read.batch == [Event(0, {IN})] && |read.answers| == 1 && read.answers[0].0.read == Got(data)
    ensures write.batch == [Event(0, {OUT})] && t.sent == 0 && t.open == {lfd}
  {
    r := AcceptOne(lfd, fd);
    Safety(r);
    s, read := ReadOne(r, lfd, fd, data);
    t, write := WriteOne(s, lfd, fd);
  }
}
