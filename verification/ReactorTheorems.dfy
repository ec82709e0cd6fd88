/**
 Agreement between slot table and interest set in every run of the reactor, the
 dispatch of a batch, the fate of received bytes, and the reach of the idle sweep.
 */
module ReactorTheorems {
  import opened Basics
  import opened Runs
  import opened ReactorTable

  /** The listener waits for connections; a client slot waits to read, or to write
      with nothing to write. */
  predicate SlotShape(i: nat, ev: MyEvent) {
    if i == MAX_EVENTS then ev.status == 1 && ev.events == {IN} && ev.callBack == AcceptConn
    else ev.status == 1 ==>
           || (ev.callBack == RecvData && ev.events == {IN})
           || (ev.callBack == SendData && ev.events == {OUT} && ev.len == 0)
  }

  /** Slots with status 1 are exactly the interest set, with the same masks. */
  ghost predicate Agreement(r: Reactor) {
    && |r.slots| == MAX_EVENTS + 1
    && (forall i :: 0 <= i <= MAX_EVENTS ==> r.slots[i].status == 0 || r.slots[i].status == 1)
    && (forall i :: 0 <= i <= MAX_EVENTS && r.slots[i].status == 1 ==>
         r.slots[i].fd in r.interest && r.interest[r.slots[i].fd] == Watch(i, r.slots[i].events))
    && (forall fd :: fd in r.interest ==>
         var i := r.interest[fd].slot;
         i <= MAX_EVENTS && r.slots[i].status == 1 && r.slots[i].fd == fd)
    && (forall fd :: fd in r.interest ==> fd in r.open)
  }

  ghost predicate Inv(r: Reactor) {
    && Agreement(r)
    && (forall i :: 0 <= i <= MAX_EVENTS ==> SlotShape(i, r.slots[i]))
    && r.checkpos <= MAX_EVENTS && r.sent == 0
  }

  /** The listener alone is open and registered, in the last slot. */
  lemma StartInv(lfd: int, now: int)
    ensures Inv(Start(lfd, now))
    ensures var r := Start(lfd, now);
            && r.open == {lfd} && r.interest == map[lfd := Watch(1024, {IN})] && r.checkpos == 0
            && r.slots[1024] == MyEvent(lfd, {IN}, AcceptConn, 1, [], 0, now)
            && forall i :: 0 <= i < 1024 ==> r.slots[i] == MyEvent(0, {}, NoCallback, 0, [], 0, 0)
  {
  }

  /** Taking a client slot off the tree and closing its descriptor, in either order. */
  lemma CloseSlot(r: Reactor, i: nat)
    requires Inv(r) && i < MAX_EVENTS && r.slots[i].status == 1
    ensures Inv(Close(EventDel(r, i), r.slots[i].fd))
    ensures EventDel(Close(r, r.slots[i].fd), i) == Close(EventDel(r, i), r.slots[i].fd)
  {
    var t := Close(EventDel(r, i), r.slots[i].fd);
    assert r.interest - {r.slots[i].fd} - {r.slots[i].fd} == r.interest - {r.slots[i].fd};
  }

  lemma AcceptInv(r: Reactor, a: Answer)
    requires Inv(r) && AcceptDefined(r, a)
    ensures Inv(OnAccept(r, a))
  {
  }

  lemma RecvInv(r: Reactor, i: nat, a: Answer)
    requires Inv(r) && i < MAX_EVENTS && r.slots[i].status == 1
    ensures Inv(OnRecv(r, i, a))
  {
    if !a.read.Got? {
      CloseSlot(r, i);
    }
  }

  /** eventset wiped the length, so nothing is sent and the connection is closed. */
  lemma SendInv(r: Reactor, i: nat, a: Answer)
    requires Inv(r) && i < MAX_EVENTS && r.slots[i].status == 1
    requires r.slots[i].callBack == SendData && WriteDefined(r, i, a)
    ensures OnSend(r, i, a) == Close(EventDel(r, i), r.slots[i].fd)
    ensures Inv(OnSend(r, i, a))
  {
    CloseSlot(r, i);
  }

  // ---- Dispatch ------------------------------------------------------------------------

  /** A callback writes its own slot, or a slot that was off the tree. */
  ghost predicate OthersKept(r: Reactor, t: Reactor, i: nat) {
    && |t.slots| == |r.slots| && t.checkpos == r.checkpos
    && forall j :: 0 <= j < |r.slots| && j != i && r.slots[j].status == 1 ==> t.slots[j] == r.slots[j]
  }

  lemma CallInv(r: Reactor, i: nat, a: Answer)
    requires Inv(r) && i <= MAX_EVENTS && r.slots[i].status == 1 && Call(r, i, a).Some?
    ensures Inv(Call(r, i, a).value) && OthersKept(r, Call(r, i, a).value, i)
  {
    assert SlotShape(i, r.slots[i]);
    match r.slots[i].callBack {
      case AcceptConn => AcceptInv(r, a);
      case RecvData => RecvInv(r, i, a);
      case SendData => SendInv(r, i, a);
    }
  }

  /** A reported event runs at most one callback: the one for the condition its slot
      is registered for. */
  lemma DispatchOnce(r: Reactor, ev: Event, a: Answer, b: Answer)
    requires Inv(r) && ev.slot <= MAX_EVENTS && r.slots[ev.slot].status == 1
    requires ev.mask <= r.slots[ev.slot].events + {ERR, HUP}
    ensures Dispatch(r, ev, a, b) ==
              if IN in ev.mask then Call(r, ev.slot, a)
              else if OUT in ev.mask then Call(r, ev.slot, b)
              else Some(r)
  {
    assert SlotShape(ev.slot, r.slots[ev.slot]);
    if IN in ev.mask && Call(r, ev.slot, a).Some? {
      CallInv(r, ev.slot, a);
    }
  }

  ghost predicate Pendings(r: Reactor, batch: seq<Event>) { Inv(r) && Reported(r, batch) }

  /** Whatever the earlier events of a batch did, each later one still finds its slot
      registered as it was when it was reported. */
  lemma DispatchStep(r: Reactor, batch: seq<Event>, a: Answer, b: Answer)
    requires Pendings(r, batch) && batch != [] && Dispatch(r, batch[0], a, b).Some?
    ensures var t := Dispatch(r, batch[0], a, b).value;
            && Pendings(t, batch[1..]) && t.checkpos == r.checkpos
            && forall j :: 1 <= j < |batch| ==> t.slots[batch[j].slot] == r.slots[batch[j].slot]
  {
    var ev := batch[0];
    DispatchOnce(r, ev, a, b);
    if IN in ev.mask {
      CallInv(r, ev.slot, a);
    } else if OUT in ev.mask {
      CallInv(r, ev.slot, b);
    }
  }

  lemma {:induction false} DispatchAllInv(r: Reactor, batch: seq<Event>, answers: seq<(Answer, Answer)>)
    requires Pendings(r, batch) && |answers| == |batch| && DispatchAll(r, batch, answers).Some?
    ensures Inv(DispatchAll(r, batch, answers).value)
    ensures DispatchAll(r, batch, answers).value.checkpos == r.checkpos
    decreases |batch|
  {
    if batch != [] {
      DispatchStep(r, batch, answers[0].0, answers[0].1);
      DispatchAllInv(Dispatch(r, batch[0], answers[0].0, answers[0].1).value, batch[1..], answers[1..]);
    }
  }

  // ---- Sweep -----------------------------------------------------------------------------

  lemma InspectInv(r: Reactor, now: int)
    requires Inv(r) && CanSweep(r)
    ensures Inv(Inspect(r, now))
    ensures forall i :: 0 <= i <= MAX_EVENTS && i != CheckedSlot(r) ==> Inspect(r, now).slots[i] == r.slots[i]
    ensures var i := CheckedSlot(r);
            Inspect(r, now).slots[i] == if Expired(r.slots[i], now) then r.slots[i].(status := 0) else r.slots[i]
  {
    var pos := CheckedSlot(r);
    if Expired(r.slots[pos], now) {
      CloseSlot(r, pos);
    }
  }

  lemma {:induction false} SweepInv(r: Reactor, now: int, n: nat)
    requires Inv(r) && CanSweep(r)
    ensures Inv(Sweep(r, now, n))
    decreases n
  {
    if n > 0 {
      InspectInv(r, now);
      SweepInv(Inspect(r, now), now, n - 1);
    }
  }

  /** Some of the n iterations of the sweep looks at slot i. */
  ghost predicate Inspected(r: Reactor, now: int, n: nat, i: nat)
    requires CanSweep(r)
  {
    exists k :: 0 <= k < n && CheckedSlot(Sweep(r, now, k)) == i
  }

  /** Counted from the cursor, iteration k looks at slot (cursor + k) mod 1024. */
  lemma {:induction false} CursorAt(r: Reactor, now: int, k: nat)
    requires CanSweep(r)
    ensures CheckedSlot(Sweep(r, now, k)) == (CheckedSlot(r) + k) % 1024
    decreases k
  {
    if k > 0 {
      CursorAt(Inspect(r, now), now, k - 1);
    }
  }

  lemma InspectedNext(r: Reactor, now: int, n: nat, i: nat)
    requires CanSweep(r) && n > 0
    ensures Inspected(r, now, n, i) <==> i == CheckedSlot(r) || Inspected(Inspect(r, now), now, n - 1, i)
  {
    if Inspected(r, now, n, i) {
      var k :| 0 <= k < n && CheckedSlot(Sweep(r, now, k)) == i;
      assert k > 0 ==> CheckedSlot(Sweep(Inspect(r, now), now, k - 1)) == i;
    }
    if i == CheckedSlot(r) {
      assert CheckedSlot(Sweep(r, now, 0)) == i;
    }
    if Inspected(Inspect(r, now), now, n - 1, i) {
      var k :| 0 <= k < n - 1 && CheckedSlot(Sweep(Inspect(r, now), now, k)) == i;
      assert CheckedSlot(Sweep(r, now, k + 1)) == i;
    }
  }

  /** A sweep takes exactly the expired among the inspected slots off the tree, never
      the listener, and leaves every other slot as it was. */
  lemma {:induction false} SweepExact(r: Reactor, now: int, n: nat, i: nat)
    requires Inv(r) && CanSweep(r) && i <= MAX_EVENTS
    ensures Sweep(r, now, n).slots[i] ==
              if Inspected(r, now, n, i) && r.slots[i].status == 1 && now - r.slots[i].lastActive >= 60
              then r.slots[i].(status := 0) else r.slots[i]
    ensures Inspected(r, now, n, i) ==> i < MAX_EVENTS
    decreases n
  {
    if n > 0 {
      InspectInv(r, now);
      InspectedNext(r, now, n, i);
      SweepExact(Inspect(r, now), now, n - 1, i);
    }
  }

  /** fd sits in a slot that the sweep inspects and finds expired. */
  ghost predicate TimedOut(r: Reactor, now: int, n: nat, fd: int)
    requires CanSweep(r)
  {
    exists i :: 0 <= i < MAX_EVENTS && Inspected(r, now, n, i) && r.slots[i].fd == fd
                && r.slots[i].status != 0 && now - r.slots[i].lastActive >= 60
  }

  lemma TimedOutNext(r: Reactor, now: int, n: nat, fd: int)
    requires Inv(r) && CanSweep(r) && n > 0
    ensures var ev := r.slots[CheckedSlot(r)];
            TimedOut(r, now, n, fd) <==> (Expired(ev, now) && ev.fd == fd) || TimedOut(Inspect(r, now), now, n - 1, fd)
  {
    InspectInv(r, now);
    var t := Inspect(r, now);
    if i :| 0 <= i < MAX_EVENTS && Inspected(r, now, n, i) && Expired(r.slots[i], now) && r.slots[i].fd == fd {
      InspectedNext(r, now, n, i);
      assert i != CheckedSlot(r) ==> t.slots[i] == r.slots[i];
    }
    if i :| 0 <= i < MAX_EVENTS && Inspected(t, now, n - 1, i) && Expired(t.slots[i], now) && t.slots[i].fd == fd {
      InspectedNext(r, now, n, i);
      assert t.slots[i] == r.slots[i];
    }
    InspectedNext(r, now, n, CheckedSlot(r));
  }

  /** A sweep closes exactly the descriptors of the slots it times out: no other
      descriptor is closed or loses its place in the interest set. */
  lemma {:induction false} SweepCloses(r: Reactor, now: int, n: nat, fd: int)
    requires Inv(r) && CanSweep(r)
    ensures var t := Sweep(r, now, n);
            && (fd in t.open <==> fd in r.open && !TimedOut(r, now, n, fd))
            && (fd in t.interest <==> fd in r.interest && !TimedOut(r, now, n, fd))
            && (fd in t.interest ==> t.interest[fd] == r.interest[fd])
    decreases n
  {
    if n > 0 {
      InspectInv(r, now);
      TimedOutNext(r, now, n, fd);
      SweepCloses(Inspect(r, now), now, n - 1, fd);
    }
  }

  // ---- Whole runs ----------------------------------------------------------------------------

  ghost predicate Reachable(r: Reactor) {
    exists lfd: int, now: int, turns: seq<Turn> :: Exec(Step, Start(lfd, now), turns) == Some(r)
  }

  lemma StepInv(r: Reactor, t: Turn)
    requires Inv(r) && Step(r, t).Some?
    ensures Inv(Step(r, t).value)
    ensures Step(r, t).value.checkpos == Sweep(r, t.now, SWEEP).checkpos
  {
    SweepInv(r, t.now, SWEEP);
    DispatchAllInv(Sweep(r, t.now, SWEEP), t.batch, t.answers);
  }

  lemma Safety(r: Reactor)
    requires Reachable(r)
    ensures Inv(r)
  {
    var lfd: int, now: int, turns: seq<Turn> :| Exec(Step, Start(lfd, now), turns) == Some(r);
    StartInv(lfd, now);
    forall s, t | Inv(s) && Step(s, t).Some? ensures Inv(Step(s, t).value) {
      StepInv(s, t);
    }
    InvariantHolds(Step, Inv, Start(lfd, now), turns);
  }

  /** Slots on the tree and interest set are each other's mirror, no descriptor is
      registered twice, and the listener never leaves. */
  lemma TableMirrorsInterest(r: Reactor)
    requires Reachable(r)
    ensures |r.slots| == MAX_EVENTS + 1
    ensures forall fd, w :: fd in r.interest && r.interest[fd] == w <==>
              w.slot <= MAX_EVENTS && r.slots[w.slot].status == 1
              && r.slots[w.slot].fd == fd && r.slots[w.slot].events == w.mask
    ensures forall i, j ::
              (0 <= i <= MAX_EVENTS && 0 <= j <= MAX_EVENTS && r.slots[i].status == 1 && r.slots[j].status == 1
               && r.slots[i].fd == r.slots[j].fd) ==> i == j
    ensures r.slots[MAX_EVENTS].status == 1 && r.slots[MAX_EVENTS].events == {IN}
  {
    Safety(r);
    assert SlotShape(MAX_EVENTS, r.slots[MAX_EVENTS]);
  }

  /** The reactor never echoes: no byte is sent in any run, and the write callback of
      every connection takes it off the tree and closes it. */
  lemma NothingIsEverSent(r: Reactor)
    requires Reachable(r)
    ensures r.sent == 0
    ensures forall i, a ::
              (0 <= i < |r.slots| && r.slots[i].status == 1 && r.slots[i].callBack == SendData
               && InTable(r, i) && WriteDefined(r, i, a)) ==>
                var t := OnSend(r, i, a);
                t.sent == 0 && t.slots[i].status == 0 && r.slots[i].fd !in t.open && r.slots[i].fd !in t.interest
  {
    Safety(r);
    forall i, a | 0 <= i < |r.slots| && r.slots[i].status == 1 && r.slots[i].callBack == SendData
                  && InTable(r, i) && WriteDefined(r, i, a)
      ensures var t := OnSend(r, i, a);
              t.sent == 0 && t.slots[i].status == 0 && r.slots[i].fd !in t.open && r.slots[i].fd !in t.interest
    {
      assert SlotShape(i, r.slots[i]);
      SendInv(r, i, a);
    }
  }

  /** The registration of an accepted connection is defined exactly when some client
      slot is off the tree. */
  lemma AcceptNeedsRoom(r: Reactor)
    requires Reachable(r)
    ensures |r.slots| == MAX_EVENTS + 1
    ensures r.slots[FirstFree(r.slots, 0)].status == 0 <==> HasRoom(r)
  {
    Safety(r);
    assert SlotShape(MAX_EVENTS, r.slots[MAX_EVENTS]);
  }

  // ---- Reach of the sweep ------------------------------------------------------------------------

  /** A connection accepted less than a minute ago survives any sweep. */
  lemma AcceptedIsNotSwept(r: Reactor, a: Answer, now: int, n: nat)
    requires Reachable(r) && AcceptDefined(r, a) && a.accepted.Connected? && a.accepted.nonblocking
    requires now - a.now < 60
    ensures InTable(r, 0) && CanSweep(OnAccept(r, a))
    ensures var t := Sweep(OnAccept(r, a), now, n);
            var ev := t.slots[FirstFree(r.slots, 0)];
            ev.status == 1 && ev.fd == a.accepted.fd && t.interest.Keys >= {a.accepted.fd}
  {
    Safety(r);
    AcceptInv(r, a);
    SweepExact(OnAccept(r, a), now, n, FirstFree(r.slots, 0));
    SweepInv(OnAccept(r, a), now, n);
  }

  /** So does one that was read from less than a minute ago. */
  lemma ReadIsNotSwept(r: Reactor, i: nat, a: Answer, now: int, n: nat)
    requires Reachable(r) && i < MAX_EVENTS && InTable(r, i) && r.slots[i].status == 1 && a.read.Got?
    requires now - a.now < 60
    ensures CanSweep(OnRecv(r, i, a))
    ensures var t := Sweep(OnRecv(r, i, a), now, n);
            t.slots[i].status == 1 && t.slots[i].fd == r.slots[i].fd && r.slots[i].fd in t.interest
            && t.interest[r.slots[i].fd] == Watch(i, {OUT})
  {
    Safety(r);
    RecvInv(r, i, a);
    SweepExact(OnRecv(r, i, a), now, n, i);
    SweepInv(OnRecv(r, i, a), now, n);
  }

  const ROUNDS: nat := 11

  /** Consecutive turns of the server loop. */
  ghost predicate IsRun(states: seq<Reactor>, turns: seq<Turn>) {
    && |states| == |turns| + 1
    && forall j :: 0 <= j < |turns| ==> Step(states[j], turns[j]) == Some(states[j + 1])
  }

  lemma TurnMovesCursor(r: Reactor, t: Turn)
    requires Inv(r) && Step(r, t).Some?
    ensures CheckedSlot(Step(r, t).value) == (CheckedSlot(r) + 100) % 1024
  {
    StepInv(r, t);
    CursorAt(r, t.now, SWEEP);
  }

  lemma ModAgain(c: nat, j: nat)
    ensures ((c + SWEEP * j) % MAX_EVENTS + SWEEP) % MAX_EVENTS == (c + SWEEP * (j + 1)) % MAX_EVENTS
  {
  }

  /** Each turn moves the cursor on by a hundred slots, whatever is dispatched. */
  lemma {:induction false} CursorAfterTurns(states: seq<Reactor>, turns: seq<Turn>, j: nat)
    requires IsRun(states, turns) && j <= |turns| && Inv(states[0])
    ensures Inv(states[j])
    ensures CheckedSlot(states[j]) == (CheckedSlot(states[0]) + SWEEP * j) % MAX_EVENTS
    decreases j
  {
    if j > 0 {
      var r, t := states[j - 1], turns[j - 1];
      CursorAfterTurns(states, turns, j - 1);
      assert Step(r, t) == Some(states[j]);
      StepInv(r, t);
      TurnMovesCursor(r, t);
      ModAgain(CheckedSlot(states[0]), j - 1);
    }
  }

  /** The inspection d slots on from c belongs to round d / 100 and is number d % 100
      in it. */
  lemma Locate(c: nat, i: nat) returns (j: nat, k: nat)
    requires c < MAX_EVENTS && i < MAX_EVENTS
    ensures j < ROUNDS && k < SWEEP
    ensures ((c + SWEEP * j) % MAX_EVENTS + k) % MAX_EVENTS == i
  {
    var d := if i >= c then i - c else i + MAX_EVENTS - c;
    j, k := d / SWEEP, d % SWEEP;
    var x := c + SWEEP * j;
    assert x + k == c + d;
    assert x % MAX_EVENTS == if x < MAX_EVENTS then x else x - MAX_EVENTS;
  }

  /** Any 11 consecutive sweeps of 100 inspect every client slot: some iteration k of
      some round j looks at it. */
  lemma EverySlotInspected(states: seq<Reactor>, turns: seq<Turn>, i: nat) returns (j: nat, k: nat)
    requires IsRun(states, turns) && |turns| >= ROUNDS && Reachable(states[0]) && i < MAX_EVENTS
    ensures j < ROUNDS && k < SWEEP && Inv(states[j]) && CanSweep(states[j])
    ensures CheckedSlot(Sweep(states[j], turns[j].now, k)) == i
  {
    Safety(states[0]);
    j, k := Locate(CheckedSlot(states[0]), i);
    CursorAfterTurns(states, turns, j);
    CursorAt(states[j], turns[j].now, k);
  }

  /** A connection that has been idle for a minute does not outlive 11 rounds: in one
      of them it is found off the tree or renewed, or the sweep takes it off the tree
      and closes its descriptor. */
  lemma IdleConnectionClosed(states: seq<Reactor>, turns: seq<Turn>, i: nat, since: int) returns (j: nat)
    requires IsRun(states, turns) && |turns| >= ROUNDS && Reachable(states[0]) && i < MAX_EVENTS
    requires forall h :: 0 <= h < ROUNDS ==> turns[h].now - since >= 60
    ensures j < ROUNDS && CanSweep(states[j])
    ensures var ev, t := states[j].slots[i], Sweep(states[j], turns[j].now, SWEEP);
            (ev.status == 1 && ev.lastActive == since) ==>
              t.slots[i] == ev.(status := 0) && ev.fd in states[j].open && ev.fd !in t.open && ev.fd !in t.interest
  {
    var k;
    j, k := EverySlotInspected(states, turns, i);
    assert Inspected(states[j], turns[j].now, SWEEP, i);
    SweepExact(states[j], turns[j].now, SWEEP, i);
    SweepCloses(states[j], turns[j].now, SWEEP, states[j].slots[i].fd);
  }
}
