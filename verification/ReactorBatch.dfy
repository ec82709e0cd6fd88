/**
 Serving a batch: what each reported event does when its turn comes, and how the slots
 and descriptors of the whole batch end up.
 */
module ReactorBatch {
  import opened Basics
  import opened ReactorTable
  import opened ReactorTheorems

  // ---- One event ----------------------------------------------------------------------

  /** The event's slot is registered and reports what it was asked to watch, or errors. */
  ghost predicate Ready(r: Reactor, ev: Event) {
    && Inv(r) && ev.slot <= MAX_EVENTS && r.slots[ev.slot].status == 1
    && ev.mask <= r.slots[ev.slot].events + {ERR, HUP}
  }

  /** The read callback got bytes: the connection is turned round to writing, with the
      buffer wiped and the clock set. */
  lemma ReadServed(r: Reactor, ev: Event, a: Answer, b: Answer, t: Reactor)
    requires Ready(r, ev) && Dispatch(r, ev, a, b) == Some(t) && ev.slot < 1024 && IN in ev.mask && a.read.Got?
    ensures var fd := r.slots[ev.slot].fd;
            t == r.(slots := r.slots[ev.slot := MyEvent(fd, {OUT}, SendData, 1, [], 0, a.now)],
                    interest := r.interest[fd := Watch(ev.slot, {OUT})])
  {
    DispatchOnce(r, ev, a, b);
    assert SlotShape(ev.slot, r.slots[ev.slot]);
  }

  /** End of input, a read error, or room to write: the slot leaves the tree and its
      descriptor is closed. */
  lemma CloseServed(r: Reactor, ev: Event, a: Answer, b: Answer, t: Reactor)
    requires Ready(r, ev) && Dispatch(r, ev, a, b) == Some(t) && ev.slot < 1024
    requires if IN in ev.mask then !a.read.Got? else OUT in ev.mask
    ensures var e := r.slots[ev.slot];
            t == r.(slots := r.slots[ev.slot := e.(status := 0)],
                    interest := r.interest - {e.fd}, open := r.open - {e.fd})
  {
    DispatchOnce(r, ev, a, b);
    assert SlotShape(ev.slot, r.slots[ev.slot]);
    assert r.interest - {r.slots[ev.slot].fd} - {r.slots[ev.slot].fd} == r.interest - {r.slots[ev.slot].fd};
    if IN !in ev.mask {
      SendInv(r, ev.slot, b);
    }
  }

  /** A connection on the listener: the first client slot off the tree is registered for
      reading, unless fcntl fails and the descriptor is merely open. */
  lemma AcceptServed(r: Reactor, ev: Event, a: Answer, b: Answer, t: Reactor) returns (j: nat)
    requires Ready(r, ev) && Dispatch(r, ev, a, b) == Some(t) && ev.slot == 1024 && IN in ev.mask
    requires a.accepted.Connected?
    ensures j < 1024 && r.slots[j].status == 0 && forall k :: 0 <= k < j ==> r.slots[k].status == 1
    ensures var fd := a.accepted.fd;
            && fd !in r.open
            && t == if a.accepted.nonblocking
                    then r.(slots := r.slots[j := MyEvent(fd, {IN}, RecvData, 1, [], 0, a.now)],
                            interest := r.interest[fd := Watch(j, {IN})], open := r.open + {fd})
                    else r.(open := r.open + {fd})
  {
    DispatchOnce(r, ev, a, b);
    assert SlotShape(ev.slot, r.slots[ev.slot]);
    j := FirstFree(r.slots, 0);
  }

  /** Nothing was asked for that is reported, or the accept was refused. */
  lemma NothingServed(r: Reactor, ev: Event, a: Answer, b: Answer)
    requires Ready(r, ev)
    requires if ev.slot == 1024 then IN !in ev.mask || a.accepted == Refused else IN !in ev.mask && OUT !in ev.mask
    ensures Dispatch(r, ev, a, b) == Some(r)
  {
    DispatchOnce(r, ev, a, b);
    assert SlotShape(ev.slot, r.slots[ev.slot]);
  }

  /** The answers the event's one call may get: a new descriptor and room for it, a read
      that fits the buffer, and a write of no bytes, since none are asked for. */
  predicate Fits(r: Reactor, ev: Event, a: Answer, b: Answer) {
    if ev.slot == 1024 then
      IN in ev.mask && a.accepted.Connected? ==>
        a.accepted.fd !in r.open && exists i :: 0 <= i < 1024 && i < |r.slots| && r.slots[i].status == 0
    else if IN in ev.mask then a.read.Got? ==> 1 <= |a.read.data| <= 4095
    else OUT in ev.mask ==> b.written <= 0
  }

  lemma EventRunsExactlyWhen(r: Reactor, ev: Event, a: Answer, b: Answer)
    requires Ready(r, ev)
    ensures Dispatch(r, ev, a, b).Some? <==> Fits(r, ev, a, b)
  {
    DispatchOnce(r, ev, a, b);
    assert SlotShape(ev.slot, r.slots[ev.slot]);
  }

  // ---- The batch in order --------------------------------------------------------------

  /** states[j] is what event j finds: its slot as reported, whatever came before. */
  ghost predicate InOrder(batch: seq<Event>, answers: seq<(Answer, Answer)>, states: seq<Reactor>)
    requires |answers| == |batch|
  {
    && 1 <= |states| <= |batch| + 1 && |states[0].slots| == 1025
    && (forall j :: 0 <= j < |states| && j < |batch| ==>
         Ready(states[j], batch[j]) && states[j].slots[batch[j].slot] == states[0].slots[batch[j].slot])
    && forall j :: 0 <= j < |states| - 1 ==>
         Dispatch(states[j], batch[j], answers[j].0, answers[j].1) == Some(states[j + 1])
  }

  lemma InOrderNext(batch: seq<Event>, answers: seq<(Answer, Answer)>, r: Reactor, rest: seq<Reactor>)
    requires Pendings(r, batch) && batch != [] && |answers| == |batch|
    requires InOrder(batch[1..], answers[1..], rest)
    requires Dispatch(r, batch[0], answers[0].0, answers[0].1) == Some(rest[0])
    ensures InOrder(batch, answers, [r] + rest)
  {
    DispatchStep(r, batch, answers[0].0, answers[0].1);
    var states := [r] + rest;
    forall j | 0 <= j < |states| && j < |batch|
      ensures Ready(states[j], batch[j]) && states[j].slots[batch[j].slot] == states[0].slots[batch[j].slot]
    {
      if j > 0 {
        assert batch[j] == batch[1..][j - 1] && states[j] == rest[j - 1];
      }
    }
    forall j | 0 <= j < |states| - 1
      ensures Dispatch(states[j], batch[j], answers[j].0, answers[j].1) == Some(states[j + 1])
    {
      if j > 0 {
        assert batch[j] == batch[1..][j - 1] && answers[j] == answers[1..][j - 1];
      }
    }
  }

  /** Every event of a batch is dispatched, in order and once, each finding its slot as
      it was reported; the batch breaks off only before an answer that does not fit. */
  lemma {:induction false} EveryEventDispatched(r: Reactor, batch: seq<Event>, answers: seq<(Answer, Answer)>)
      returns (states: seq<Reactor>)
    requires Pendings(r, batch) && |answers| == |batch|
    ensures InOrder(batch, answers, states) && states[0] == r
    ensures var n := |states| - 1;
            if n == |batch| then DispatchAll(r, batch, answers) == Some(states[n])
            else DispatchAll(r, batch, answers) == None && !Fits(states[n], batch[n], answers[n].0, answers[n].1)
    decreases |batch|
  {
    states := [r];
    if batch != [] {
      EventRunsExactlyWhen(r, batch[0], answers[0].0, answers[0].1);
      var next := Dispatch(r, batch[0], answers[0].0, answers[0].1);
      if next.Some? {
        DispatchStep(r, batch, answers[0].0, answers[0].1);
        var rest := EveryEventDispatched(next.value, batch[1..], answers[1..]);
        InOrderNext(batch, answers, r, rest);
        states := [r] + rest;
      }
    }
  }

  // ---- The end of the batch ----------------------------------------------------------------

  /** No event of the batch is for slot i. */
  ghost predicate Unreported(batch: seq<Event>, i: nat) { forall j :: 0 <= j < |batch| ==> batch[j].slot != i }

  /** A registered slot with no event of its own is left alone. */
  lemma {:induction false} KeptAfter(r: Reactor, batch: seq<Event>, answers: seq<(Answer, Answer)>, t: Reactor, i: nat)
    requires Pendings(r, batch) && |answers| == |batch| && DispatchAll(r, batch, answers) == Some(t)
    requires i <= 1024 && r.slots[i].status == 1 && Unreported(batch, i)
    ensures Inv(t) && t.slots[i] == r.slots[i]
    decreases |batch|
  {
    if batch != [] {
      var ev, a := batch[0], answers[0];
      var u := Dispatch(r, ev, a.0, a.1).value;
      DispatchStep(r, batch, a.0, a.1);
      DispatchOnce(r, ev, a.0, a.1);
      if IN in ev.mask {
        CallInv(r, ev.slot, a.0);
      } else if OUT in ev.mask {
        CallInv(r, ev.slot, a.1);
      }
      KeptAfter(u, batch[1..], answers[1..], t, i);
    }
  }

  /** The listener's event puts a new connection into the slot. */
  predicate PutIn(ev: Event, a: Answer, e: MyEvent) {
    && ev.slot == 1024 && IN in ev.mask && a.accepted == Connected(e.fd, true)
    && e == MyEvent(e.fd, {IN}, RecvData, 1, [], 0, a.now)
  }

  ghost predicate SomePutIn(batch: seq<Event>, answers: seq<(Answer, Answer)>, e: MyEvent) {
    exists j :: 0 <= j < |batch| && j < |answers| && PutIn(batch[j], answers[j].0, e)
  }

  /** The listener's event opens fd. */
  predicate Opens(ev: Event, a: Answer, fd: int) {
    ev.slot == 1024 && IN in ev.mask && a.accepted.Connected? && a.accepted.fd == fd
  }

  ghost predicate SomeOpens(batch: seq<Event>, answers: seq<(Answer, Answer)>, fd: int) {
    exists j :: 0 <= j < |batch| && j < |answers| && Opens(batch[j], answers[j].0, fd)
  }

  lemma RestOfBatch(batch: seq<Event>, answers: seq<(Answer, Answer)>, e: MyEvent, fd: int)
    requires batch != [] && |answers| == |batch|
    ensures SomePutIn(batch[1..], answers[1..], e) ==> SomePutIn(batch, answers, e)
    ensures SomeOpens(batch[1..], answers[1..], fd) ==> SomeOpens(batch, answers, fd)
  {
    if j :| 0 <= j < |batch[1..]| && PutIn(batch[1..][j], answers[1..][j].0, e) {
      assert PutIn(batch[j + 1], answers[j + 1].0, e);
    }
    if j :| 0 <= j < |batch[1..]| && Opens(batch[1..][j], answers[1..][j].0, fd) {
      assert Opens(batch[j + 1], answers[j + 1].0, fd);
    }
  }

  /** One event and a slot off the tree: untouched, or filled by the listener. */
  lemma OffStep(r: Reactor, ev: Event, a: Answer, b: Answer, t: Reactor, i: nat)
    requires Ready(r, ev) && Dispatch(r, ev, a, b) == Some(t) && i < 1024 && r.slots[i].status == 0
    ensures t.slots[i] == r.slots[i] || PutIn(ev, a, t.slots[i])
  {
    EventCases(r, ev, a, b, t);
  }

  /** One event and a descriptor that is closed: it stays so, or the listener opens it. */
  lemma ClosedStep(r: Reactor, ev: Event, a: Answer, b: Answer, t: Reactor, fd: int)
    requires Ready(r, ev) && Dispatch(r, ev, a, b) == Some(t) && fd !in r.open
    ensures fd !in t.open || Opens(ev, a, fd)
  {
    EventCases(r, ev, a, b, t);
  }

  /** The four outcomes of an event. */
  lemma EventCases(r: Reactor, ev: Event, a: Answer, b: Answer, t: Reactor)
    requires Ready(r, ev) && Dispatch(r, ev, a, b) == Some(t)
    ensures forall i :: 0 <= i < 1024 && r.slots[i].status == 0 ==>
              i < |t.slots| && (t.slots[i] == r.slots[i] || PutIn(ev, a, t.slots[i]))
    ensures forall fd :: fd in t.open ==> fd in r.open || Opens(ev, a, fd)
  {
    if ev.slot == 1024 && IN in ev.mask && a.accepted.Connected? {
      var j := AcceptServed(r, ev, a, b, t);
    } else if ev.slot == 1024 || (IN !in ev.mask && OUT !in ev.mask) {
      NothingServed(r, ev, a, b);
    } else if IN in ev.mask && a.read.Got? {
      ReadServed(r, ev, a, b, t);
    } else {
      CloseServed(r, ev, a, b, t);
    }
  }

  /** A slot that is off the tree stays as it is unless the listener fills it. */
  lemma {:induction false} OffAfter(r: Reactor, batch: seq<Event>, answers: seq<(Answer, Answer)>, t: Reactor, i: nat)
    requires Pendings(r, batch) && |answers| == |batch| && DispatchAll(r, batch, answers) == Some(t)
    requires i < 1024 && r.slots[i].status == 0
    ensures i < |t.slots| && (t.slots[i] == r.slots[i] || SomePutIn(batch, answers, t.slots[i]))
    decreases |batch|
  {
    if batch != [] {
      var a := answers[0];
      var u := Dispatch(r, batch[0], a.0, a.1).value;
      DispatchStep(r, batch, a.0, a.1);
      OffStep(r, batch[0], a.0, a.1, u, i);
      if u.slots[i].status == 0 {
        OffAfter(u, batch[1..], answers[1..], t, i);
        RestOfBatch(batch, answers, t.slots[i], 0);
      } else {
        KeptAfter(u, batch[1..], answers[1..], t, i);
        assert PutIn(batch[0], answers[0].0, t.slots[i]);
      }
    }
  }

  /** A descriptor that is closed stays closed unless the listener gets its number. */
  lemma {:induction false} ClosedAfter(
      r: Reactor, batch: seq<Event>, answers: seq<(Answer, Answer)>, t: Reactor, fd: int)
    requires Pendings(r, batch) && |answers| == |batch| && DispatchAll(r, batch, answers) == Some(t)
    requires fd !in r.open
    ensures fd !in t.open || SomeOpens(batch, answers, fd)
    decreases |batch|
  {
    if batch != [] {
      var a := answers[0];
      var u := Dispatch(r, batch[0], a.0, a.1).value;
      DispatchStep(r, batch, a.0, a.1);
      ClosedStep(r, batch[0], a.0, a.1, u, fd);
      if fd in u.open {
        assert Opens(batch[0], answers[0].0, fd);
      } else {
        ClosedAfter(u, batch[1..], answers[1..], t, fd);
        RestOfBatch(batch, answers, Blank(), fd);
      }
    }
  }

  /** How one reported event ends up in the slots `t` of its batch: bytes read turn its
      connection to writing; a connection at its end, or ready to write, is off the tree
      and closed, unless the listener of the same batch reused the slot or the number; an
      accepted connection sits in a client slot. */
  ghost predicate Served(r: Reactor, batch: seq<Event>, answers: seq<(Answer, Answer)>, t: Reactor, j: nat)
    requires |answers| == |batch| && j < |batch| && |r.slots| == 1025 && |t.slots| == 1025 && batch[j].slot <= 1024
  {
    var ev, a, e, now := batch[j], answers[j].0, r.slots[batch[j].slot], t.slots[batch[j].slot];
    if ev.slot == 1024 then
      IN in ev.mask && a.accepted.Connected? && a.accepted.nonblocking ==>
        exists i :: 0 <= i < 1024 && t.slots[i] == MyEvent(a.accepted.fd, {IN}, RecvData, 1, [], 0, a.now)
    else if IN in ev.mask && a.read.Got? then now == MyEvent(e.fd, {OUT}, SendData, 1, [], 0, a.now)
    else if IN in ev.mask || OUT in ev.mask then
      && (now == e.(status := 0) || SomePutIn(batch, answers, now))
      && (e.fd !in t.open || SomeOpens(batch, answers, e.fd))
    else now == e
  }

  /** The first event of a batch, and the rest after it. */
  lemma FirstServed(r: Reactor, batch: seq<Event>, answers: seq<(Answer, Answer)>, u: Reactor, t: Reactor)
    requires Pendings(r, batch) && batch != [] && |answers| == |batch|
    requires Dispatch(r, batch[0], answers[0].0, answers[0].1) == Some(u)
    requires DispatchAll(u, batch[1..], answers[1..]) == Some(t)
    ensures |t.slots| == 1025 && Served(r, batch, answers, t, 0)
  {
    var ev, a, b := batch[0], answers[0].0, answers[0].1;
    DispatchStep(r, batch, a, b);
    DispatchAllInv(u, batch[1..], answers[1..]);
    if ev.slot == 1024 {
      if IN in ev.mask && a.accepted.Connected? && a.accepted.nonblocking {
        var i := AcceptServed(r, ev, a, b, u);
        KeptAfter(u, batch[1..], answers[1..], t, i);
      }
    } else if IN in ev.mask && a.read.Got? {
      ReadServed(r, ev, a, b, u);
      KeptAfter(u, batch[1..], answers[1..], t, ev.slot);
    } else if IN in ev.mask || OUT in ev.mask {
      CloseServed(r, ev, a, b, u);
      OffAfter(u, batch[1..], answers[1..], t, ev.slot);
      ClosedAfter(u, batch[1..], answers[1..], t, r.slots[ev.slot].fd);
      RestOfBatch(batch, answers, t.slots[ev.slot], r.slots[ev.slot].fd);
    } else {
      NothingServed(r, ev, a, b);
      KeptAfter(u, batch[1..], answers[1..], t, ev.slot);
    }
  }

  /** Every reported event is served, whatever else the batch holds. */
  lemma {:induction false} EveryEventServed(
      r: Reactor, batch: seq<Event>, answers: seq<(Answer, Answer)>, t: Reactor, j: nat)
    requires Pendings(r, batch) && |answers| == |batch| && DispatchAll(r, batch, answers) == Some(t)
    requires j < |batch|
    ensures |t.slots| == 1025 && Served(r, batch, answers, t, j)
    decreases j
  {
    var u := Dispatch(r, batch[0], answers[0].0, answers[0].1).value;
    if j == 0 {
      FirstServed(r, batch, answers, u, t);
    } else {
      DispatchStep(r, batch, answers[0].0, answers[0].1);
      EveryEventServed(u, batch[1..], answers[1..], t, j - 1);
      assert u.slots[batch[j].slot] == r.slots[batch[j].slot];
      RestOfBatch(batch, answers, t.slots[batch[j].slot], r.slots[batch[j].slot].fd);
    }
  }

  /** What the batch is not about stays: registered slots without an event, slots off the
      tree and closed descriptors that the listener does not hand out. */
  ghost predicate RestKept(r: Reactor, batch: seq<Event>, answers: seq<(Answer, Answer)>, t: Reactor)
    requires |r.slots| == 1025 && |t.slots| == 1025
  {
    && (forall i :: 0 <= i <= 1024 && r.slots[i].status == 1 && Unreported(batch, i) ==> t.slots[i] == r.slots[i])
    && (forall i :: 0 <= i < 1024 && r.slots[i].status == 0 ==>
         t.slots[i] == r.slots[i] || SomePutIn(batch, answers, t.slots[i]))
    && forall fd :: fd !in r.open && fd in t.open ==> SomeOpens(batch, answers, fd)
  }

  /** A turn of a reachable server sweeps a hundred slots, serves every event that is then
      reported and leaves the rest alone. */
  lemma TurnServesEveryEvent(r: Reactor, turn: Turn, t: Reactor)
    requires Reachable(r) && Step(r, turn) == Some(t)
    ensures CanSweep(r) && |turn.answers| == |turn.batch| && |t.slots| == 1025
    ensures var p := Sweep(r, turn.now, 100);
            && Pendings(p, turn.batch) && RestKept(p, turn.batch, turn.answers, t)
            && forall j :: 0 <= j < |turn.batch| ==> Served(p, turn.batch, turn.answers, t, j)
  {
    Safety(r);
    var p := Sweep(r, turn.now, 100);
    SweepInv(r, turn.now, 100);
    StepInv(r, turn);
    forall j | 0 <= j < |turn.batch| ensures Served(p, turn.batch, turn.answers, t, j) {
      EveryEventServed(p, turn.batch, turn.answers, t, j);
    }
    forall i | 0 <= i <= 1024 && p.slots[i].status == 1 && Unreported(turn.batch, i) ensures t.slots[i] == p.slots[i] {
      KeptAfter(p, turn.batch, turn.answers, t, i);
    }
    forall i | 0 <= i < 1024 && p.slots[i].status == 0
      ensures t.slots[i] == p.slots[i] || SomePutIn(turn.batch, turn.answers, t.slots[i])
    {
      OffAfter(p, turn.batch, turn.answers, t, i);
    }
    forall fd | fd !in p.open && fd in t.open ensures SomeOpens(turn.batch, turn.answers, fd) {
      ClosedAfter(p, turn.batch, turn.answers, t, fd);
    }
  }
}
