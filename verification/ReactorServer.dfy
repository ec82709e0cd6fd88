/**
 The reactor's global table as an array, updated in place by its functions; each one
 refines the function of the same name in ReactorTable.  `interest`, `open` and
 `sent` are the kernel's side.
 */
module ReactorServer {
  import opened Basics
  import opened ReactorTable
  import opened ReactorTheorems

  class EventLoop {
    const gevents: array<MyEvent>
    var checkpos: nat

    ghost var interest: map<int, Watch>
    ghost var open: set<int>
    ghost var sent: nat

    ghost function View(): Reactor
      reads this, gevents
    {
      Reactor(gevents[..], interest, open, checkpos, sent)
    }

    ghost predicate Valid()
      reads this, gevents
    {
      gevents.Length == MAX_EVENTS + 1 && Inv(View())
    }

    /** main's start-up with initListenSocket. */
    constructor (lfd: int, now: int)
      ensures Valid() && fresh(gevents)
      ensures View() == ReactorTable.Start(lfd, now)
    {
      gevents := new MyEvent[MAX_EVENTS + 1](_ => Blank());
      checkpos := 0;
      interest, open, sent := map[], {lfd}, 0;
      new;
      assert gevents[..] == seq(MAX_EVENTS + 1, _ => Blank());
      Set(MAX_EVENTS, lfd, AcceptConn, now);
      Add(MAX_EVENTS, {IN});
      StartInv(lfd, now);
    }

    /** eventset */
    method Set(i: nat, fd: int, callBack: Callback, now: int)
      requires gevents.Length == MAX_EVENTS + 1 && i <= MAX_EVENTS
      modifies gevents
      ensures View() == EventSet(old(View()), i, fd, callBack, now)
      ensures gevents[i] == MyEvent(fd, {}, callBack, old(gevents[i].status), [], 0, now)
    {
      gevents[i] := Reset(gevents[i], fd, callBack, now);
    }

    /** eventadd, where its operation is defined */
    method Add(i: nat, events: Mask)
      requires gevents.Length == MAX_EVENTS + 1 && i <= MAX_EVENTS && gevents[i].status == 0
      modifies gevents, this`interest
      ensures View() == EventAdd(old(View()), i, events)
      ensures gevents[i] == old(gevents[i]).(events := events, status := 1)
      ensures interest == old(interest)[gevents[i].fd := Watch(i, events)]
    {
      interest := interest[gevents[i].fd := Watch(i, events)];
      gevents[i] := gevents[i].(events := events, status := 1);
    }

    /** eventdel */
    method Del(i: nat)
      requires gevents.Length == MAX_EVENTS + 1 && i <= MAX_EVENTS
      modifies gevents, this`interest
      ensures View() == EventDel(old(View()), i)
      ensures old(gevents[i].status) != 1 ==> View() == old(View())
      ensures old(gevents[i].status) == 1 ==>
                gevents[i] == old(gevents[i]).(status := 0) && interest == old(interest) - {gevents[i].fd}
    {
      if gevents[i].status != 1 {
        return;
      }
      interest := interest - {gevents[i].fd};
      gevents[i] := gevents[i].(status := 0);
    }

    ghost method CloseFd(fd: int)
      modifies this`open, this`interest
      ensures View() == ReactorTable.Close(old(View()), fd)
    {
      open, interest := open - {fd}, interest - {fd};
    }

    /** The search loop of acceptconn. */
    method FindFree() returns (i: nat)
      requires gevents.Length == MAX_EVENTS + 1
      ensures i == FirstFree(gevents[..], 0)
    {
      i := 0;
      while i < MAX_EVENTS
        invariant i <= MAX_EVENTS && FirstFree(gevents[..], i) == FirstFree(gevents[..], 0)
      {
        if gevents[i].status == 0 {
          return;
        }
        i := i + 1;
      }
    }

    /** acceptconn */
    method Accept(a: Answer)
      requires Valid() && AcceptDefined(View(), a)
      modifies gevents, this`open, this`interest
      ensures Valid() && View() == OnAccept(old(View()), a)
    {
      AcceptInv(View(), a);
      if a.accepted.Connected? {
        open := open + {a.accepted.fd};
        var i := FindFree();
        if a.accepted.nonblocking {
          Set(i, a.accepted.fd, RecvData, a.now);
          Add(i, {IN});
        }
      }
    }

    /** recvdata */
    method Receive(i: nat, a: Answer)
      requires Valid() && i < MAX_EVENTS && gevents[i].status == 1 && ReadDefined(a)
      modifies gevents, this`open, this`interest
      ensures Valid() && View() == OnRecv(old(View()), i, a)
    {
      RecvInv(View(), i, a);
      var fd := gevents[i].fd;
      Del(i);
      if a.read.Got? {
        gevents[i] := gevents[i].(buf := a.read.data, len := |a.read.data|);
        Set(i, fd, SendData, a.now);
        Add(i, {OUT});
      } else {
        CloseFd(fd);
      }
    }

    /** senddata */
    method Transmit(i: nat, a: Answer)
      requires gevents.Length == MAX_EVENTS + 1 && i < MAX_EVENTS && gevents[i].status == 1
      modifies gevents, this`open, this`interest, this`sent
      ensures View() == OnSend(old(View()), i, a)
      ensures a.written > 0 ==>
                && gevents[i].status == 1 && gevents[i].events == {IN} && gevents[i].fd in interest
                && open == old(open) && sent == old(sent) + a.written
      ensures a.written <= 0 ==>
                && gevents[i].status == 0 && gevents[i].fd !in open && gevents[i].fd !in interest
                && sent == old(sent)
    {
      var fd := gevents[i].fd;
      Del(i);
      if a.written > 0 {
        sent := sent + a.written;
        Add(i, {IN});
      } else {
        CloseFd(fd);
      }
    }

    /** ev->call_back(ev->fd, ...) on a registered slot. */
    method Callback(i: nat, a: Answer)
      requires Valid() && i <= MAX_EVENTS && gevents[i].status == 1 && Call(View(), i, a).Some?
      modifies gevents, this`open, this`interest, this`sent
      ensures Valid() && Call(old(View()), i, a) == Some(View())
    {
      assert SlotShape(i, View().slots[i]);
      CallInv(View(), i, a);
      match gevents[i].callBack {
        case AcceptConn => Accept(a);
        case RecvData => Receive(i, a);
        case SendData => Transmit(i, a);
      }
    }

    /** One iteration of the sweep loop. */
    method InspectOne(now: int)
      requires Valid()
      modifies gevents, this`open, this`interest, this`checkpos
      ensures Valid() && View() == Inspect(old(View()), now)
    {
      InspectInv(View(), now);
      if checkpos == MAX_EVENTS {
        checkpos := 0;
      }
      if gevents[checkpos].status != 0 {
        var duration := now - gevents[checkpos].lastActive;
        if duration >= IDLE_LIMIT {
          CloseFd(gevents[checkpos].fd);
          Del(checkpos);
        }
      }
      checkpos := checkpos + 1;
    }

    /** The sweep loop, of n iterations. */
    method SweepIdle(now: int, n: nat)
      requires Valid()
      modifies gevents, this`open, this`interest, this`checkpos
      ensures Valid() && View() == Sweep(old(View()), now, n)
    {
      ghost var r := View();
      for i := 0 to n
        invariant Valid() && Sweep(View(), now, n - i) == Sweep(r, now, n)
      {
        InspectOne(now);
      }
    }

    /** The body of the loop over the reported events. */
    method DispatchEvent(ev: Event, a: Answer, b: Answer)
      requires Valid() && ev.slot <= MAX_EVENTS && gevents[ev.slot].status == 1
      requires ev.mask <= gevents[ev.slot].events + {ERR, HUP} && Dispatch(View(), ev, a, b).Some?
      modifies gevents, this`open, this`interest, this`sent
      ensures Valid() && Dispatch(old(View()), ev, a, b) == Some(View())
    {
      DispatchOnce(View(), ev, a, b);
      assert SlotShape(ev.slot, View().slots[ev.slot]);
      if IN in ev.mask && IN in gevents[ev.slot].events {
        Callback(ev.slot, a);
      }
      if OUT in ev.mask && OUT in gevents[ev.slot].events {
        Callback(ev.slot, b);
      }
    }

    /** The loop over the events epoll_wait reported. */
    method DispatchBatch(batch: seq<Event>, answers: seq<(Answer, Answer)>)
      requires Valid() && Reported(View(), batch) && |answers| == |batch|
      requires DispatchAll(View(), batch, answers).Some?
      modifies gevents, this`open, this`interest, this`sent
      ensures Valid() && DispatchAll(old(View()), batch, answers) == Some(View())
    {
      ghost var r := View();
      var i := 0;
      assert batch[0..] == batch && answers[0..] == answers;
      while i < |batch|
        invariant i <= |batch| && Valid() && Reported(View(), batch[i..])
        invariant DispatchAll(View(), batch[i..], answers[i..]) == DispatchAll(r, batch, answers)
      {
        assert batch[i..][1..] == batch[i + 1..] && answers[i..][1..] == answers[i + 1..];
        assert batch[i..][0] == batch[i] && answers[i..][0] == answers[i];
        DispatchStep(View(), batch[i..], answers[i].0, answers[i].1);
        DispatchEvent(batch[i], answers[i].0, answers[i].1);
        i := i + 1;
      }
    }

    /** One turn of main's loop is one step of the reactor. */
    method Turn(t: ReactorTable.Turn)
      requires Valid() && Step(View(), t).Some?
      modifies gevents, this`open, this`interest, this`sent, this`checkpos
      ensures Valid() && Step(old(View()), t) == Some(View())
    {
      SweepIdle(t.now, SWEEP);
      DispatchBatch(t.batch, t.answers);
    }
  }
}
