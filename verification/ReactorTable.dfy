/**
 The epoll reactor's slot table against the kernel's interest set: registration,
 the three callbacks, the idle sweep and the dispatch of a batch of events, as
 functions on one value.
 */
module ReactorTable {
  import opened Basics

  const MAX_EVENTS: nat := 1024
  const BUFLEN: nat := 4096
  const SWEEP: nat := 100
  const IDLE_LIMIT: int := 60

  datatype Flag = IN | OUT | ERR | HUP
  type Mask = set<Flag>

  newtype byte = x: int | 0 <= x < 256
  type Bytes = seq<byte>

  datatype Callback = NoCallback | AcceptConn | RecvData | SendData

  datatype MyEvent = MyEvent(
    fd: int, events: Mask, callBack: Callback, status: int, buf: Bytes, len: int, lastActive: int)

  /** An entry of the interest set; its user data points to a slot. */
  datatype Watch = Watch(slot: nat, mask: Mask)

  /** `open` are the process's open descriptors and `sent` counts the bytes ever sent. */
  datatype Reactor = Reactor(
    slots: seq<MyEvent>, interest: map<int, Watch>, open: set<int>, checkpos: nat, sent: nat)

  predicate InTable(r: Reactor, i: nat) { |r.slots| == MAX_EVENTS + 1 && i <= MAX_EVENTS }

  // ---- eventset, eventadd, eventdel, close ---------------------------------------

  function Reset(ev: MyEvent, fd: int, callBack: Callback, now: int): MyEvent {
    MyEvent(fd, {}, callBack, ev.status, [], 0, now)
  }

  function EventSet(r: Reactor, i: nat, fd: int, callBack: Callback, now: int): Reactor
    requires InTable(r, i)
  {
    r.(slots := r.slots[i := Reset(r.slots[i], fd, callBack, now)])
  }

  /** Defined only for a slot that is off the tree: otherwise the source passes an
      uninitialised operation to epoll_ctl. */
  function EventAdd(r: Reactor, i: nat, events: Mask): Reactor
    requires InTable(r, i) && r.slots[i].status == 0
  {
    r.(slots := r.slots[i := r.slots[i].(events := events, status := 1)],
       interest := r.interest[r.slots[i].fd := Watch(i, events)])
  }

  function EventDel(r: Reactor, i: nat): Reactor
    requires InTable(r, i)
  {
    if r.slots[i].status != 1 then r
    else r.(slots := r.slots[i := r.slots[i].(status := 0)], interest := r.interest - {r.slots[i].fd})
  }

  /** Closing the only descriptor of a file takes it out of the interest set. */
  function Close(r: Reactor, fd: int): Reactor {
    r.(open := r.open - {fd}, interest := r.interest - {fd})
  }

  function Blank(): MyEvent { MyEvent(0, {}, NoCallback, 0, [], 0, 0) }

  /** The table of zeroes with the listener put into the last slot. */
  function Start(lfd: int, now: int): Reactor {
    var r := Reactor(seq(MAX_EVENTS + 1, _ => Blank()), map[], {lfd}, 0, 0);
    EventAdd(EventSet(r, MAX_EVENTS, lfd, AcceptConn, now), MAX_EVENTS, {IN})
  }

  // ---- Callbacks --------------------------------------------------------------------

  datatype Accepted = Refused | Connected(fd: int, nonblocking: bool)
  datatype Read = Got(data: Bytes) | Eof | ReadError

  /** The answers of the system calls one callback may make. */
  datatype Answer = Answer(accepted: Accepted, read: Read, written: int, now: int)

  /** The first slot below MAX_EVENTS that is off the tree, or MAX_EVENTS. */
  function FirstFree(slots: seq<MyEvent>, i: nat): (r: nat)
    requires |slots| == MAX_EVENTS + 1 && i <= MAX_EVENTS
    ensures i <= r <= MAX_EVENTS && (r < MAX_EVENTS ==> slots[r].status == 0)
    ensures forall j :: i <= j < r ==> slots[j].status != 0
    decreases MAX_EVENTS - i, |slots|
  {
    if i == MAX_EVENTS || slots[i].status == 0 then i else FirstFree(slots, i + 1)
  }

  predicate HasRoom(r: Reactor) {
    exists i :: 0 <= i < MAX_EVENTS && i < |r.slots| && r.slots[i].status == 0
  }

  predicate AcceptDefined(r: Reactor, a: Answer) {
    a.accepted.Connected? ==> a.accepted.fd !in r.open && HasRoom(r)
  }

  function OnAccept(r: Reactor, a: Answer): Reactor
    requires InTable(r, 0) && AcceptDefined(r, a)
  {
    match a.accepted
    case Refused => r
    case Connected(fd, nonblocking) =>
      var admitted := r.(open := r.open + {fd});
      if !nonblocking then admitted
      else
        var i := FirstFree(r.slots, 0);
        EventAdd(EventSet(admitted, i, fd, RecvData, a.now), i, {IN})
  }

  predicate ReadDefined(a: Answer) { a.read.Got? ==> 0 < |a.read.data| < BUFLEN }

  function OnRecv(r: Reactor, i: nat, a: Answer): Reactor
    requires InTable(r, i) && r.slots[i].status == 1
  {
    var fd := r.slots[i].fd;
    var off := EventDel(r, i);
    match a.read
    case Got(data) =>
      var stored := off.(slots := off.slots[i := off.slots[i].(buf := data, len := |data|)]);
      EventAdd(EventSet(stored, i, fd, SendData, a.now), i, {OUT})
    case _ => Close(off, fd)
  }

  /** send never reports more than it was asked to write. */
  predicate WriteDefined(r: Reactor, i: nat, a: Answer)
    requires InTable(r, i)
  {
    a.written <= r.slots[i].len
  }

  function OnSend(r: Reactor, i: nat, a: Answer): Reactor
    requires InTable(r, i) && r.slots[i].status == 1
  {
    var off := EventDel(r, i);
    if a.written > 0 then EventAdd(off.(sent := off.sent + a.written), i, {IN})
    else Close(off, r.slots[i].fd)
  }

  /** ev->call_back(...); None where the call is not defined. */
  function Call(r: Reactor, i: nat, a: Answer): Option<Reactor>
    requires InTable(r, i)
  {
    match r.slots[i].callBack
    case AcceptConn => if AcceptDefined(r, a) then Some(OnAccept(r, a)) else None
    case RecvData => if r.slots[i].status == 1 && ReadDefined(a) then Some(OnRecv(r, i, a)) else None
    case SendData => if r.slots[i].status == 1 && WriteDefined(r, i, a) then Some(OnSend(r, i, a)) else None
    case NoCallback => None
  }

  /** One reported event: the read test, then the write test on the slot as the first
      callback left it. */
  datatype Event = Event(slot: nat, mask: Mask)

  function Dispatch(r: Reactor, ev: Event, a: Answer, b: Answer): Option<Reactor> {
    if !InTable(r, ev.slot) then None
    else
      var first := if IN in ev.mask && IN in r.slots[ev.slot].events then Call(r, ev.slot, a) else Some(r);
      if first == None || !InTable(first.value, ev.slot) then None
      else if OUT in ev.mask && OUT in first.value.slots[ev.slot].events then Call(first.value, ev.slot, b)
      else first
  }

  function DispatchAll(r: Reactor, batch: seq<Event>, answers: seq<(Answer, Answer)>): Option<Reactor>
    requires |answers| == |batch|
    decreases |batch|
  {
    if batch == [] then Some(r)
    else
      match Dispatch(r, batch[0], answers[0].0, answers[0].1)
      case None => None
      case Some(t) => DispatchAll(t, batch[1..], answers[1..])
  }

  // ---- The idle sweep ------------------------------------------------------------------

  predicate Expired(ev: MyEvent, now: int) { ev.status != 0 && now - ev.lastActive >= IDLE_LIMIT }

  predicate CanSweep(r: Reactor) { InTable(r, 0) && r.checkpos <= MAX_EVENTS }

  function CheckedSlot(r: Reactor): nat { if r.checkpos == MAX_EVENTS then 0 else r.checkpos }

  function Inspect(r: Reactor, now: int): (t: Reactor)
    requires CanSweep(r)
    ensures CanSweep(t)
  {
    var pos := CheckedSlot(r);
    var swept := if Expired(r.slots[pos], now) then EventDel(Close(r, r.slots[pos].fd), pos) else r;
    swept.(checkpos := pos + 1)
  }

  function Sweep(r: Reactor, now: int, n: nat): (t: Reactor)
    requires CanSweep(r)
    ensures CanSweep(t)
    decreases n, now
  {
    if n == 0 then r else Sweep(Inspect(r, now), now, n - 1)
  }

  // ---- One turn of the server loop ------------------------------------------------------

  datatype Turn = Turn(now: int, batch: seq<Event>, answers: seq<(Answer, Answer)>)

  /** What epoll_wait may report: registered slots, each at most once, with conditions
      that were asked for, or errors. */
  ghost predicate Reported(r: Reactor, batch: seq<Event>) {
    && |r.slots| == MAX_EVENTS + 1
    && (forall j :: 0 <= j < |batch| ==>
         && batch[j].slot <= MAX_EVENTS && r.slots[batch[j].slot].status == 1
         && batch[j].mask <= r.slots[batch[j].slot].events + {ERR, HUP})
    && (forall j, k :: 0 <= j < k < |batch| ==> batch[j].slot != batch[k].slot)
  }

  ghost function Step(r: Reactor, t: Turn): Option<Reactor> {
    if !CanSweep(r) || |t.answers| != |t.batch| then None
    else
      var swept := Sweep(r, t.now, SWEEP);
      if Reported(swept, t.batch) then DispatchAll(swept, t.batch, t.answers) else None
  }
}
