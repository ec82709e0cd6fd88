/**
 One pass of the poll echo server, stated order-free: what happens to each polled
 entry depends on that entry alone, however the table is permuted meanwhile.
 System calls are answered by an environment, one answer per descriptor and pass.
 */
module PollTable {
  import opened Basics
  import opened Runs

  const BUFSIZE: nat := 10
  const CLIENTSIZE: nat := 100

  datatype Flag = IN | OUT | ERR | RDHUP | HUP | NVAL
  type Mask = set<Flag>

  newtype byte = x: int | 0 <= x < 256
  type Bytes = seq<byte>

  datatype PollFd = PollFd(fd: int, events: Mask, revents: Mask)

  datatype Recv = Got(data: Bytes) | Eof | RecvError
  datatype Send = Sent(n: nat) | Reset | SendError
  datatype Accept = Conn(fd: int) | AcceptError

  datatype Env = Env(accept: Accept, recv: int -> Recv, send: int -> Send)

  /** History of one connection: all bytes received, all bytes sent, and how many
      calls lost bytes: a receive with a NUL in it, or a short send. */
  datatype Log = Log(rx: Bytes, tx: Bytes, faults: nat)

  /** The table by descriptor, the map of stored strings, and the histories. */
  datatype Server = Server(listenfd: int, table: map<int, PollFd>, mapdata: map<int, Bytes>, log: map<int, Log>)

  function Lookup<V>(m: map<int, V>, k: int): Option<V> {
    if k in m then Some(m[k]) else None
  }

  lemma SameLookups<V>(m: map<int, V>, n: map<int, V>)
    requires forall k :: Lookup(m, k) == Lookup(n, k)
    ensures m == n
  {
    forall k ensures k in m <==> k in n {
      assert Lookup(m, k) == Lookup(n, k);
    }
    forall k | k in m ensures m[k] == n[k] {
      assert Lookup(m, k) == Lookup(n, k);
    }
  }

  // ---- One entry -----------------------------------------------------------------

  predicate Drops(e: PollFd) { RDHUP in e.revents || ERR in e.revents }

  predicate Accepts(s: Server) {
    s.listenfd in s.table && !Drops(s.table[s.listenfd]) && IN in s.table[s.listenfd].revents
  }

  /** Which branch of the chain an entry that is kept takes. */
  predicate TakesRecv(listenfd: int, e: PollFd) { e.fd != listenfd && IN in e.revents }

  predicate TakesSend(e: PollFd) { IN !in e.revents && OUT in e.revents }

  /** exit(1) on this entry. */
  predicate Fatal(listenfd: int, e: PollFd, env: Env) {
    && !Drops(e)
    && if e.fd == listenfd && IN in e.revents then env.accept == AcceptError
       else if IN in e.revents then env.recv(e.fd) == RecvError
       else OUT in e.revents && env.send(e.fd) == SendError
  }

  /** The buffer read back as a C string: everything before the first NUL. */
  function CStr(b: Bytes): (r: Bytes)
    ensures r <= b && 0 !in r && (|r| < |b| ==> b[|r|] == 0)
    ensures r == b <==> 0 !in b
  {
    if b == [] || b[0] == 0 then [] else [b[0]] + CStr(b[1..])
  }

  function EntryAfter(listenfd: int, e: PollFd, env: Env): PollFd {
    if TakesRecv(listenfd, e) && env.recv(e.fd).Got? then e.(events := e.events - {IN} + {OUT})
    else if TakesSend(e) && env.send(e.fd).Sent? then e.(events := e.events - {OUT} + {IN})
    else e
  }

  /** What operator[] yields: the stored string, or a new empty one. */
  function Stored(data: Option<Bytes>): Bytes {
    match data
    case Some(d) => d
    case None => []
  }

  function EntryData(listenfd: int, e: PollFd, data: Option<Bytes>, env: Env): Option<Bytes> {
    if TakesRecv(listenfd, e) && env.recv(e.fd).Got? then Some(CStr(env.recv(e.fd).data))
    else if TakesSend(e) then Some(Stored(data))
    else data
  }

  function Received(l: Log, data: Bytes): Log {
    Log(l.rx + data, l.tx, l.faults + if 0 in data then 1 else 0)
  }

  function Transmitted(l: Log, data: Bytes, n: nat): Log {
    if n < |data| then Log(l.rx, l.tx + data[..n], l.faults + 1) else Log(l.rx, l.tx + data, l.faults)
  }

  function EntryLog(listenfd: int, e: PollFd, data: Option<Bytes>, l: Option<Log>, env: Env): Option<Log> {
    if l == None then None
    else if TakesRecv(listenfd, e) && env.recv(e.fd).Got? then Some(Received(l.value, env.recv(e.fd).data))
    else if TakesSend(e) && env.send(e.fd).Sent? then Some(Transmitted(l.value, Stored(data), env.send(e.fd).n))
    else l
  }

  function Fresh(fd: int): PollFd { PollFd(fd, {IN, RDHUP, ERR}, {}) }

  // ---- A whole pass -----------------------------------------------------------------

  predicate Joins(s: Server, env: Env, k: int) { Accepts(s) && env.accept == Conn(k) && k !in s.table }

  function TableAfter(s: Server, env: Env, k: int): Option<PollFd> {
    if k in s.table then
      if Drops(s.table[k]) then None else Some(EntryAfter(s.listenfd, s.table[k], env))
    else if Joins(s, env, k) then Some(Fresh(k))
    else None
  }

  function DataAfter(s: Server, env: Env, k: int): Option<Bytes> {
    if k in s.table then
      if Drops(s.table[k]) then None else EntryData(s.listenfd, s.table[k], Lookup(s.mapdata, k), env)
    else Lookup(s.mapdata, k)
  }

  function LogAfter(s: Server, env: Env, k: int): Option<Log> {
    if k in s.table then
      if Drops(s.table[k]) then None
      else EntryLog(s.listenfd, s.table[k], Lookup(s.mapdata, k), Lookup(s.log, k), env)
    else if Joins(s, env, k) then Some(Log([], [], 0))
    else Lookup(s.log, k)
  }

  predicate SomeFatal(s: Server, env: Env) {
    exists k :: k in s.table && Fatal(s.listenfd, s.table[k], env)
  }

  function Newcomer(env: Env): set<int> {
    if env.accept.Conn? then {env.accept.fd} else {}
  }

  function Pass(s: Server, env: Env): (t: Server)
    ensures t.listenfd == s.listenfd
    ensures forall k :: Lookup(t.table, k) == TableAfter(s, env, k)
    ensures forall k :: Lookup(t.mapdata, k) == DataAfter(s, env, k)
    ensures forall k :: Lookup(t.log, k) == LogAfter(s, env, k)
  {
    Server(
      s.listenfd,
      map k | k in s.table.Keys + Newcomer(env) && TableAfter(s, env, k).Some? :: TableAfter(s, env, k).value,
      map k | k in s.table.Keys + s.mapdata.Keys && DataAfter(s, env, k).Some? :: DataAfter(s, env, k).value,
      map k | k in s.table.Keys + Newcomer(env) + s.log.Keys && LogAfter(s, env, k).Some? :: LogAfter(s, env, k).value)
  }

  /** The pass looked at through one descriptor. */
  lemma PassAt(s: Server, env: Env, k: int)
    ensures var t := Pass(s, env);
            && Lookup(t.table, k) == TableAfter(s, env, k)
            && Lookup(t.mapdata, k) == DataAfter(s, env, k)
            && Lookup(t.log, k) == LogAfter(s, env, k)
  {
  }

  /** After a pass the table holds the polled entries that reported neither hang-up nor
      error, and the accepted descriptor if the listener reported a connection and neither
      of the two. */
  lemma PassMembership(s: Server, env: Env)
    ensures forall k :: k in Pass(s, env).table <==>
              || (k in s.table && RDHUP !in s.table[k].revents && ERR !in s.table[k].revents)
              || (&& k !in s.table && env.accept == Conn(k) && s.listenfd in s.table
                  && IN in s.table[s.listenfd].revents
                  && RDHUP !in s.table[s.listenfd].revents && ERR !in s.table[s.listenfd].revents)
  {
    var t := Pass(s, env);
    forall k ensures k in t.table <==> (k in s.table && !Drops(s.table[k])) || Joins(s, env, k) {
      PassAt(s, env, k);
    }
  }

  // ---- Whole runs ----------------------------------------------------------------------

  /** One turn of the server loop: the answer of poll, then one pass. */
  datatype Round = Round(ready: int -> Mask, env: Env)

  function Polled(s: Server, ready: int -> Mask): Server {
    s.(table := map k | k in s.table :: s.table[k].(revents := ready(k)))
  }

  function Payload(s: Server, k: int): Bytes { Stored(Lookup(s.mapdata, k)) }

  /** What the system calls promise, and the table's room at an accept. */
  ghost predicate Legal(s: Server, r: Round) {
    && (forall k :: k in s.table ==> r.ready(k) <= s.table[k].events + {ERR, HUP, NVAL})
    && (forall k :: r.env.recv(k).Got? ==> 0 < |r.env.recv(k).data| <= BUFSIZE - 1)
    && (forall k :: r.env.send(k).Sent? ==> r.env.send(k).n <= |Payload(s, k)|)
    && (r.env.accept.Conn? && Accepts(Polled(s, r.ready)) ==>
          r.env.accept.fd !in s.table && |s.table| < CLIENTSIZE)
  }

  /** None: the process exits. */
  ghost function Step(s: Server, r: Round): Option<Server> {
    if !Legal(s, r) || SomeFatal(Polled(s, r.ready), r.env) then None
    else Some(Pass(Polled(s, r.ready), r.env))
  }

  function Start(listenfd: int): Server {
    Server(listenfd, map[listenfd := PollFd(listenfd, {IN, ERR}, {})], map[], map[])
  }

  ghost predicate Reachable(s: Server) {
    exists rounds: seq<Round> :: Exec(Step, Start(s.listenfd), rounds) == Some(s)
  }

  lemma ReachableNext(s: Server, r: Round, t: Server)
    requires Reachable(s) && Step(s, r) == Some(t) && t.listenfd == s.listenfd
    ensures Reachable(t)
  {
    var start := Start(s.listenfd);
    var rounds: seq<Round> :| Exec(Step, start, rounds) == Some(s);
    var longer := rounds + [r];
    ExecNext(Step, start, rounds, s, r, t);
    assert Start(t.listenfd) == start && Exec(Step, start, longer) == Some(t);
  }

  /** The bytes a connection still owes its peer. */
  function Pending(e: PollFd, data: Option<Bytes>): Bytes {
    if OUT in e.events then Stored(data) else []
  }

  ghost predicate ConnInv(e: PollFd, data: Option<Bytes>, l: Log) {
    && (e.events == {IN, RDHUP, ERR} || (e.events == {OUT, RDHUP, ERR} && data.Some?))
    && |Stored(data)| <= BUFSIZE - 1
    && (l.faults == 0 ==> l.rx == l.tx + Pending(e, data))
    && (l.faults > 0 ==> |l.rx| > |l.tx| + |Pending(e, data)|)
  }

  /** What ServerInv says of descriptor k. */
  ghost predicate KeyInv(s: Server, k: int) {
    && (k in s.table ==> s.table[k].fd == k && (k == s.listenfd ==> s.table[k].events == {IN, ERR}))
    && (k in s.log <==> k in s.table && k != s.listenfd)
    && (k in s.mapdata ==> k in s.table && k != s.listenfd)
    && (k in s.table && k != s.listenfd ==> ConnInv(s.table[k], Lookup(s.mapdata, k), s.log[k]))
  }

  ghost predicate ServerInv(s: Server) { forall k :: KeyInv(s, k) }

  /** A connection that is read from. */
  lemma ConnRecv(listenfd: int, e: PollFd, data: Option<Bytes>, l: Log, env: Env)
    requires ConnInv(e, data, l) && TakesRecv(listenfd, e) && IN in e.events && env.recv(e.fd).Got?
    requires 0 < |env.recv(e.fd).data| <= BUFSIZE - 1
    ensures ConnInv(EntryAfter(listenfd, e, env), EntryData(listenfd, e, data, env),
                    Received(l, env.recv(e.fd).data))
  {
    var got := env.recv(e.fd).data;
    assert Pending(e, data) == [];
    assert e.events - {IN} + {OUT} == {OUT, RDHUP, ERR};
    assert Pending(EntryAfter(listenfd, e, env), Some(CStr(got))) == CStr(got);
    assert l.faults == 0 ==> l.rx == l.tx;
  }

  /** A connection that is written to. */
  lemma ConnSend(listenfd: int, e: PollFd, data: Option<Bytes>, l: Log, env: Env)
    requires ConnInv(e, data, l) && TakesSend(e) && OUT in e.events && env.send(e.fd).Sent?
    requires env.send(e.fd).n <= |Stored(data)|
    ensures ConnInv(EntryAfter(listenfd, e, env), EntryData(listenfd, e, data, env),
                    Transmitted(l, Stored(data), env.send(e.fd).n))
  {
    assert Pending(e, data) == Stored(data);
    assert e.events - {OUT} + {IN} == {IN, RDHUP, ERR};
    assert Pending(EntryAfter(listenfd, e, env), data) == [];
  }

  /** One connection through one pass. */
  lemma ConnStep(listenfd: int, e: PollFd, data: Option<Bytes>, l: Log, env: Env)
    requires e.fd != listenfd && ConnInv(e, data, l)
    requires e.revents <= e.events + {ERR, HUP, NVAL}
    requires env.recv(e.fd).Got? ==> 0 < |env.recv(e.fd).data| <= BUFSIZE - 1
    requires env.send(e.fd).Sent? ==> env.send(e.fd).n <= |Stored(data)|
    ensures EntryLog(listenfd, e, data, Some(l), env).Some?
    ensures ConnInv(EntryAfter(listenfd, e, env), EntryData(listenfd, e, data, env),
                    EntryLog(listenfd, e, data, Some(l), env).value)
  {
    if TakesRecv(listenfd, e) && env.recv(e.fd).Got? {
      ConnRecv(listenfd, e, data, l, env);
    } else if TakesSend(e) && env.send(e.fd).Sent? {
      ConnSend(listenfd, e, data, l, env);
    }
  }

  lemma ListenerStep(s: Server, env: Env)
    requires KeyInv(s, s.listenfd) && s.listenfd in s.table && s.table[s.listenfd].revents <= {IN, ERR, HUP, NVAL}
    ensures var e := s.table[s.listenfd];
            EntryAfter(s.listenfd, e, env) == e &&
            EntryData(s.listenfd, e, Lookup(s.mapdata, s.listenfd), env) == None
  {
  }

  lemma KeptKey(p: Server, env: Env, k: int)
    requires KeyInv(p, k) && k in p.table && !Drops(p.table[k]) && !Fatal(p.listenfd, p.table[k], env)
    requires p.table[k].revents <= p.table[k].events + {ERR, HUP, NVAL}
    requires env.recv(k).Got? ==> 0 < |env.recv(k).data| <= BUFSIZE - 1
    requires env.send(k).Sent? ==> env.send(k).n <= |Payload(p, k)|
    ensures KeyInv(Pass(p, env), k)
  {
    var t := Pass(p, env);
    assert Lookup(t.table, k) == TableAfter(p, env, k);
    assert Lookup(t.mapdata, k) == DataAfter(p, env, k);
    assert Lookup(t.log, k) == LogAfter(p, env, k);
    if k == p.listenfd {
      ListenerStep(p, env);
    } else {
      ConnStep(p.listenfd, p.table[k], Lookup(p.mapdata, k), p.log[k], env);
    }
  }

  lemma OtherKey(p: Server, env: Env, k: int)
    requires KeyInv(p, k) && (k in p.table ==> Drops(p.table[k]))
    ensures KeyInv(Pass(p, env), k)
  {
    var t := Pass(p, env);
    assert Lookup(t.table, k) == TableAfter(p, env, k);
    assert Lookup(t.mapdata, k) == DataAfter(p, env, k);
    assert Lookup(t.log, k) == LogAfter(p, env, k);
  }

  lemma RoundStep(s: Server, r: Round)
    requires ServerInv(s) && Step(s, r).Some?
    ensures ServerInv(Step(s, r).value)
  {
    var p := Polled(s, r.ready);
    forall k ensures KeyInv(Step(s, r).value, k) {
      assert KeyInv(s, k);
      if k in p.table && !Drops(p.table[k]) {
        KeptKey(p, r.env, k);
      } else {
        OtherKey(p, r.env, k);
      }
    }
  }

  lemma Safety(s: Server)
    requires Reachable(s)
    ensures ServerInv(s)
  {
    var rounds: seq<Round> :| Exec(Step, Start(s.listenfd), rounds) == Some(s);
    forall t, r | ServerInv(t) && Step(t, r).Some? ensures ServerInv(Step(t, r).value) {
      RoundStep(t, r);
    }
    InvariantHolds(Step, ServerInv, Start(s.listenfd), rounds);
  }

  /** Echo over whole runs: what a connection received is what was sent back plus
      what is pending, exactly when no receive held a NUL and no send was short. */
  lemma EchoFaithful(s: Server, k: int)
    requires Reachable(s) && k in s.table && k != s.listenfd
    ensures k in s.log
    ensures s.log[k].rx == s.log[k].tx + Pending(s.table[k], Lookup(s.mapdata, k)) <==> s.log[k].faults == 0
    ensures |Pending(s.table[k], Lookup(s.mapdata, k))| <= BUFSIZE - 1
  {
    Safety(s);
    assert KeyInv(s, k);
  }

  lemma KeyDirections(s: Server, k: int)
    requires KeyInv(s, k)
    ensures k in s.table && k != s.listenfd ==> (IN in s.table[k].events <==> OUT !in s.table[k].events)
    ensures k in s.mapdata ==> k in s.table && k != s.listenfd
  {
  }

  /** Every open connection waits for exactly one of reading and writing, and strings
      are stored for open connections only. */
  lemma OneDirectionArmed(s: Server, k: int)
    requires Reachable(s)
    ensures k in s.table && k != s.listenfd ==> (IN in s.table[k].events <==> OUT !in s.table[k].events)
    ensures k in s.mapdata ==> k in s.table && k != s.listenfd
  {
    Safety(s);
    KeyDirections(s, k);
  }

  /** A descriptor number that is reused starts with an empty history and nothing
      stored, so no byte of its former owner can reach the new peer. */
  lemma ReuseStartsClean(s: Server, r: Round, k: int)
    requires Reachable(s) && Step(s, r).Some? && k !in s.table && k in Step(s, r).value.table
    ensures var t := Step(s, r).value;
            t.table[k] == Fresh(k) && k !in t.mapdata && Lookup(t.log, k) == Some(Log([], [], 0))
  {
    Safety(s);
    assert KeyInv(s, k);
    var p, t := Polled(s, r.ready), Step(s, r).value;
    assert Lookup(t.table, k) == TableAfter(p, r.env, k);
    assert Lookup(t.mapdata, k) == DataAfter(p, r.env, k);
    assert Lookup(t.log, k) == LogAfter(p, r.env, k);
  }
}
