/**
 Runs of the poll echo server that lose bytes: a NUL in the input, and a short send.
 Descriptor 3 is the listener and 4 the only client.
 */
module PollLoss {
  import opened Basics
  import opened Runs
  import opened PollTable

  const READING: Mask := {IN, RDHUP, ERR}
  const WRITING: Mask := {OUT, RDHUP, ERR}

  lemma Flips()
    ensures READING - {IN} + {OUT} == WRITING && WRITING - {OUT} + {IN} == READING
  {
  }

  /** The client waits with `events`, `data` is stored for it and `l` is its history. */
  ghost predicate OneClient(s: Server, events: Mask, data: Option<Bytes>, l: Log) {
    && Reachable(s) && s.listenfd == 3 && s.table.Keys == {3, 4}
    && s.table[3].fd == 3 && s.table[3].events == {IN, ERR}
    && s.table[4].fd == 4 && s.table[4].events == events
    && Lookup(s.mapdata, 4) == data && Lookup(s.log, 4) == Some(l)
  }

  /** Only descriptor k is ready. */
  function Ready(k: int, mask: Mask, env: Env): Round { Round(j => if j == k then mask else {}, env) }

  /** Nothing but the given answers to the client's calls. */
  function Answers(accept: Accept, recv: Recv, send: Send): Env {
    Env(accept, k => if k == 4 then recv else Eof, k => if k == 4 then send else SendError)
  }

  /** The order-free pass over the listener and the client. */
  lemma PassOverClient(p: Server, env: Env, mask: Mask)
    requires p.listenfd == 3 && p.table.Keys == {3, 4} && p.table[3].revents == {}
    requires p.table[4].revents == mask && (mask == {IN} || mask == {OUT})
    ensures var t := Pass(p, env);
            && t.listenfd == 3 && t.table.Keys == {3, 4} && t.table[3] == p.table[3]
            && t.table[4] == EntryAfter(3, p.table[4], env)
            && Lookup(t.mapdata, 4) == EntryData(3, p.table[4], Lookup(p.mapdata, 4), env)
            && Lookup(t.log, 4) == EntryLog(3, p.table[4], Lookup(p.mapdata, 4), Lookup(p.log, 4), env)
  {
    var t := Pass(p, env);
    PassMembership(p, env);
    assert t.table.Keys == {3, 4};
    PassAt(p, env, 3);
    PassAt(p, env, 4);
  }

  lemma ReadDefined(s: Server, l: Log, got: Bytes)
    requires OneClient(s, READING, None, l) && 0 < |got| <= BUFSIZE - 1
    ensures var r := Ready(4, {IN}, Answers(AcceptError, Got(got), SendError));
            Legal(s, r) && !SomeFatal(Polled(s, r.ready), r.env)
  {
  }

  lemma ReadEntry(e: PollFd, l: Log, env: Env, got: Bytes)
    requires e.fd == 4 && e.events == READING && e.revents == {IN} && env.recv(4) == Got(got)
    ensures EntryAfter(3, e, env) == e.(events := WRITING)
    ensures EntryData(3, e, None, env) == Some(CStr(got))
    ensures EntryLog(3, e, None, Some(l), env) == Some(Received(l, got))
  {
    Flips();
  }

  /** The client sends `got`. */
  lemma ReadRound(s: Server, l: Log, got: Bytes) returns (t: Server)
    requires OneClient(s, READING, None, l) && 0 < |got| <= BUFSIZE - 1
    ensures OneClient(t, WRITING, Some(CStr(got)), Received(l, got))
  {
    var r := Ready(4, {IN}, Answers(AcceptError, Got(got), SendError));
    var p := Polled(s, r.ready);
    assert p.table.Keys == {3, 4};
    ReadDefined(s, l, got);
    PassOverClient(p, r.env, {IN});
    ReadEntry(p.table[4], l, r.env, got);
    t := Pass(p, r.env);
    ReachableNext(s, r, t);
  }

  lemma WriteDefined(s: Server, data: Bytes, l: Log, n: nat)
    requires OneClient(s, WRITING, Some(data), l) && n <= |data|
    ensures var r := Ready(4, {OUT}, Answers(AcceptError, Eof, Sent(n)));
            Legal(s, r) && !SomeFatal(Polled(s, r.ready), r.env)
  {
  }

  lemma WriteEntry(e: PollFd, data: Bytes, l: Log, env: Env, n: nat)
    requires e.fd == 4 && e.events == WRITING && e.revents == {OUT} && env.send(4) == Sent(n)
    ensures EntryAfter(3, e, env) == e.(events := READING)
    ensures EntryData(3, e, Some(data), env) == Some(data)
    ensures EntryLog(3, e, Some(data), Some(l), env) == Some(Transmitted(l, data, n))
  {
    Flips();
  }

  /** The kernel takes n bytes of what is stored for the client. */
  lemma WriteRound(s: Server, data: Bytes, l: Log, n: nat) returns (t: Server)
    requires OneClient(s, WRITING, Some(data), l) && n <= |data|
    ensures OneClient(t, READING, Some(data), Transmitted(l, data, n))
  {
    var r := Ready(4, {OUT}, Answers(AcceptError, Eof, Sent(n)));
    var p := Polled(s, r.ready);
    assert p.table.Keys == {3, 4};
    WriteDefined(s, data, l, n);
    PassOverClient(p, r.env, {OUT});
    WriteEntry(p.table[4], data, l, r.env, n);
    t := Pass(p, r.env);
    ReachableNext(s, r, t);
  }

  lemma AcceptDefined(start: Server, r: Round)
    requires start == Start(3) && r == Ready(3, {IN}, Answers(Conn(4), Eof, SendError))
    ensures Legal(start, r) && !SomeFatal(Polled(start, r.ready), r.env)
    ensures Accepts(Polled(start, r.ready)) && Polled(start, r.ready).table.Keys == {3}
  {
    assert Polled(start, r.ready).table.Keys == {3};
  }

  lemma AcceptPass(p: Server, env: Env)
    requires p.listenfd == 3 && p.table == map[3 := PollFd(3, {IN, ERR}, {IN})]
    requires p.mapdata == map[] && p.log == map[] && env.accept == Conn(4)
    ensures var t := Pass(p, env);
            && t.table.Keys == {3, 4} && t.table[3] == p.table[3] && t.table[4] == Fresh(4)
            && Lookup(t.mapdata, 4) == None && Lookup(t.log, 4) == Some(Log([], [], 0))
  {
    PassMembership(p, env);
    assert Pass(p, env).table.Keys == {3, 4};
    PassAt(p, env, 3);
    PassAt(p, env, 4);
  }

  lemma Connect() returns (s: Server)
    ensures OneClient(s, READING, None, Log([], [], 0))
  {
    var start := Start(3);
    assert Exec(Step, start, []) == Some(start);
    var r := Ready(3, {IN}, Answers(Conn(4), Eof, SendError));
    var p := Polled(start, r.ready);
    AcceptDefined(start, r);
    AcceptPass(p, r.env);
    s := Pass(p, r.env);
    ReachableNext(start, r, s);
  }

  /** Two bytes are received, the first a NUL: neither is ever sent. */
  lemma NulLosesBytes() returns (s: Server)
    ensures Reachable(s) && s.listenfd != 4 && 4 in s.table && 4 in s.log
    ensures s.log[4].rx == [0, 7] && s.log[4].tx == [] && s.log[4].faults == 1
    ensures Pending(s.table[4], Lookup(s.mapdata, 4)) == []
  {
    s := Connect();
    s := ReadRound(s, Log([], [], 0), [0, 7]);
  }

  lemma NoNul(a: byte, b: byte)
    requires a != 0 && b != 0
    ensures CStr([a, b]) == [a, b]
  {
  }

  lemma SentOne(a: byte, b: byte)
    ensures Transmitted(Log([a, b], [], 0), [a, b], 1) == Log([a, b], [a], 1)
  {
    assert [a, b][..1] == [a];
  }

  /** Two bytes are received and one is sent: the other is forgotten, for the client
      waits for input again and nothing is pending. */
  lemma ShortSendLosesBytes() returns (s: Server)
    ensures Reachable(s) && s.listenfd != 4 && 4 in s.table && 4 in s.log
    ensures s.log[4].rx == [6, 7] && s.log[4].tx == [6] && s.log[4].faults == 1
    ensures IN in s.table[4].events && Pending(s.table[4], Lookup(s.mapdata, 4)) == []
  {
    NoNul(6, 7);
    var s0 := Connect();
    var s1 := ReadRound(s0, Log([], [], 0), [6, 7]);
    assert Received(Log([], [], 0), [6, 7]) == Log([6, 7], [], 0);
    s := WriteRound(s1, [6, 7], Log([6, 7], [], 0), 1);
    SentOne(6, 7);
  }
}
