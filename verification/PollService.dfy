/**
 What one turn of the poll echo server does for a descriptor, by the bits reported
 for it and the answer of its one system call, in every reachable state.
 */
module PollService {
  import opened Basics
  import opened PollTable

  /** The listener announces a connection. */
  predicate Announced(s: Server, r: Round) {
    s.listenfd in s.table && IN in r.ready(s.listenfd) && ERR !in r.ready(s.listenfd)
  }

  /** What the system calls promise, in numbers, and the room for an accepted client. */
  ghost predicate Promised(s: Server, r: Round) {
    && (forall k :: k in s.table ==> r.ready(k) <= s.table[k].events + {ERR, HUP, NVAL})
    && (forall k :: r.env.recv(k).Got? ==> 1 <= |r.env.recv(k).data| <= 9)
    && (forall k :: r.env.send(k).Sent? ==> r.env.send(k).n <= if k in s.mapdata then |s.mapdata[k]| else 0)
    && (r.env.accept.Conn? && Announced(s, r) ==> r.env.accept.fd !in s.table && |s.table| < 100)
  }

  /** accept failed, or recv, or send in a way other than a reset by the peer. */
  predicate CallFails(s: Server, r: Round, k: int) {
    && RDHUP !in r.ready(k) && ERR !in r.ready(k)
    && (|| (k == s.listenfd && IN in r.ready(k) && r.env.accept == AcceptError)
        || (k != s.listenfd && IN in r.ready(k) && r.env.recv(k) == RecvError)
        || (k != s.listenfd && IN !in r.ready(k) && OUT in r.ready(k) && r.env.send(k) == SendError))
  }

  lemma ListenerBits(s: Server, r: Round)
    requires KeyInv(s, s.listenfd) && s.listenfd in s.table
    requires forall k :: k in s.table ==> r.ready(k) <= s.table[k].events + {ERR, HUP, NVAL}
    ensures RDHUP !in r.ready(s.listenfd) && OUT !in r.ready(s.listenfd)
  {
    assert r.ready(s.listenfd) <= {IN, ERR} + {ERR, HUP, NVAL};
  }

  lemma LegalIsPromised(s: Server, r: Round)
    requires KeyInv(s, s.listenfd)
    ensures Legal(s, r) <==> Promised(s, r)
  {
    if s.listenfd in s.table && forall k :: k in s.table ==> r.ready(k) <= s.table[k].events + {ERR, HUP, NVAL} {
      ListenerBits(s, r);
    }
  }

  lemma FatalIsFailure(s: Server, r: Round, k: int)
    requires KeyInv(s, k) && k in s.table && (k == s.listenfd ==> OUT !in r.ready(k))
    ensures Fatal(s.listenfd, s.table[k].(revents := r.ready(k)), r.env) <==> CallFails(s, r, k)
  {
  }

  /** The process goes through a turn exactly when the system calls kept their promises
      and none of them failed; a send that finds the connection reset is no failure. */
  lemma TurnRunsExactlyWhen(s: Server, r: Round)
    requires Reachable(s)
    ensures Step(s, r).Some? <==> Promised(s, r) && forall k :: k in s.table ==> !CallFails(s, r, k)
  {
    Safety(s);
    assert KeyInv(s, s.listenfd);
    LegalIsPromised(s, r);
    if Promised(s, r) {
      forall k | k in s.table
        ensures Fatal(s.listenfd, Polled(s, r.ready).table[k], r.env) <==> CallFails(s, r, k)
      {
        assert KeyInv(s, k);
        if k == s.listenfd {
          ListenerBits(s, r);
        }
        FatalIsFailure(s, r, k);
      }
    }
  }

  /** The state after a turn, looked at through one descriptor. */
  lemma TurnAt(s: Server, r: Round, k: int)
    requires Reachable(s) && Step(s, r).Some?
    ensures KeyInv(s, k)
    ensures var p, t := Polled(s, r.ready), Step(s, r).value;
            && t.listenfd == s.listenfd && Lookup(t.table, k) == TableAfter(p, r.env, k)
            && Lookup(t.mapdata, k) == DataAfter(p, r.env, k) && Lookup(t.log, k) == LogAfter(p, r.env, k)
  {
    Safety(s);
    PassAt(Polled(s, r.ready), r.env, k);
  }

  /** Hang-up and error delete the entry and all that is kept for it, whatever else is
      reported with them. */
  lemma HangUpDeletes(s: Server, r: Round, k: int)
    requires Reachable(s) && Step(s, r).Some? && k in s.table && (RDHUP in r.ready(k) || ERR in r.ready(k))
    ensures var t := Step(s, r).value; k !in t.table && k !in t.mapdata && k !in t.log
  {
    TurnAt(s, r, k);
  }

  /** A client that is not deleted and has something to read. */
  predicate Readable(s: Server, r: Round, k: int) {
    k in s.table && k != s.listenfd && IN in r.ready(k) && RDHUP !in r.ready(k) && ERR !in r.ready(k)
  }

  /** A client that is not deleted, has nothing to read and takes output. */
  predicate Writable(s: Server, r: Round, k: int) {
    && k in s.table && k != s.listenfd && IN !in r.ready(k) && OUT in r.ready(k)
    && RDHUP !in r.ready(k) && ERR !in r.ready(k)
  }

  /** In the turn r from s to t entry k was not deleted: itself, its string and its
      history decide what became of it. */
  ghost predicate Kept(s: Server, r: Round, k: int, t: Server) {
    && k in s.table && KeyInv(s, k) && !CallFails(s, r, k) && RDHUP !in r.ready(k) && ERR !in r.ready(k)
    && r.ready(k) <= s.table[k].events + {ERR, HUP, NVAL}
    && (r.env.send(k).Sent? ==> r.env.send(k).n <= if k in s.mapdata then |s.mapdata[k]| else 0)
    && var e, data := s.table[k].(revents := r.ready(k)), Lookup(s.mapdata, k);
       && Lookup(t.table, k) == Some(EntryAfter(s.listenfd, e, r.env))
       && Lookup(t.mapdata, k) == EntryData(s.listenfd, e, data, r.env)
       && Lookup(t.log, k) == EntryLog(s.listenfd, e, data, Lookup(s.log, k), r.env)
  }

  lemma KeptTurn(s: Server, r: Round, k: int, t: Server)
    requires Reachable(s) && Step(s, r) == Some(t) && k in s.table && RDHUP !in r.ready(k) && ERR !in r.ready(k)
    ensures Kept(s, r, k, t)
  {
    TurnRunsExactlyWhen(s, r);
    TurnAt(s, r, k);
  }

  /** The read branch on one entry. */
  lemma ReadEntry(listenfd: int, e: PollFd, data: Option<Bytes>, l: Log, env: Env)
    requires e.fd != listenfd && ConnInv(e, data, l) && IN in e.revents && IN in e.events
    ensures match env.recv(e.fd)
            case Got(bytes) =>
              var str, l' := EntryData(listenfd, e, data, env), EntryLog(listenfd, e, data, Some(l), env);
              && EntryAfter(listenfd, e, env) == PollFd(e.fd, {OUT, RDHUP, ERR}, e.revents)
              && str.Some? && str.value <= bytes && 0 !in str.value
              && (|str.value| < |bytes| ==> bytes[|str.value|] == 0)
              && l'.Some? && l'.value.rx == l.rx + bytes && l'.value.tx == l.tx
            case _ =>
              && EntryAfter(listenfd, e, env) == PollFd(e.fd, {IN, RDHUP, ERR}, e.revents)
              && EntryData(listenfd, e, data, env) == data && EntryLog(listenfd, e, data, Some(l), env) == Some(l)
  {
    assert {IN, RDHUP, ERR} - {IN} + {OUT} == {OUT, RDHUP, ERR};
  }

  /** The write branch on one entry. */
  lemma WriteEntry(listenfd: int, e: PollFd, data: Option<Bytes>, l: Log, env: Env)
    requires e.fd != listenfd && ConnInv(e, data, l) && IN !in e.revents && OUT in e.revents && OUT in e.events
    requires env.send(e.fd).Sent? ==> env.send(e.fd).n <= |Stored(data)|
    ensures data.Some? && EntryData(listenfd, e, data, env) == data
    ensures match env.send(e.fd)
            case Sent(n) =>
              var l' := EntryLog(listenfd, e, data, Some(l), env);
              && EntryAfter(listenfd, e, env) == PollFd(e.fd, {IN, RDHUP, ERR}, e.revents)
              && l'.Some? && l'.value.rx == l.rx && l'.value.tx == l.tx + data.value[..n]
            case _ =>
              && EntryAfter(listenfd, e, env) == PollFd(e.fd, {OUT, RDHUP, ERR}, e.revents)
              && EntryLog(listenfd, e, data, Some(l), env) == Some(l)
  {
    assert {OUT, RDHUP, ERR} - {OUT} + {IN} == {IN, RDHUP, ERR};
    assert data.value[..|data.value|] == data.value;
  }

  /** Bytes read: the client is turned round to writing, and what came before the first NUL
      is stored. */
  ghost predicate WasRead(s: Server, t: Server, k: int, bits: Mask, data: Bytes) {
    && k in s.log && k in t.table && k in t.mapdata && k in t.log
    && t.table[k] == PollFd(k, {OUT, RDHUP, ERR}, bits)
    && t.mapdata[k] <= data && 0 !in t.mapdata[k] && (|t.mapdata[k]| < |data| ==> data[|t.mapdata[k]|] == 0)
    && t.log[k].rx == s.log[k].rx + data && t.log[k].tx == s.log[k].tx
  }

  /** n bytes written: they are the first of the stored string, and the client is turned
      back to reading, even when they are not all of it. */
  ghost predicate WasWritten(s: Server, t: Server, k: int, bits: Mask, n: nat) {
    && k in s.log && k in s.mapdata && k in t.table && k in t.mapdata && k in t.log
    && t.table[k] == PollFd(k, {IN, RDHUP, ERR}, bits)
    && t.mapdata[k] == s.mapdata[k] && n <= |s.mapdata[k]|
    && t.log[k].rx == s.log[k].rx && t.log[k].tx == s.log[k].tx + s.mapdata[k][..n]
  }

  /** Nothing but the reported bits is new. */
  ghost predicate WasLeftAlone(s: Server, t: Server, k: int, bits: Mask) {
    && k in s.table && k in t.table && t.table[k] == s.table[k].(revents := bits)
    && Lookup(t.mapdata, k) == Lookup(s.mapdata, k) && Lookup(t.log, k) == Lookup(s.log, k)
  }

  lemma ReadKept(s: Server, r: Round, k: int, t: Server)
    requires Kept(s, r, k, t) && Readable(s, r, k)
    ensures match r.env.recv(k)
            case Got(data) => WasRead(s, t, k, r.ready(k), data)
            case Eof => WasLeftAlone(s, t, k, r.ready(k))
            case RecvError => false
  {
    ReadEntry(s.listenfd, s.table[k].(revents := r.ready(k)), Lookup(s.mapdata, k), s.log[k], r.env);
  }

  /** A client with something to read is served by the answer of recv; at the end of
      input nothing changes. */
  lemma ReadServed(s: Server, r: Round, k: int, t: Server)
    requires Reachable(s) && Step(s, r) == Some(t) && Readable(s, r, k)
    ensures match r.env.recv(k)
            case Got(data) => WasRead(s, t, k, r.ready(k), data)
            case Eof => WasLeftAlone(s, t, k, r.ready(k))
            case RecvError => false
  {
    KeptTurn(s, r, k, t);
    ReadKept(s, r, k, t);
  }

  lemma WriteKept(s: Server, r: Round, k: int, t: Server)
    requires Kept(s, r, k, t) && Writable(s, r, k)
    ensures match r.env.send(k)
            case Sent(n) => WasWritten(s, t, k, r.ready(k), n)
            case Reset => WasLeftAlone(s, t, k, r.ready(k))
            case SendError => false
  {
    WriteEntry(s.listenfd, s.table[k].(revents := r.ready(k)), Lookup(s.mapdata, k), s.log[k], r.env);
  }

  /** A client that takes output is served by the answer of send; after a reset nothing
      changes. */
  lemma WriteServed(s: Server, r: Round, k: int, t: Server)
    requires Reachable(s) && Step(s, r) == Some(t) && Writable(s, r, k)
    ensures match r.env.send(k)
            case Sent(n) => WasWritten(s, t, k, r.ready(k), n)
            case Reset => WasLeftAlone(s, t, k, r.ready(k))
            case SendError => false
  {
    KeptTurn(s, r, k, t);
    WriteKept(s, r, k, t);
  }

  lemma IdleKept(s: Server, r: Round, k: int, t: Server)
    requires Kept(s, r, k, t) && (k == s.listenfd || (IN !in r.ready(k) && OUT !in r.ready(k)))
    ensures WasLeftAlone(s, t, k, r.ready(k))
  {
    assert k == s.listenfd ==> r.ready(k) <= {IN, ERR} + {ERR, HUP, NVAL};
  }

  /** A client for which none of these bits is reported is left as it was, and so is the
      listener whenever it stays. */
  lemma OthersLeftAlone(s: Server, r: Round, k: int, t: Server)
    requires Reachable(s) && Step(s, r) == Some(t) && k in s.table && RDHUP !in r.ready(k) && ERR !in r.ready(k)
    requires k == s.listenfd || (IN !in r.ready(k) && OUT !in r.ready(k))
    ensures WasLeftAlone(s, t, k, r.ready(k))
  {
    KeptTurn(s, r, k, t);
    IdleKept(s, r, k, t);
  }

  lemma AcceptsAnnounced(s: Server, r: Round)
    requires Reachable(s) && Step(s, r).Some?
    ensures Accepts(Polled(s, r.ready)) <==> Announced(s, r)
  {
    TurnRunsExactlyWhen(s, r);
    Safety(s);
    assert KeyInv(s, s.listenfd);
    if s.listenfd in s.table {
      ListenerBits(s, r);
    }
  }

  /** A connection that the listener announces gets a fresh entry and an empty history; no
      other descriptor joins. */
  lemma OnlyTheAcceptedJoins(s: Server, r: Round, k: int)
    requires Reachable(s) && Step(s, r).Some? && k !in s.table
    ensures var t := Step(s, r).value;
            && (k in t.table <==> Announced(s, r) && r.env.accept == Conn(k))
            && (k in t.table ==> t.table[k] == PollFd(k, {IN, RDHUP, ERR}, {}))
            && Lookup(t.mapdata, k) == None
            && Lookup(t.log, k) == if k in t.table then Some(Log([], [], 0)) else None
  {
    TurnAt(s, r, k);
    AcceptsAnnounced(s, r);
  }

  /** The echo itself: what is read without a NUL in one turn and written out in the
      next has come back whole, and the client is read from again. */
  lemma MessageComesBack(s: Server, r: Round, u: Server, q: Round, t: Server, k: int, data: Bytes)
    requires Reachable(s) && Step(s, r) == Some(u) && Readable(s, r, k) && r.env.recv(k) == Got(data) && 0 !in data
    requires Step(u, q) == Some(t) && Writable(u, q, k) && q.env.send(k) == Sent(|data|)
    ensures k in s.log && k in t.log && k in t.table && t.table[k].events == {IN, RDHUP, ERR}
    ensures t.log[k].rx == s.log[k].rx + data && t.log[k].tx == s.log[k].tx + data
  {
    ReadServed(s, r, k, u);
    ReachableNext(s, r, u);
    WriteServed(u, q, k, t);
    WholeEcho(s, u, t, k, r.ready(k), q.ready(k), data);
  }

  lemma WholeEcho(s: Server, u: Server, t: Server, k: int, first: Mask, second: Mask, data: Bytes)
    requires WasRead(s, u, k, first, data) && 0 !in data && WasWritten(u, t, k, second, |data|)
    ensures t.log[k].rx == s.log[k].rx + data && t.log[k].tx == s.log[k].tx + data
  {
    assert u.mapdata[k] == data;
    assert data[..|data|] == data;
  }
}
