/**
 The poll echo server's table as the source keeps it: an array scanned by an index
 while entries are deleted by moving the last one down and appended by accepting.
 The pass over it is proved to compute the order-free `Pass`.
 */
module PollServer {
  import opened Basics
  import opened PollTable

  ghost predicate Distinct(s: seq<int>) { forall a, b :: 0 <= a < b < |s| ==> s[a] != s[b] }

  lemma DistinctAppend(s: seq<int>, x: int)
    requires Distinct(s) && x !in s
    ensures Distinct(s + [x]) && forall k :: k in s + [x] <==> k in s || k == x
  {
  }

  class EchoServer {
    const listenfd: int
    const fds: array<PollFd>
    var conncount: int
    var mapdata: map<int, Bytes>

    /** Histories, and where each descriptor sits in the array. */
    ghost var log: map<int, Log>
    ghost var at: map<int, nat>

    /** The first conncount + 1 entries hold pairwise distinct descriptors; the listener,
        while it is in the table, sits at index 0. */
    ghost predicate Valid()
      reads this, fds
    {
      && fds.Length == CLIENTSIZE && 0 <= conncount + 1 <= CLIENTSIZE
      && (forall k :: k in at ==> at[k] <= conncount && fds[at[k]].fd == k)
      && (forall j :: 0 <= j <= conncount ==> fds[j].fd in at && at[fds[j].fd] == j)
      && (listenfd in at ==> at[listenfd] == 0)
      && |at.Keys| == conncount + 1
    }

    ghost function Table(): map<int, PollFd>
      reads this, fds
      requires Valid()
    {
      map k | k in at :: fds[at[k]]
    }

    ghost function View(): Server
      reads this, fds
      requires Valid()
    {
      Server(listenfd, Table(), mapdata, log)
    }

    constructor (lfd: int)
      ensures Valid() && View() == Start(lfd)
      ensures fresh(fds)
    {
      listenfd := lfd;
      fds := new PollFd[CLIENTSIZE](_ => PollFd(lfd, {IN, ERR}, {}));
      conncount := 0;
      mapdata := map[];
      log := map[];
      at := map[lfd := 0];
      new;
      assert at.Keys == {lfd};
    }

    /** What is known of descriptor k while the scan stands at index i of a pass that
        started in `s`. */
    ghost predicate Visited(s: Server, i: int, k: int)
      reads this
    {
      k in s.table && (k !in at || at[k] < i)
    }

    ghost function VisitedSet(s: Server, i: int): set<int>
      reads this
    {
      set k | k in s.table && Visited(s, i, k)
    }

    ghost predicate EntryOk(s: Server, env: Env, i: int, k: int)
      reads this, fds
      requires Valid()
    {
      && (k in at ==>
           if k !in s.table then Joins(s, env, k) && fds[at[k]] == Fresh(k) && i > 0
           else if at[k] < i then !Drops(s.table[k]) && fds[at[k]] == EntryAfter(listenfd, s.table[k], env)
           else fds[at[k]] == s.table[k])
      && (k !in at && k in s.table ==> Drops(s.table[k]))
      && (k !in at && Joins(s, env, k) ==> i == 0)
      && (Visited(s, i, k) ==> !Fatal(listenfd, s.table[k], env))
      && Lookup(mapdata, k) == (if Visited(s, i, k) then DataAfter(s, env, k) else Lookup(s.mapdata, k))
      && Lookup(log, k) == (if Visited(s, i, k) || (k in at && k !in s.table) then LogAfter(s, env, k)
                            else Lookup(s.log, k))
    }

    ghost predicate PassInv(s: Server, env: Env, i: int)
      reads this, fds
    {
      && Valid() && s.listenfd == listenfd && 0 <= i <= conncount + 1
      && (i == 0 ==> conncount < |s.table|)
      && forall k :: EntryOk(s, env, i, k)
    }

    /** What the pass finds at index i. */
    lemma Current(s: Server, env: Env, i: int)
      requires PassInv(s, env, i) && i <= conncount
      ensures var k := fds[i].fd;
              if k in s.table then fds[i] == s.table[k]
              else fds[i] == Fresh(k) && i > 0
    {
      assert EntryOk(s, env, i, fds[i].fd);
    }

    /** Move the last entry into place i: only descriptor fds[i].fd disappears, and
        nobody crosses index i. */
    method Remove(i: int)
      requires Valid() && 0 <= i <= conncount
      modifies this`conncount, this`at, fds
      ensures Valid() && conncount == old(conncount) - 1
      ensures forall k :: k in at <==> k in old(at) && k != old(fds[i].fd)
      ensures forall k :: k in at ==> fds[at[k]] == old(fds[at[k]]) && (at[k] < i <==> old(at[k]) < i)
    {
      ghost var fd := fds[i].fd;
      ghost var keys := at.Keys;
      at := at[fds[conncount].fd := i] - {fd};
      assert at.Keys == keys - {fd};
      fds[i] := fds[conncount];
      conncount := conncount - 1;
    }

    /** Delete entry i. */
    method Drop(ghost s: Server, ghost env: Env, i: int)
      requires PassInv(s, env, i) && i <= conncount && Drops(fds[i])
      modifies this`conncount, this`mapdata, this`log, this`at, fds
      ensures PassInv(s, env, i) && conncount == old(conncount) - 1
      ensures forall k :: Visited(s, i, k) <==> old(Visited(s, i, k)) || k == old(fds[i].fd)
      ensures old(fds[i].fd) in s.table && !old(Visited(s, i, fds[i].fd))
    {
      Current(s, env, i);
      var fd := fds[i].fd;
      assert EntryOk(s, env, i, fd);
      Remove(i);
      mapdata := mapdata - {fd};
      log := log - {fd};
      forall k ensures EntryOk(s, env, i, k) {
        assert old(EntryOk(s, env, i, k));
      }
    }

    /** Write behind the last entry, which changes nothing yet. */
    method WriteNext(e: PollFd)
      requires Valid() && conncount + 1 < CLIENTSIZE
      modifies fds
      ensures Valid() && fds[conncount + 1] == e
      ensures forall j :: 0 <= j <= conncount ==> fds[j] == old(fds[j])
    {
      fds[conncount + 1] := e;
    }

    /** Put a new descriptor behind the last entry; everybody else stays. */
    method Insert(fd: int)
      requires Valid() && fd !in at && fd != listenfd && conncount + 1 < CLIENTSIZE && conncount >= 0
      modifies this`conncount, this`at, fds
      ensures Valid() && conncount == old(conncount) + 1 && at == old(at)[fd := conncount]
      ensures fds[conncount] == Fresh(fd)
      ensures forall k :: k in old(at) ==> at[k] == old(at[k]) <= old(conncount) && fds[at[k]] == old(fds[at[k]])
    {
      WriteNext(Fresh(fd));
      ghost var keys := at.Keys;
      conncount := conncount + 1;
      at := at[fd := conncount];
      assert at.Keys == keys + {fd};
    }

    /** Append the accepted connection with nothing reported yet. */
    method Append(ghost s: Server, env: Env, i: int)
      requires PassInv(s, env, i) && i <= conncount && !Drops(fds[i])
      requires fds[i].fd == listenfd && IN in fds[i].revents
      requires env.accept.Conn? && env.accept.fd !in s.table && |s.table| < CLIENTSIZE
      modifies this`conncount, this`log, this`at, fds
      ensures PassInv(s, env, i + 1) && conncount == old(conncount) + 1
      ensures i == 0 && listenfd in s.table && !old(Visited(s, i, listenfd))
      ensures forall k :: Visited(s, i + 1, k) <==> old(Visited(s, i, k)) || k == listenfd
    {
      Current(s, env, i);
      assert EntryOk(s, env, i, listenfd) && EntryOk(s, env, i, env.accept.fd);
      Insert(env.accept.fd);
      log := log[env.accept.fd := Log([], [], 0)];
      ghost var n := i + 1;
      forall k ensures EntryOk(s, env, n, k) {
        assert old(EntryOk(s, env, i, k));
      }
    }

    /** Overwrite entry i, keeping its descriptor. */
    method SetEntry(i: int, e: PollFd)
      requires Valid() && 0 <= i <= conncount && e.fd == fds[i].fd
      modifies fds
      ensures Valid() && fds[i] == e
      ensures forall j :: 0 <= j < CLIENTSIZE && j != i ==> fds[j] == old(fds[j])
    {
      fds[i] := e;
    }

    /** Leave entry i with new events, and its descriptor with the given string and
        history, all as specified for it. */
    method Store(ghost s: Server, ghost env: Env, i: int, fd: int, events: Mask,
                 data: Option<Bytes>, ghost past: Option<Log>)
      requires PassInv(s, env, i) && i <= conncount && fds[i].fd == fd
      requires fd in s.table && !Drops(s.table[fd]) && !Fatal(listenfd, s.table[fd], env)
      requires i == 0 ==> !Accepts(s)
      requires fds[i].(events := events) == EntryAfter(listenfd, s.table[fd], env)
      requires data == DataAfter(s, env, fd) && (data == None ==> fd !in mapdata)
      requires past == LogAfter(s, env, fd) && (past == None ==> fd !in log)
      modifies this`mapdata, this`log, fds
      ensures PassInv(s, env, i + 1) && conncount == old(conncount)
      ensures forall k :: Visited(s, i + 1, k) <==> old(Visited(s, i, k)) || k == fd
    {
      SetEntry(i, fds[i].(events := events));
      mapdata := if data.Some? then mapdata[fd := data.value] else mapdata;
      log := if past.Some? then log[fd := past.value] else log;
      ghost var n := i + 1;
      forall k
        ensures EntryOk(s, env, n, k)
        ensures Visited(s, n, k) <==> old(Visited(s, i, k)) || k == fd
      {
        assert old(EntryOk(s, env, i, k)) && old(EntryOk(s, env, i, fd));
        assert at[fd] == i && (k in at ==> fds[at[k]].fd == k);
        if k != fd {
          assert Lookup(mapdata, k) == Lookup(old(mapdata), k) && Lookup(log, k) == Lookup(old(log), k);
        }
      }
    }

    /** Read from entry i. */
    method Read(ghost s: Server, env: Env, i: int)
      requires PassInv(s, env, i) && i <= conncount && !Drops(fds[i])
      requires TakesRecv(listenfd, fds[i]) && env.recv(fds[i].fd) != RecvError
      modifies this`mapdata, this`log, fds
      ensures PassInv(s, env, i + 1) && conncount == old(conncount)
      ensures old(fds[i].fd) in s.table && !old(Visited(s, i, fds[i].fd))
      ensures forall k :: Visited(s, i + 1, k) <==> old(Visited(s, i, k)) || k == old(fds[i].fd)
    {
      Current(s, env, i);
      var fd := fds[i].fd;
      assert EntryOk(s, env, i, fd) && EntryOk(s, env, i, listenfd);
      var data := Lookup(mapdata, fd);
      var events := fds[i].events;
      if env.recv(fd).Got? {
        data := Some(CStr(env.recv(fd).data));
        events := events - {IN} + {OUT};
      }
      Store(s, env, i, fd, events, data, LogAfter(s, env, fd));
    }

    /** Write the stored string to entry i; operator[] makes an empty one if there is none. */
    method Write(ghost s: Server, env: Env, i: int)
      requires PassInv(s, env, i) && i <= conncount && !Drops(fds[i])
      requires TakesSend(fds[i]) && env.send(fds[i].fd) != SendError
      modifies this`mapdata, this`log, fds
      ensures PassInv(s, env, i + 1) && conncount == old(conncount)
      ensures old(fds[i].fd) in s.table && !old(Visited(s, i, fds[i].fd))
      ensures forall k :: Visited(s, i + 1, k) <==> old(Visited(s, i, k)) || k == old(fds[i].fd)
    {
      Current(s, env, i);
      var fd := fds[i].fd;
      assert EntryOk(s, env, i, fd) && EntryOk(s, env, i, listenfd);
      var data := if fd in mapdata then mapdata[fd] else [];
      var events := fds[i].events;
      if env.send(fd).Sent? {
        events := events - {OUT} + {IN};
      }
      Store(s, env, i, fd, events, Some(data), LogAfter(s, env, fd));
    }

    lemma SkipKey(s: Server, env: Env, i: int, k: int)
      requires Valid() && s.listenfd == listenfd && 0 <= i <= conncount
      requires EntryOk(s, env, i, k) && EntryOk(s, env, i, listenfd)
      requires !Drops(fds[i]) && IN !in fds[i].revents && OUT !in fds[i].revents
      requires fds[i].fd in s.table ==> fds[i] == s.table[fds[i].fd]
      ensures EntryOk(s, env, i + 1, k)
    {
    }

    /** Nothing to do for entry i. */
    lemma Skip(s: Server, env: Env, i: int)
      requires PassInv(s, env, i) && i <= conncount && !Drops(fds[i])
      requires IN !in fds[i].revents && OUT !in fds[i].revents
      ensures PassInv(s, env, i + 1)
      ensures forall k :: Visited(s, i + 1, k) <==> Visited(s, i, k) || (k == fds[i].fd && k in s.table)
      ensures !Visited(s, i, fds[i].fd)
    {
      Current(s, env, i);
      assert EntryOk(s, env, i, listenfd);
      var n := i + 1;
      forall k ensures EntryOk(s, env, n, k) {
        assert EntryOk(s, env, i, k);
        SkipKey(s, env, i, k);
      }
    }

    /** When the scan has reached the end, the fields hold the specified pass. */
    lemma Complete(s: Server, env: Env)
      requires PassInv(s, env, conncount + 1)
      ensures View() == Pass(s, env) && !SomeFatal(s, env)
    {
      ghost var n := conncount + 1;
      var t := Pass(s, env);
      forall k
        ensures Lookup(Table(), k) == Lookup(t.table, k)
        ensures Lookup(mapdata, k) == Lookup(t.mapdata, k)
        ensures Lookup(log, k) == Lookup(t.log, k)
        ensures k in s.table ==> !Fatal(s.listenfd, s.table[k], env)
      {
        assert EntryOk(s, env, n, k) && EntryOk(s, env, n, listenfd);
        assert Lookup(t.table, k) == TableAfter(s, env, k);
        assert Lookup(t.mapdata, k) == DataAfter(s, env, k);
        assert Lookup(t.log, k) == LogAfter(s, env, k);
      }
      SameLookups(Table(), t.table);
      SameLookups(mapdata, t.mapdata);
      SameLookups(log, t.log);
    }

    lemma Begin(s: Server, env: Env)
      requires Valid() && s == View()
      ensures PassInv(s, env, 0) && forall k :: !Visited(s, 0, k)
    {
      assert s.table.Keys == at.Keys;
      forall k ensures EntryOk(s, env, 0, k) {
        assert k in s.table <==> k in at;
      }
    }

    /** The branches of the loop body; `last` is i, or i - 1 after a deletion. */
    method Handle(ghost s: Server, env: Env, i: int) returns (alive: bool, last: int)
      requires PassInv(s, env, i) && i <= conncount
      requires env.accept.Conn? && Accepts(s) ==> env.accept.fd !in s.table && |s.table| < CLIENTSIZE
      modifies this`conncount, this`mapdata, this`log, this`at, fds
      ensures !alive ==> SomeFatal(s, env)
      ensures alive ==> PassInv(s, env, last + 1)
      ensures alive ==> !old(Visited(s, i, fds[i].fd))
      ensures alive ==> VisitedSet(s, last + 1) ==
                          old(VisitedSet(s, i)) + (if old(fds[i].fd) in s.table then {old(fds[i].fd)} else {})
      ensures alive ==> (last == i && (i == 0 || conncount == old(conncount)))
                        || (last == i - 1 && conncount == old(conncount) - 1)
    {
      var e := fds[i];
      Current(s, env, i);
      if Drops(e) {
        Drop(s, env, i);
        return true, i - 1;
      } else if e.fd == listenfd && IN in e.revents {
        if env.accept == AcceptError {
          assert Fatal(s.listenfd, s.table[e.fd], env);
          return false, i;
        }
        Append(s, env, i);
      } else if IN in e.revents {
        if env.recv(e.fd) == RecvError {
          assert Fatal(s.listenfd, s.table[e.fd], env);
          return false, i;
        }
        Read(s, env, i);
      } else if OUT in e.revents {
        if env.send(e.fd) == SendError {
          assert Fatal(s.listenfd, s.table[e.fd], env);
          return false, i;
        }
        Write(s, env, i);
      } else {
        Skip(s, env, i);
      }
      return true, i;
    }

    /** The for loop over fds after poll returned.  `alive` is false where the source
        exits; `handled` lists the polled descriptors in the order they were handled. */
    method RunPass(env: Env) returns (alive: bool, ghost handled: seq<int>)
      requires Valid()
      requires env.accept.Conn? && Accepts(View()) ==> env.accept.fd !in Table() && |Table()| < CLIENTSIZE
      modifies this`conncount, this`mapdata, this`log, this`at, fds
      ensures alive <==> !SomeFatal(old(View()), env)
      ensures alive ==> Valid() && View() == Pass(old(View()), env)
      ensures alive ==> forall k :: k in handled <==> k in old(Table())
      ensures alive ==> Distinct(handled)
    {
      ghost var s := View();
      handled := [];
      var i := 0;
      Begin(s, env);
      while i < conncount + 1
        invariant PassInv(s, env, i)
        invariant forall k :: k in handled <==> k in VisitedSet(s, i)
        invariant Distinct(handled)
        decreases if i == 0 then 1 else 0, conncount + 1 - i
      {
        ghost var fd := fds[i].fd;
        var last;
        alive, last := Handle(s, env, i);
        if !alive {
          return;
        }
        if fd in s.table {
          DistinctAppend(handled, fd);
          handled := handled + [fd];
        }
        i := last + 1;
      }
      Complete(s, env);
      alive := true;
    }

    lemma PolledTable(s: Server, ready: int -> Mask)
      requires Valid() && s.table.Keys == at.Keys
      requires forall j :: 0 <= j <= conncount ==>
                 fds[j].fd in s.table && fds[j] == s.table[fds[j].fd].(revents := ready(fds[j].fd))
      ensures Table() == Polled(s, ready).table
    {
      var polled := Polled(s, ready).table;
      assert polled.Keys == at.Keys;
      forall k | k in at ensures Table()[k] == polled[k] {
        assert fds[at[k]].fd == k;
      }
    }

    /** The kernel fills in revents for the polled entries. */
    method Poll(ready: int -> Mask)
      requires Valid()
      modifies fds
      ensures Valid() && View() == Polled(old(View()), ready)
    {
      ghost var s := View();
      assert s.table.Keys == at.Keys;
      for i := 0 to conncount + 1
        invariant Valid()
        invariant forall j :: 0 <= j <= conncount ==> fds[j].fd in s.table
        invariant forall j :: 0 <= j < i ==> fds[j] == s.table[fds[j].fd].(revents := ready(fds[j].fd))
        invariant forall j :: i <= j <= conncount ==> fds[j] == s.table[fds[j].fd]
      {
        SetEntry(i, fds[i].(revents := ready(fds[i].fd)));
      }
      PolledTable(s, ready);
    }

    /** One turn of the server's loop is one step of the transition system. */
    method Turn(r: Round) returns (alive: bool)
      requires Valid() && Legal(View(), r)
      modifies this`conncount, this`mapdata, this`log, this`at, fds
      ensures alive ==> Valid() && Step(old(View()), r) == Some(View())
      ensures !alive ==> Step(old(View()), r) == None
    {
      ghost var s := View();
      Poll(r.ready);
      assert Polled(s, r.ready).table.Keys == s.table.Keys;
      ghost var handled;
      alive, handled := RunPass(r.env);
    }
  }
}
