/** The handlers of one sub-reactor, proved to take the steps of the echo protocol. */
module EventLoops {
  import opened Bytes
  import opened Sockets
  import opened Connections
  import PoolProtocol
  import opened ConnectionPools
  import opened Echo

  /** The socket and connection after a read loop that last saw `ret` and `errno`. */
  ghost predicate Drained(c0: Conn, s0: Sock, c: Conn, s: Sock, ret: int, errno: Errno, now: int) {
    && Later(s0, s) && s.Ok() && s.sent == s0.sent && s0.room <= s.room
    && c == c0.(rbuf := c0.rbuf + s.taken[|s0.taken|..],
                heartbeat := if s.taken != s0.taken then now else c0.heartbeat,
                state := if ret > 0 || (ret < 0 && errno == EAGAIN) then c0.state else CLOSED)
    && -1 <= ret
    && (ret > 0 ==> s.taken != s0.taken)
    && (ret == 0 ==> s.fin && s.inbound == [])
    && (ret < 0 && errno == EAGAIN ==> s.inbound == [] && !s.fin && !s.broken)
    && (ret < 0 && errno == FATAL ==> s.broken)
    && (s0.broken ==> ret > 0 || (ret < 0 && errno == FATAL))
  }

  lemma DrainedOnce(c0: Conn, s0: Sock, c: Conn, s: Sock, ret: int, errno: Errno, now: int)
    requires Later(s0, s) && s.Ok() && s.sent == s0.sent && s0.room <= s.room
    requires RecvOutcome(c0, s0, c, s, ret, errno, now)
    ensures Drained(c0, s0, c, s, ret, errno, now)
    ensures s0.Ok() ==> |s.taken| <= |s0.written|
  {
  }

  lemma DrainedMore(c0: Conn, s0: Sock, c1: Conn, s1: Sock, ret1: int, e1: Errno,
                    c: Conn, s: Sock, ret: int, errno: Errno, now: int)
    requires s0.Ok() && Drained(c0, s0, c1, s1, ret1, e1, now) && ret1 > 0
    requires Later(s1, s) && s.Ok() && s.sent == s1.sent && s1.room <= s.room
    requires RecvOutcome(c1, s1, c, s, ret, errno, now)
    ensures Drained(c0, s0, c, s, ret, errno, now)
    ensures |s.taken| <= |s0.written|
    ensures if ret > 0 then |s1.taken| < |s.taken| else |s1.taken| == |s.taken|
  {
    LaterTransitive(s0, s1, s);
    assert s.taken[|s0.taken|..] == s1.taken[|s0.taken|..] + s.taken[|s1.taken|..];
  }

  /**
   The read loop of HandleRead. It ends, since what is in flight when the handler starts is finite;
   and it ends only on an empty queue, the end of the stream or an error.
   */
  method Drain(c: Connection, k: Kernel, now: int) returns (ret: int)
    requires c.Valid() && c.state != CLOSED && c.fd in k.socks && k.socks[c.fd].Ok()
    modifies c, c.readBuffer, k
    ensures c.Valid() && c.fd == old(c.fd) && c.writeBuffer == old(c.writeBuffer)
    ensures c.readBuffer == old(c.readBuffer) || fresh(c.readBuffer)
    ensures c.fd in k.socks && k.socks == old(k.socks)[c.fd := k.socks[c.fd]]
    ensures ret <= 0
    ensures Drained(old(c.Abs()), old(k.socks[c.fd]), c.Abs(), k.socks[c.fd], ret, k.errno, now)
  {
    hide Later, RecvOutcome, Connection.ReadGrowth, Connection.WriteGrowth, Sock.Ok;
    ghost var c0, s0, fd := c.Abs(), k.socks[c.fd], c.fd;
    ret := c.Recv(k, now);
    DrainedOnce(c0, s0, c.Abs(), k.socks[fd], ret, k.errno, now);
    while ret > 0
      invariant c.Valid() && c.fd == fd && c.writeBuffer == old(c.writeBuffer)
      invariant c.readBuffer == old(c.readBuffer) || fresh(c.readBuffer)
      invariant fd in k.socks && k.socks == old(k.socks)[fd := k.socks[fd]]
      invariant Drained(c0, s0, c.Abs(), k.socks[fd], ret, k.errno, now)
      invariant |k.socks[fd].taken| <= |s0.written|
      decreases |s0.written| - |k.socks[fd].taken|, if ret > 0 then 1 else 0
    {
      ghost var c1, s1, ret1, e1 := c.Abs(), k.socks[fd], ret, k.errno;
      ret := c.Recv(k, now);
      DrainedMore(c0, s0, c1, s1, ret1, e1, c.Abs(), k.socks[fd], ret, k.errno, now);
    }
  }

  /** A read event up to the point where the descriptor is re-armed (`keep`) or the connection dropped. */
  ghost predicate ReadServed(a: Link, b: Link, keep: bool, now: int) {
    && Carries(a.sock, b.sock) && SameSetup(a.sock, b.sock) && b.conn.fd == a.conn.fd
    && Sent(a, b) + b.conn.wbuf + b.conn.rbuf == a.conn.wbuf + a.conn.rbuf + Got(a, b)
    && b.conn.heartbeat == (if Got(a, b) != [] || Sent(a, b) != [] then now else a.conn.heartbeat)
    && (if keep then
          && b.conn.state == a.conn.state
          && b.conn.rbuf == []
          && a.sock.taken + a.sock.inbound <= b.sock.taken
          && !a.sock.fin && !a.sock.broken
          && (a.sock.room > 0 && a.conn.rbuf + Got(a, b) != [] ==> Sent(a, b) != [])
        else
          && b.conn.state == CLOSED && b.sock.sent == a.sock.sent
          && (b.sock.broken || (b.sock.fin && b.sock.taken == b.sock.written)))
  }

  /** The read loop ended the connection. */
  lemma DrainDrops(a: Link, b: Link, ret: int, errno: Errno, now: int)
    requires a.sock.Ok() && Drained(a.conn, a.sock, b.conn, b.sock, ret, errno, now)
    requires ret == 0 || (ret < 0 && errno == FATAL)
    ensures b.sock.Ok() && SameSetup(a.sock, b.sock) && b.conn.state == CLOSED
    ensures ReadServed(a, b, false, now)
  {
    assert b.sock.taken == a.sock.taken + Got(a, b);
    assert [] + b.conn.wbuf + b.conn.rbuf == a.conn.wbuf + a.conn.rbuf + Got(a, b);
    if ret == 0 && !b.sock.broken {
      assert b.sock.Stream() == b.sock.taken;
    }
  }

  /** The read loop emptied the queue and there is nothing to echo. */
  lemma DrainKeeps(a: Link, b: Link, now: int)
    requires a.sock.Ok() && Drained(a.conn, a.sock, b.conn, b.sock, -1, EAGAIN, now)
    requires b.conn.rbuf == []
    ensures b.sock.Ok() && SameSetup(a.sock, b.sock) && b.conn.state == a.conn.state
    ensures ReadServed(a, b, true, now)
  {
    assert b.sock.taken == a.sock.taken + Got(a, b);
    assert a.conn.rbuf == [] && Got(a, b) == [];
    assert b.sock.taken + b.sock.inbound == b.sock.taken;
  }

  /** The read loop emptied the queue, and what it read was appended and offered to send. */
  lemma DrainEchoes(a: Link, d: Link, b: Link, ret: int, errno: Errno, now: int)
    requires a.sock.Ok() && Drained(a.conn, a.sock, d.conn, d.sock, -1, EAGAIN, now)
    requires d.conn.rbuf != []
    requires Later(d.sock, b.sock) && b.sock.Ok() && b.sock.taken == d.sock.taken
    requires SendOutcome(d.conn.(wbuf := d.conn.wbuf + d.conn.rbuf, rbuf := []), d.sock, b.conn, b.sock,
                         ret, errno, now, false)
    ensures b.sock.Ok() && SameSetup(a.sock, b.sock)
    ensures b.conn.state == if ret < 0 && errno != EAGAIN then CLOSED else a.conn.state
    ensures ReadServed(a, b, !(ret < 0 && errno != EAGAIN), now)
  {
    var got := Got(a, d);
    LaterTransitive(a.sock, d.sock, b.sock);
    assert d.sock.taken + d.sock.inbound == d.sock.taken;
    assert Got(a, b) == got && d.conn.rbuf == a.conn.rbuf + got;
    var w := d.conn.wbuf + d.conn.rbuf;
    assert w == a.conn.wbuf + a.conn.rbuf + got;
    var n := if ret > 0 then ret else 0;
    assert w == w[..n] + w[n..];
    assert Sent(a, b) == w[..n];
    assert Sent(a, b) + b.conn.wbuf + [] == w;
  }

  /** HandleRead up to its last step. */
  method DrainAndEcho(c: Connection, k: Kernel, now: int, ghost ev: Event) returns (keep: bool)
    requires c.Valid() && c.state != CLOSED && c.fd in k.socks && k.socks[c.fd].Ok() && !k.zeroSends
    modifies c, c.readBuffer, c.writeBuffer, k
    ensures c.Valid() && c.fd == old(c.fd)
    ensures c.readBuffer == old(c.readBuffer) || fresh(c.readBuffer)
    ensures c.writeBuffer == old(c.writeBuffer) || fresh(c.writeBuffer)
    ensures c.fd in k.socks && k.socks == old(k.socks)[c.fd := k.socks[c.fd]]
    ensures k.socks[c.fd].Ok() && SameSetup(old(k.socks[c.fd]), k.socks[c.fd])
    ensures keep <==> c.state != CLOSED
    ensures ReadServed(Link(old(k.socks[c.fd]), old(c.Abs()), true, ev),
                       Link(k.socks[c.fd], c.Abs(), true, ev), keep, now)
  {
    hide Later, RecvOutcome, SendOutcome, ReadServed, Connection.ReadGrowth, Connection.WriteGrowth, Sock.Ok;
    ghost var a, fd := Link(k.socks[c.fd], c.Abs(), true, ev), c.fd;
    var ret := Drain(c, k, now);
    ghost var d := Link(k.socks[fd], c.Abs(), true, ev);
    if ret == 0 {
      DrainDrops(a, d, ret, k.errno, now);
      return false;
    }
    if ret < 0 && k.errno != EAGAIN {
      DrainDrops(a, d, ret, k.errno, now);
      return false;
    }
    var dataLen := c.readIdx;
    if dataLen > 0 {
      c.AppendWriteBuffer(c.readBuffer, dataLen);
      c.ConsumeReadBuffer(dataLen);
      var sendRet := c.Send(k, now);
      DrainEchoes(a, d, Link(k.socks[fd], c.Abs(), true, ev), sendRet, k.errno, now);
      if sendRet < 0 && k.errno != EAGAIN {
        return false;
      }
    } else {
      DrainKeeps(a, d, now);
    }
    keep := true;
  }

  lemma ReArmed(a: Link, m: Link, b: Link, now: int)
    requires ReadServed(a, m, true, now) && a.mapped && b.mapped && b.event == NoEvent && b.conn == m.conn
    requires b.sock.Ok() && Quietly(m.sock, b.sock.(arming := m.sock.arming))
    requires b.sock.arming == Armed(Mask(true, m.conn.wbuf != []))
    ensures ReadEvent(a, b, now)
  {
    assert Sent(a, b) == Sent(a, m) && Got(a, b) == Got(a, m);
  }

  lemma GaveUp(a: Link, m: Link, b: Link, now: int)
    requires ReadServed(a, m, false, now) && b.conn == m.conn && b.event == NoEvent && !b.mapped
    requires b.sock == m.sock.(arming := Off, epoll := NONE)
    ensures ReadEvent(a, b, now)
  {
    assert Sent(a, b) == Sent(a, m) && Got(a, b) == Got(a, m);
    assert b.sock.Stream() == m.sock.Stream();
  }

  // Write events

  lemma WriteGaveUp(a: Link, m: Link, b: Link, ret: int, now: int)
    requires a.sock.Ok() && Later(a.sock, m.sock) && m.sock.Ok() && m.sock.taken == a.sock.taken
    requires SendOutcome(a.conn, a.sock, m.conn, m.sock, ret, FATAL, now, false) && ret < 0
    requires b.conn == m.conn && b.event == NoEvent && !b.mapped
    requires b.sock == m.sock.(arming := Off, epoll := NONE)
    ensures WriteEvent(a, b, now)
  {
    assert Sent(a, b) == [];
    assert b.sock.Stream() == m.sock.Stream();
  }

  /** How the connection's state tells the outcomes of Send apart. */
  lemma SendStates(a: Link, m: Link, ret: int, errno: Errno, now: int, zeroSends: bool)
    requires SendOutcome(a.conn, a.sock, m.conn, m.sock, ret, errno, now, zeroSends) && !zeroSends
    ensures m.conn.state == if ret < 0 && errno != EAGAIN then CLOSED else a.conn.state
    ensures m.conn.fd == a.conn.fd
    ensures Later(a.sock, m.sock) ==> m.sock.epoll == a.sock.epoll
  {
  }

  lemma WriteBlocked(a: Link, b: Link, ret: int, now: int)
    requires a.sock.Ok() && Later(a.sock, b.sock) && b.sock.Ok() && b.sock.taken == a.sock.taken
    requires SendOutcome(a.conn, a.sock, b.conn, b.sock, ret, EAGAIN, now, false) && ret < 0
    requires b.mapped && b.event == NoEvent
    ensures WriteEvent(a, b, now)
  {
    assert Sent(a, b) == [];
  }

  lemma WriteReArmed(a: Link, m: Link, b: Link, ret: int, errno: Errno, now: int)
    requires a.sock.Ok() && Later(a.sock, m.sock) && m.sock.Ok() && m.sock.taken == a.sock.taken
    requires SendOutcome(a.conn, a.sock, m.conn, m.sock, ret, errno, now, false) && ret >= 0
    requires b.conn == m.conn.(heartbeat := now) && b.mapped && b.event == NoEvent
    requires b.sock.Ok() && Quietly(m.sock, b.sock.(arming := m.sock.arming))
    requires b.sock.arming == Armed(Mask(true, m.conn.wbuf != []))
    ensures WriteEvent(a, b, now)
  {
    LaterTransitive(a.sock, m.sock, b.sock.(arming := m.sock.arming));
    assert a.conn.wbuf == a.conn.wbuf[..ret] + a.conn.wbuf[ret..];
    assert Sent(a, b) == a.conn.wbuf[..ret];
  }

  // What the index sees of a handler

  lemma ReadTouches(a: Link, b: Link, now: int)
    requires ReadEvent(a, b, now)
    ensures b.mapped ==> b.conn.fd == a.conn.fd && b.conn.state == a.conn.state
    ensures b.conn.heartbeat ==
            if |b.sock.taken| > |a.sock.taken| || |b.sock.sent| > |a.sock.sent| then now else a.conn.heartbeat
  {
  }

  lemma WriteTouches(a: Link, b: Link, now: int)
    requires WriteEvent(a, b, now)
    ensures b.mapped ==> b.conn.fd == a.conn.fd && b.conn.state == a.conn.state
    ensures b.conn.heartbeat ==
            if b.mapped && (a.conn.wbuf == [] || |b.sock.sent| > |a.sock.sent|) then now else a.conn.heartbeat
  {
  }

  lemma IndexUntouched(pool: ConnectionPool, fd: int, now: int)
    requires pool.Valid()
    ensures PoolProtocol.Handled(pool.AsPool(), fd, now, pool.AsPool())
  {
  }

  lemma PoolUntouched(p: PoolProtocol.Pool, fd: int, now: int)
    ensures PoolProtocol.Handled(p, fd, now, p)
  {
  }

  /** An entry of the array epoll_wait fills. */
  datatype ReadyFd = ReadyFd(fd: int, error: bool, input: bool, output: bool)

  ghost function Union(m: map<int, set<object>>): set<object> {
    set fd, o | fd in m && o in m[fd] :: o
  }

  ghost predicate Disjoint(m: map<int, set<object>>) {
    forall f, g :: f in m && g in m && f != g ==> m[f] !! m[g]
  }

  /** One set may grow by elements that were in none of them. */
  lemma StillDisjoint(m: map<int, set<object>>, n: map<int, set<object>>, fd: int)
    requires Disjoint(m) && fd in m && fd in n && n == m[fd := n[fd]]
    requires (n[fd] - m[fd]) !! Union(m)
    ensures Disjoint(n)
    ensures Union(n) - Union(m) <= n[fd] - m[fd]
  {
    forall g | g in n && g != fd ensures n[g] !! n[fd] {
      assert forall o :: o in m[g] ==> o in Union(m) && o !in m[fd];
    }
  }

  /** The handler HandleEvents picks for an event: error first, then input, then output. */
  function Dispatch(error: bool, input: bool, output: bool): (ev: Event)
    ensures ev == Err <==> error
    ensures ev == In <==> !error && input
    ensures ev == Out <==> !error && !input && output
  {
    if error then Err else if input then In else if output then Out else NoEvent
  }

  /**
   The flags epoll_wait reports for an armed socket (an error always, the others when asked for) lead to
   the handler the echo protocol expects. So a socket that is both readable and writable is read.
   */
  lemma ReportedIsDeliverable(s: Sock, error: bool, input: bool, output: bool)
    requires s.arming.Armed?
    requires error <==> s.broken
    requires input <==> s.arming.mask.input && (s.inbound != [] || s.fin)
    requires output <==> s.arming.mask.output && s.room > 0
    ensures Dispatch(error, input, output) == Deliverable(s)
  {
  }

  /** What serving event `e` makes of the link `a` of its connection. */
  ghost predicate Served(a: Link, e: ReadyFd, b: Link, now: int) {
    var ev := Dispatch(e.error, e.input, e.output);
    if ev == NoEvent then b == a else Next(a.(event := ev), Handle(now), b)
  }

  /** What each handler does, by the flags of the event. */
  lemma FlagsServe(a: Link, e: ReadyFd, b: Link, now: int)
    requires a.mapped && a.event == NoEvent && b.event == NoEvent
    requires e.error ==> b == Dropped(a)
    requires !e.error && e.input ==> ReadEvent(a.(event := In), b, now)
    requires !e.error && !e.input && e.output ==> WriteEvent(a.(event := Out), b, now)
    requires !e.error && !e.input && !e.output ==> b == a
    ensures Served(a, e, b, now)
  {
    hide ReadEvent, WriteEvent;
  }

  /** What serving some events makes of the link `a` of connection `fd`. */
  ghost predicate AfterBatch(events: seq<ReadyFd>, fd: int, a: Link, b: Link, now: int) {
    && (forall e :: e in events && e.fd == fd ==> Served(a, e, b, now))
    && ((forall e :: e in events ==> e.fd != fd) ==> b == a)
  }

  /** epoll_wait reports each descriptor at most once. */
  ghost predicate OncePerFd(events: seq<ReadyFd>) {
    forall i, j :: 0 <= i < j < |events| ==> events[i].fd != events[j].fd
  }

  /** The first `n` events have been served; `start` and `links` are the connections before and now. */
  ghost predicate AllServed(events: seq<ReadyFd>, n: nat, start: map<int, Link>, links: map<int, Link>, now: int)
    requires n <= |events|
  {
    start.Keys == links.Keys && forall g :: g in start ==> AfterBatch(events[..n], g, start[g], links[g], now)
  }

  lemma NoneServed(events: seq<ReadyFd>, start: map<int, Link>, now: int)
    ensures AllServed(events, 0, start, start, now)
  {
  }

  /** An event not yet served finds its connection as it was when the batch began. */
  lemma StillToServe(events: seq<ReadyFd>, n: nat, start: map<int, Link>, links: map<int, Link>, now: int)
    requires OncePerFd(events) && n < |events| && AllServed(events, n, start, links, now)
    ensures events[n].fd in start ==> links[events[n].fd] == start[events[n].fd]
  {
    hide Served;
    assert forall e :: e in events[..n] ==> e.fd != events[n].fd;
  }

  lemma OneMoreServed(events: seq<ReadyFd>, n: nat, start: map<int, Link>, before: map<int, Link>,
                      after: map<int, Link>, now: int)
    requires OncePerFd(events) && n < |events| && AllServed(events, n, start, before, now)
    requires events[n].fd !in before ==> after == before
    requires events[n].fd in before ==>
      events[n].fd in after && after == before[events[n].fd := after[events[n].fd]]
      && Served(before[events[n].fd], events[n], after[events[n].fd], now)
    ensures AllServed(events, n + 1, start, after, now)
  {
    hide Served;
    var e := events[n];
    assert events[..n + 1] == events[..n] + [e];
    assert forall x :: x in events[..n + 1] <==> x in events[..n] || x == e;
    assert e in events[..n + 1];
    StillToServe(events, n, start, before, now);
  }

  /** Connection `c` holds what `conn` says and owns `repr`. */
  ghost predicate Holds(c: Connection, conn: Conn, repr: set<object>)
    reads c, c.readBuffer, c.writeBuffer
  {
    c.Valid() && c.Abs() == conn && c.Repr() == repr
  }

  lemma HeldOwns(a: Connection, x: Conn, p: set<object>)
    requires Holds(a, x, p)
    ensures a in p && a.readBuffer in p && a.writeBuffer in p
  {
  }

  /** Connection `c` shows as link `l` of the echo protocol, with no event pending, and owns `repr`. */
  ghost predicate Shows(k: Kernel, pool: ConnectionPool, c: Connection, fd: int, l: Link, repr: set<object>)
    reads k, pool, c, c.readBuffer, c.writeBuffer
  {
    && Holds(c, l.conn, repr) && fd in k.socks
    && l == Link(k.socks[fd], l.conn, fd in pool.connections && pool.connections[fd] == c, NoEvent)
  }

  class EventLoop {
    const id: int
    const pool: ConnectionPool
    const k: Kernel
    const mainReactor: bool

    constructor (id: int, pool: ConnectionPool, k: Kernel, mainReactor: bool)
      requires id != NONE
      ensures this.id == id && this.pool == pool && this.k == k && this.mainReactor == mainReactor
    {
      this.id, this.pool, this.k, this.mainReactor := id, pool, k, mainReactor;
    }

    /** What a handler finds: the pool in order, and `fd`, if mapped, a descriptor of this loop. */
    ghost predicate Ready(fd: int)
      reads this, k, pool, pool.members
    {
      && pool.Valid() && id != NONE && !k.zeroSends
      && (fd in pool.connections ==> fd in k.socks && k.socks[fd].Ok() && k.socks[fd].epoll == id)
    }

    /** The connection mapped at `fd`, as a link of the echo protocol. */
    ghost function LinkOf(c: Connection, fd: int, ev: Event): Link
      requires c.Valid() && fd in k.socks
      reads k, pool, c, c.readBuffer, c.writeBuffer
    {
      Link(k.socks[fd], c.Abs(), fd in pool.connections && pool.connections[fd] == c, ev)
    }

    /** RemoveFd, then RemoveConnection; false is the exception of a failing epoll_ctl. */
    method HandleError(fd: int) returns (ok: bool)
      requires pool.ValidExcept(fd) && id != NONE
      modifies k`socks, pool`connections
      modifies (if fd in pool.connections then {pool.connections[fd]} else {})`state
      modifies (if fd in pool.connections then {pool.connections[fd]} else {})`fd
      ensures ok <==> fd in old(k.socks) && old(k.socks[fd].epoll) == id
      ensures !ok ==> pool.connections == old(pool.connections) && k.socks == old(k.socks)
      ensures ok ==> pool.Valid() && pool.connections == old(pool.connections) - {fd}
      ensures fd !in old(pool.connections) ==> pool.connections == old(pool.connections)
      ensures ok && fd !in old(pool.connections) ==>
                k.socks == old(k.socks)[fd := old(k.socks[fd]).(arming := Off, epoll := NONE)]
      ensures ok && fd in old(pool.connections) ==> var c := old(pool.connections[fd]);
        && c.state == CLOSED
        && c.fd == (if old(c.state) == CLOSED then old(c.fd) else NONE)
        && k.socks == old(k.socks)[fd := old(k.socks[fd]).(arming := Off, epoll := NONE,
                                         open := old(c.state) == CLOSED && old(k.socks[fd].open))]
    {
      ok := k.Remove(id, fd);
      if !ok {
        return;
      }
      var removed := pool.RemoveConnection(k, fd);
    }

    /** Recv or Send have marked the connection closed: deregister it and forget it. */
    method GiveUp(c: Connection, fd: int) returns (ok: bool)
      requires id != NONE && pool.ValidExcept(fd) && fd in pool.connections && c == pool.connections[fd]
      requires c.Valid() && c.state == CLOSED
      requires fd in k.socks && k.socks[fd].epoll == id
      modifies k`socks, pool`connections, c`state, c`fd
      ensures ok && pool.Valid() && c.Valid()
      ensures pool.connections == old(pool.connections) - {fd}
      ensures c.Abs() == old(c.Abs())
      ensures k.socks == old(k.socks)[fd := old(k.socks[fd]).(arming := Off, epoll := NONE)]
    {
      ok := HandleError(fd);
    }

    method GiveUpReading(c: Connection, fd: int, ghost a: Link, now: int) returns (ok: bool)
      requires id != NONE && pool.ValidExcept(fd) && fd in pool.connections && c == pool.connections[fd]
      requires c.Valid() && c.state == CLOSED
      requires fd in k.socks && k.socks[fd].epoll == id
      requires ReadServed(a, LinkOf(c, fd, In), false, now)
      modifies k`socks, pool`connections, c`state, c`fd
      ensures ok && pool.Valid() && c.Valid()
      ensures pool.connections == old(pool.connections) - {fd}
      ensures fd in k.socks && k.socks == old(k.socks)[fd := k.socks[fd]]
      ensures ReadEvent(a, LinkOf(c, fd, NoEvent), now)
    {
      hide ReadServed, ReadEvent, ConnectionPool.ValidExcept, Connection.Valid;
      ghost var m := LinkOf(c, fd, In);
      ok := GiveUp(c, fd);
      GaveUp(a, m, LinkOf(c, fd, NoEvent), now);
    }

    method GiveUpWriting(c: Connection, fd: int, ghost a: Link, ghost sendLen: int, now: int) returns (ok: bool)
      requires id != NONE && pool.ValidExcept(fd) && fd in pool.connections && c == pool.connections[fd]
      requires c.Valid() && c.state == CLOSED
      requires fd in k.socks && k.socks[fd].epoll == id
      requires a.sock.Ok() && Later(a.sock, k.socks[fd]) && k.socks[fd].Ok() && k.socks[fd].taken == a.sock.taken
      requires SendOutcome(a.conn, a.sock, c.Abs(), k.socks[fd], sendLen, FATAL, now, false) && sendLen < 0
      modifies k`socks, pool`connections, c`state, c`fd
      ensures ok && pool.Valid() && c.Valid()
      ensures pool.connections == old(pool.connections) - {fd}
      ensures fd in k.socks && k.socks == old(k.socks)[fd := k.socks[fd]]
      ensures WriteEvent(a, LinkOf(c, fd, NoEvent), now)
    {
      hide Later, SendOutcome, WriteEvent, Sock.Ok, ConnectionPool.ValidExcept, Connection.Valid;
      ghost var m := LinkOf(c, fd, NoEvent);
      ok := GiveUp(c, fd);
      WriteGaveUp(a, m, LinkOf(c, fd, NoEvent), sendLen, now);
    }

    /** The connection goes on: re-arm it, for writing too when data is pending. */
    method ReArm(c: Connection, fd: int, ghost a: Link, now: int) returns (ok: bool)
      requires id != NONE && fd in pool.connections && c == pool.connections[fd] && c.Valid()
      requires fd in k.socks && k.socks[fd].epoll == id && k.socks[fd].Ok() && a.mapped
      requires ReadServed(a, Link(k.socks[fd], c.Abs(), true, In), true, now)
      modifies k`socks
      ensures ok
      ensures fd in k.socks && k.socks == old(k.socks)[fd := k.socks[fd]]
      ensures ReadEvent(a, LinkOf(c, fd, NoEvent), now)
    {
      hide Later, ReadServed, ReadEvent, Sock.Ok, Connection.ReadGrowth, Connection.WriteGrowth;
      ghost var m := Link(k.socks[fd], c.Abs(), true, In);
      assert c.HasPendingData() <==> m.conn.wbuf != [];
      ok := k.Modify(id, fd, Mask(true, c.HasPendingData()));
      ReArmed(a, m, LinkOf(c, fd, NoEvent), now);
    }

    method ServeRead(c: Connection, fd: int, now: int) returns (ok: bool)
      requires Ready(fd) && fd in pool.connections && c == pool.connections[fd] && c.Valid()
      modifies k, pool`connections, c, c.readBuffer, c.writeBuffer
      ensures ok && pool.Valid() && c.Valid()
      ensures c.readBuffer == old(c.readBuffer) || fresh(c.readBuffer)
      ensures c.writeBuffer == old(c.writeBuffer) || fresh(c.writeBuffer)
      ensures fd in k.socks && k.socks == old(k.socks)[fd := k.socks[fd]]
      ensures pool.connections == old(pool.connections) || pool.connections == old(pool.connections) - {fd}
      ensures ReadEvent(old(LinkOf(c, fd, In)), LinkOf(c, fd, NoEvent), now)
    {
      hide Later, ReadServed, ReadEvent, Sock.Ok, Connection.Valid;
      ghost var a := LinkOf(c, fd, In);
      var keep := DrainAndEcho(c, k, now, In);
      assert forall g :: g in pool.connections && g != fd ==> pool.connections[g] != c;
      if !keep {
        ok := GiveUpReading(c, fd, a, now);
        return;
      }
      ok := ReArm(c, fd, a, now);
    }

    /** A read event on a mapped descriptor is a read event of the echo protocol; on any other it is ignored. */
    method HandleRead(fd: int, now: int) returns (ok: bool)
      requires Ready(fd) && (fd in pool.connections ==> pool.connections[fd].Valid())
      modifies k, pool`connections
      modifies if fd in pool.connections
               then {pool.connections[fd], pool.connections[fd].readBuffer, pool.connections[fd].writeBuffer} else {}
      ensures ok && pool.Valid()
      ensures fd !in old(pool.connections) ==> k.socks == old(k.socks) && pool.connections == old(pool.connections)
      ensures fd in old(pool.connections) ==>
        var c := old(pool.connections[fd]);
        && c.Valid() && fd in k.socks && k.socks == old(k.socks)[fd := k.socks[fd]]
        && (c.readBuffer == old(pool.connections[fd].readBuffer) || fresh(c.readBuffer))
        && (c.writeBuffer == old(pool.connections[fd].writeBuffer) || fresh(c.writeBuffer))
        && (pool.connections == old(pool.connections) || pool.connections == old(pool.connections) - {fd})
        && ReadEvent(old(LinkOf(pool.connections[fd], fd, In)), LinkOf(c, fd, NoEvent), now)
      ensures PoolProtocol.Handled(old(pool.AsPool()), fd, now, pool.AsPool())
    {
      hide ReadEvent, PoolProtocol.Handled;
      ghost var before := pool.AsPool();
      var c := pool.GetConnection(fd);
      if c == null {
        PoolUntouched(before, fd, now);
        return true;
      }
      ghost var a := LinkOf(c, fd, In);
      ok := ServeRead(c, fd, now);
      ReadTouches(a, LinkOf(c, fd, NoEvent), now);
      OthersKeptHandled(pool, fd, before, now);
    }

    method ServeWrite(c: Connection, fd: int, now: int) returns (ok: bool)
      requires Ready(fd) && fd in pool.connections && c == pool.connections[fd] && c.Valid()
      modifies k, pool`connections, c, c.writeBuffer
      ensures ok && pool.Valid() && c.Valid()
      ensures c.readBuffer == old(c.readBuffer) && c.writeBuffer == old(c.writeBuffer)
      ensures fd in k.socks && k.socks == old(k.socks)[fd := k.socks[fd]]
      ensures pool.connections == old(pool.connections) || pool.connections == old(pool.connections) - {fd}
      ensures WriteEvent(old(LinkOf(c, fd, Out)), LinkOf(c, fd, NoEvent), now)
    {
      hide Later, SendOutcome, WriteEvent, Sock.Ok, Connection.Valid;
      ghost var a := LinkOf(c, fd, Out);
      var sendLen := c.Send(k, now);
      ghost var m := LinkOf(c, fd, NoEvent);
      SendStates(a, m, sendLen, k.errno, now, k.zeroSends);
      assert forall g :: g in pool.connections && g != fd ==> pool.connections[g] != c;
      if sendLen < 0 {
        if k.errno != EAGAIN {
          ok := GiveUpWriting(c, fd, a, sendLen, now);
          return;
        }
        WriteBlocked(a, m, sendLen, now);
        return true;
      }
      ok := FinishWrite(c, fd, a, m, sendLen, now);
    }

    /** Data went out, or none was pending: refresh the heartbeat and re-arm. */
    method FinishWrite(c: Connection, fd: int, ghost a: Link, ghost m: Link, ghost sendLen: int, now: int)
      returns (ok: bool)
      requires id != NONE && fd in pool.connections && c == pool.connections[fd] && c.Valid()
      requires fd in k.socks && k.socks[fd].epoll == id && k.socks[fd].Ok()
      requires m == LinkOf(c, fd, NoEvent)
      requires a.sock.Ok() && Later(a.sock, m.sock) && m.sock.taken == a.sock.taken
      requires SendOutcome(a.conn, a.sock, m.conn, m.sock, sendLen, k.errno, now, false) && sendLen >= 0
      modifies k`socks, c`lastHeartbeat
      ensures ok && c.Valid()
      ensures fd in k.socks && k.socks == old(k.socks)[fd := k.socks[fd]]
      ensures WriteEvent(a, LinkOf(c, fd, NoEvent), now)
    {
      hide Later, SendOutcome, WriteEvent, Sock.Ok, Connection.ReadGrowth, Connection.WriteGrowth;
      c.UpdateHeartbeat(now);
      assert c.HasPendingData() <==> m.conn.wbuf != [];
      var events := Mask(true, false);
      if c.HasPendingData() {
        events := events.(output := true);
      }
      ok := k.Modify(id, fd, events);
      WriteReArmed(a, m, LinkOf(c, fd, NoEvent), sendLen, k.errno, now);
    }

    /** A write event on a mapped descriptor is a write event of the echo protocol; on any other it is ignored. */
    method HandleWrite(fd: int, now: int) returns (ok: bool)
      requires Ready(fd) && (fd in pool.connections ==> pool.connections[fd].Valid())
      modifies k, pool`connections
      modifies if fd in pool.connections
               then {pool.connections[fd], pool.connections[fd].writeBuffer} else {}
      ensures ok && pool.Valid()
      ensures fd !in old(pool.connections) ==> k.socks == old(k.socks) && pool.connections == old(pool.connections)
      ensures fd in old(pool.connections) ==>
        var c := old(pool.connections[fd]);
        && c.Valid() && fd in k.socks && k.socks == old(k.socks)[fd := k.socks[fd]]
        && c.readBuffer == old(pool.connections[fd].readBuffer)
        && c.writeBuffer == old(pool.connections[fd].writeBuffer)
        && (pool.connections == old(pool.connections) || pool.connections == old(pool.connections) - {fd})
        && WriteEvent(old(LinkOf(pool.connections[fd], fd, Out)), LinkOf(c, fd, NoEvent), now)
      ensures PoolProtocol.Handled(old(pool.AsPool()), fd, now, pool.AsPool())
    {
      hide WriteEvent, PoolProtocol.Handled;
      ghost var before := pool.AsPool();
      var c := pool.GetConnection(fd);
      if c == null {
        PoolUntouched(before, fd, now);
        return true;
      }
      ghost var a := LinkOf(c, fd, Out);
      ok := ServeWrite(c, fd, now);
      WriteTouches(a, LinkOf(c, fd, NoEvent), now);
      OthersKeptHandled(pool, fd, before, now);
    }

    /**
     The body of the loop in HandleEvents, on a sub-reactor: an error drops the connection, else input is
     read, else output is written, else nothing happens. Only an error event for a descriptor this epoll
     instance does not hold makes epoll_ctl fail (`ok` false).
     */
    method HandleEvent(fd: int, error: bool, input: bool, output: bool, now: int) returns (ok: bool)
      requires Ready(fd) && (fd in pool.connections ==> pool.connections[fd].Valid()) && !mainReactor
      modifies k, pool`connections
      modifies if fd in pool.connections
               then {pool.connections[fd], pool.connections[fd].readBuffer, pool.connections[fd].writeBuffer} else {}
      ensures pool.Valid()
      ensures fd in old(pool.connections) ==>
        var c := old(pool.connections[fd]);
        && c.Valid() && fd in k.socks && k.socks == old(k.socks)[fd := k.socks[fd]]
        && (c.readBuffer == old(pool.connections[fd].readBuffer) || fresh(c.readBuffer))
        && (c.writeBuffer == old(pool.connections[fd].writeBuffer) || fresh(c.writeBuffer))
        && (pool.connections == old(pool.connections) || pool.connections == old(pool.connections) - {fd})
        && (error ==> LinkOf(c, fd, NoEvent) == Dropped(old(LinkOf(pool.connections[fd], fd, NoEvent))))
        && (!error && input ==> ReadEvent(old(LinkOf(pool.connections[fd], fd, In)), LinkOf(c, fd, NoEvent), now))
        && (!error && !input && output ==>
              WriteEvent(old(LinkOf(pool.connections[fd], fd, Out)), LinkOf(c, fd, NoEvent), now))
        && (!error && !input && !output ==> LinkOf(c, fd, NoEvent) == old(LinkOf(pool.connections[fd], fd, NoEvent)))
      ensures fd !in old(pool.connections) ==> pool.connections == old(pool.connections)
      ensures ok <==> !error || old(fd in k.socks && k.socks[fd].epoll == id)
      ensures !ok ==> k.socks == old(k.socks)
      ensures PoolProtocol.Handled(old(pool.AsPool()), fd, now, pool.AsPool())
      ensures k.socks.Keys == old(k.socks.Keys) && forall g :: g in k.socks && g != fd ==> k.socks[g] == old(k.socks[g])
    {
      hide ReadEvent, WriteEvent, ConnectionPool.ValidExcept, ConnectionPool.AsPool, PoolProtocol.Handled,
           Connection.Valid, Connection.Abs, Sock.Ok, Dropped;
      ok := true;
      if error {
        ok := DropOnError(fd, now);
      } else if input {
        ok := HandleRead(fd, now);
      } else if output {
        ok := HandleWrite(fd, now);
      } else {
        IndexUntouched(pool, fd, now);
      }
    }

    /** HandleError on a connection nobody has marked closed closes its descriptor. */
    method ServeError(c: Connection, fd: int) returns (ok: bool)
      requires Ready(fd) && fd in pool.connections && c == pool.connections[fd] && c.Valid()
      modifies k`socks, pool`connections, c`state, c`fd
      ensures ok && pool.Valid() && c.Valid()
      ensures pool.connections == old(pool.connections) - {fd}
      ensures c.Abs() == old(c.Abs()).(state := CLOSED, fd := NONE)
      ensures fd in k.socks && k.socks == old(k.socks)[fd := Shut(old(k.socks[fd]))]
    {
      ok := HandleError(fd);
    }

    method DropMapped(c: Connection, fd: int, ghost now: int) returns (ok: bool)
      requires Ready(fd) && fd in pool.connections && c == pool.connections[fd] && c.Valid()
      modifies k`socks, pool`connections, c`state, c`fd
      ensures ok && pool.Valid() && c.Valid()
      ensures pool.connections == old(pool.connections) - {fd}
      ensures fd in k.socks && k.socks == old(k.socks)[fd := k.socks[fd]]
      ensures LinkOf(c, fd, NoEvent) == Dropped(old(LinkOf(c, fd, NoEvent)))
      ensures PoolProtocol.Handled(old(pool.AsPool()), fd, now, pool.AsPool())
    {
      hide PoolProtocol.Handled, Connection.Valid, Sock.Ok;
      ghost var before := pool.AsPool();
      assert forall g :: g in pool.connections && g != fd ==> pool.connections[g] != c;
      ok := ServeError(c, fd);
      OthersKeptHandled(pool, fd, before, now);
    }

    method ErrorUnmapped(fd: int) returns (ok: bool)
      requires Ready(fd) && fd !in pool.connections
      modifies k`socks, pool`connections
      ensures pool.Valid() && pool.connections == old(pool.connections)
      ensures ok <==> old(fd in k.socks && k.socks[fd].epoll == id)
      ensures !ok ==> k.socks == old(k.socks)
      ensures k.socks.Keys == old(k.socks.Keys) && forall g :: g in k.socks && g != fd ==> k.socks[g] == old(k.socks[g])
    {
      hide Sock.Ok;
      ok := HandleError(fd);
    }

    method DropUnmapped(fd: int, ghost now: int) returns (ok: bool)
      requires Ready(fd) && fd !in pool.connections
      modifies k`socks, pool`connections
      ensures pool.Valid() && pool.connections == old(pool.connections)
      ensures ok <==> old(fd in k.socks && k.socks[fd].epoll == id)
      ensures !ok ==> k.socks == old(k.socks)
      ensures k.socks.Keys == old(k.socks.Keys) && forall g :: g in k.socks && g != fd ==> k.socks[g] == old(k.socks[g])
      ensures PoolProtocol.Handled(old(pool.AsPool()), fd, now, pool.AsPool())
    {
      hide PoolProtocol.Handled, Sock.Ok;
      ghost var before := pool.AsPool();
      ok := ErrorUnmapped(fd);
      NothingChanged(pool, before);
      PoolUntouched(before, fd, now);
    }

    method DropOnError(fd: int, ghost now: int) returns (ok: bool)
      requires Ready(fd) && (fd in pool.connections ==> pool.connections[fd].Valid())
      modifies k`socks, pool`connections
      modifies (if fd in pool.connections then {pool.connections[fd]} else {})`state
      modifies (if fd in pool.connections then {pool.connections[fd]} else {})`fd
      ensures pool.Valid()
      ensures fd !in old(pool.connections) ==> pool.connections == old(pool.connections)
      ensures ok <==> old(fd in k.socks && k.socks[fd].epoll == id)
      ensures !ok ==> k.socks == old(k.socks)
      ensures k.socks.Keys == old(k.socks.Keys) && forall g :: g in k.socks && g != fd ==> k.socks[g] == old(k.socks[g])
      ensures fd in old(pool.connections) ==>
        var c := old(pool.connections[fd]);
        && ok && c.Valid() && fd in k.socks && k.socks == old(k.socks)[fd := k.socks[fd]]
        && pool.connections == old(pool.connections) - {fd}
        && LinkOf(c, fd, NoEvent) == Dropped(old(LinkOf(pool.connections[fd], fd, NoEvent)))
      ensures PoolProtocol.Handled(old(pool.AsPool()), fd, now, pool.AsPool())
    {
      hide PoolProtocol.Handled, Connection.Valid, Connection.Abs, Sock.Ok, Dropped, ConnectionPool.ValidExcept,
           ConnectionPool.AsPool;
      var c := pool.GetConnection(fd);
      if c == null {
        ok := DropUnmapped(fd, now);
        return;
      }
      ok := DropMapped(c, fd, now);
    }

    method HandleMapped(c: Connection, e: ReadyFd, now: int)
      requires Ready(e.fd) && !mainReactor && e.fd in pool.connections && c == pool.connections[e.fd] && c.Valid()
      modifies k, pool`connections, c, c.readBuffer, c.writeBuffer
      ensures pool.Valid() && c.Valid()
      ensures e.fd in k.socks && k.socks == old(k.socks)[e.fd := k.socks[e.fd]]
      ensures pool.connections == old(pool.connections) || pool.connections == old(pool.connections) - {e.fd}
      ensures fresh(c.Repr() - old(c.Repr()))
      ensures Served(old(LinkOf(c, e.fd, NoEvent)), e, LinkOf(c, e.fd, NoEvent), now)
    {
      hide Served, ReadEvent, WriteEvent, Dropped, Connection.Valid, Connection.Abs, Sock.Ok,
           ConnectionPool.ValidExcept, ConnectionPool.AsPool, PoolProtocol.Handled;
      ghost var a := LinkOf(c, e.fd, NoEvent);
      var ok := HandleEvent(e.fd, e.error, e.input, e.output, now);
      FlagsServe(a, e, LinkOf(c, e.fd, NoEvent), now);
    }

    method HandleShown(c: Connection, e: ReadyFd, ghost l: Link, ghost r: set<object>, now: int)
      returns (ghost link: Link, ghost repr: set<object>)
      requires Ready(e.fd) && !mainReactor && e.fd in pool.connections && c == pool.connections[e.fd]
      requires Shows(k, pool, c, e.fd, l, r)
      modifies k, pool`connections, r
      ensures pool.Valid()
      ensures e.fd in k.socks && k.socks == old(k.socks)[e.fd := k.socks[e.fd]]
      ensures forall g :: g in pool.connections ==>
                g in old(pool.connections) && pool.connections[g] == old(pool.connections[g])
      ensures forall g :: g in old(pool.connections) && g != e.fd ==> g in pool.connections
      ensures Shows(k, pool, c, e.fd, link, repr)
      ensures Served(l, e, link, now) && fresh(repr - r)
    {
      hide Next, Served, Connection.Valid, Connection.Abs, Sock.Ok, ConnectionPool.ValidExcept;
      HandleMapped(c, e, now);
      link, repr := LinkOf(c, e.fd, NoEvent), c.Repr();
    }

    /** `a` owns nothing in `s`. */
    ghost predicate Outside(a: Connection, s: set<object>)
      reads a
    {
      a !in s && a.readBuffer !in s && a.writeBuffer !in s
    }

    /** Serving one event of a batch leaves every other connection, its buffers and its socket as they are. */
    method HandleBeside(e: ReadyFd, ghost conns: map<int, Connection>, ghost links: map<int, Link>,
                        ghost reprs: map<int, set<object>>, now: int)
      returns (ghost link: Link, ghost repr: set<object>)
      requires Ready(e.fd) && !mainReactor && conns.Keys == links.Keys == reprs.Keys && Disjoint(reprs)
      requires forall g :: g in conns ==> Shows(k, pool, conns[g], g, links[g], reprs[g])
      requires e.fd in conns && e.fd in pool.connections && pool.connections[e.fd] == conns[e.fd]
      modifies k, pool`connections, reprs[e.fd]
      ensures pool.Valid()
      ensures forall g :: g in pool.connections ==>
                g in old(pool.connections) && pool.connections[g] == old(pool.connections[g])
      ensures forall g :: g in old(pool.connections) && g != e.fd ==> g in pool.connections
      ensures Shows(k, pool, conns[e.fd], e.fd, link, repr)
      ensures Served(links[e.fd], e, link, now) && fresh(repr - reprs[e.fd])
      ensures forall g :: g in conns && g != e.fd ==> Holds(conns[g], links[g].conn, reprs[g])
      ensures e.fd in k.socks && k.socks == old(k.socks)[e.fd := k.socks[e.fd]]
    {
      var c := pool.connections[e.fd];
      hide Served, Holds, Sock.Ok, ConnectionPool.ValidExcept;
      forall g | g in conns && g != e.fd ensures Outside(conns[g], reprs[e.fd]) {
        HeldOwns(conns[g], links[g].conn, reprs[g]);
      }
      link, repr := HandleShown(c, e, links[e.fd], reprs[e.fd], now);
    }

    method HandleNext(e: ReadyFd, ghost conns: map<int, Connection>, ghost links: map<int, Link>,
                      ghost reprs: map<int, set<object>>, now: int)
      returns (ghost links': map<int, Link>, ghost reprs': map<int, set<object>>)
      requires Ready(e.fd) && !mainReactor && conns.Keys == links.Keys == reprs.Keys && Disjoint(reprs)
      requires forall g :: g in conns ==> Shows(k, pool, conns[g], g, links[g], reprs[g])
      requires forall g :: g in pool.connections ==> g in conns && conns[g] == pool.connections[g]
      requires e.fd in pool.connections
      modifies k, pool`connections, reprs[e.fd]
      ensures pool.Valid() && links'.Keys == reprs'.Keys == conns.Keys
      ensures links' == links[e.fd := links'[e.fd]] && reprs' == reprs[e.fd := reprs'[e.fd]]
      ensures forall g :: g in conns ==> Shows(k, pool, conns[g], g, links'[g], reprs'[g])
      ensures forall g :: g in pool.connections ==> g in conns && conns[g] == pool.connections[g]
      ensures Served(links[e.fd], e, links'[e.fd], now) && fresh(reprs'[e.fd] - reprs[e.fd])
    {
      hide Holds, Served, Disjoint, ConnectionPool.ValidExcept, Sock.Ok;
      ghost var link, repr := HandleBeside(e, conns, links, reprs, now);
      links', reprs' := links[e.fd := link], reprs[e.fd := repr];
    }

    /** An event of a descriptor that is not mapped changes no connection. */
    method HandleUnmapped(e: ReadyFd, ghost conns: map<int, Connection>, ghost links: map<int, Link>,
                          ghost reprs: map<int, set<object>>, now: int)
      returns (ok: bool)
      requires Ready(e.fd) && !mainReactor && conns.Keys == links.Keys == reprs.Keys
      requires forall g :: g in conns ==> Shows(k, pool, conns[g], g, links[g], reprs[g])
      requires e.fd !in conns && e.fd !in pool.connections
      modifies k, pool`connections
      ensures pool.Valid() && pool.connections == old(pool.connections)
      ensures ok <==> !e.error || old(e.fd in k.socks && k.socks[e.fd].epoll == id)
      ensures !ok ==> k.socks == old(k.socks)
      ensures forall g :: g in conns ==> Shows(k, pool, conns[g], g, links[g], reprs[g])
    {
      hide Connection.Valid, Connection.Abs, Connection.Repr, Sock.Ok, ConnectionPool.ValidExcept,
           ConnectionPool.AsPool, PoolProtocol.Handled;
      ok := HandleEvent(e.fd, e.error, e.input, e.output, now);
    }

    /** The objects stay apart. */
    method HandleApart(e: ReadyFd, ghost conns: map<int, Connection>, ghost links: map<int, Link>,
                       ghost reprs: map<int, set<object>>, now: int)
      returns (ghost links': map<int, Link>, ghost reprs': map<int, set<object>>)
      requires Ready(e.fd) && !mainReactor && conns.Keys == links.Keys == reprs.Keys && Disjoint(reprs)
      requires forall g :: g in conns ==> Shows(k, pool, conns[g], g, links[g], reprs[g])
      requires forall g :: g in pool.connections ==> g in conns && conns[g] == pool.connections[g]
      requires e.fd in pool.connections
      modifies k, pool`connections, Union(reprs)
      ensures pool.Valid() && Disjoint(reprs') && conns.Keys == links'.Keys == reprs'.Keys
      ensures forall g :: g in conns ==> Shows(k, pool, conns[g], g, links'[g], reprs'[g])
      ensures forall g :: g in pool.connections ==> g in conns && conns[g] == pool.connections[g]
      ensures links' == links[e.fd := links'[e.fd]] && Served(links[e.fd], e, links'[e.fd], now)
      ensures fresh(Union(reprs') - Union(reprs))
    {
      hide Served, Disjoint, Shows, ConnectionPool.ValidExcept, Connection.Valid, Sock.Ok;
      links', reprs' := HandleNext(e, conns, links, reprs, now);
      StillDisjoint(reprs, reprs', e.fd);
    }

    /** An error event for a descriptor that this epoll instance does not hold. */
    ghost predicate Refused(e: ReadyFd)
      reads k
    {
      e.error && !(e.fd in k.socks && k.socks[e.fd].epoll == id)
    }

    /** The next event of the batch. */
    method ServeAt(events: seq<ReadyFd>, n: nat, ghost conns: map<int, Connection>, ghost start: map<int, Link>,
                   ghost links: map<int, Link>, ghost reprs: map<int, set<object>>, now: int)
      returns (ok: bool, ghost links': map<int, Link>, ghost reprs': map<int, set<object>>)
      requires !mainReactor && id != NONE && !k.zeroSends && OncePerFd(events) && n < |events|
      requires pool.Valid() && Disjoint(reprs) && conns.Keys == start.Keys == links.Keys == reprs.Keys
      requires forall g :: g in conns ==> Shows(k, pool, conns[g], g, links[g], reprs[g])
      requires forall g :: g in pool.connections ==> g in conns && conns[g] == pool.connections[g]
      requires AllServed(events, n, start, links, now)
      requires events[n].fd in start ==>
        start[events[n].fd].mapped && start[events[n].fd].sock.epoll == id && start[events[n].fd].sock.Ok()
      modifies k, pool`connections, Union(reprs)
      ensures pool.Valid() && Disjoint(reprs') && conns.Keys == links'.Keys == reprs'.Keys
      ensures forall g :: g in conns ==> Shows(k, pool, conns[g], g, links'[g], reprs'[g])
      ensures forall g :: g in pool.connections ==> g in conns && conns[g] == pool.connections[g]
      ensures AllServed(events, if ok then n + 1 else n, start, links', now)
      ensures !ok ==> Refused(events[n]) && events[n].fd !in conns
      ensures fresh(Union(reprs') - Union(reprs))
    {
      hide Served, AllServed, Disjoint, Union, Connection.Valid, Sock.Ok, Connection.Abs, Connection.Repr,
           ConnectionPool.ValidExcept;
      var e := events[n];
      StillToServe(events, n, start, links, now);
      if e.fd in pool.connections {
        links', reprs' := HandleApart(e, conns, links, reprs, now);
        ok := true;
      } else {
        links', reprs' := links, reprs;
        ok := HandleUnmapped(e, conns, links, reprs, now);
      }
      if ok {
        OneMoreServed(events, n, start, links, links', now);
      }
    }

    /**
     HandleEvents on a sub-reactor. Each connection with an event takes its one step of the echo
     protocol, from the state it had when the batch began; every other connection stays as it is. Only
     the exception of an error event for a descriptor that is not mapped cuts the batch short.
     */
    method HandleEvents(events: seq<ReadyFd>, ghost start: map<int, Link>, ghost owned: map<int, set<object>>, now: int)
      returns (served: nat, ghost links: map<int, Link>, ghost reprs: map<int, set<object>>)
      requires !mainReactor && id != NONE && !k.zeroSends && OncePerFd(events) && pool.Valid()
      requires pool.connections.Keys == start.Keys == owned.Keys && Disjoint(owned)
      requires forall g :: g in pool.connections ==> Shows(k, pool, pool.connections[g], g, start[g], owned[g])
      requires forall e :: e in events && e.fd in start ==>
        start[e.fd].mapped && start[e.fd].sock.epoll == id && start[e.fd].sock.Ok()
      modifies k, pool`connections, Union(owned)
      ensures pool.Valid() && served <= |events| && links.Keys == reprs.Keys == start.Keys
      ensures forall g :: g in start ==> Shows(k, pool, old(pool.connections[g]), g, links[g], reprs[g])
      ensures Disjoint(reprs) && fresh(Union(reprs) - Union(owned))
      ensures forall g :: g in pool.connections ==> g in start && pool.connections[g] == old(pool.connections[g])
      ensures AllServed(events, served, start, links, now)
      ensures served < |events| ==> Refused(events[served]) && events[served].fd !in start
    {
      hide AllServed, Disjoint, Union, Shows, ConnectionPool.ValidExcept;
      ghost var conns := pool.connections;
      links, reprs := start, owned;
      served := 0;
      NoneServed(events, start, now);
      while served < |events|
        invariant served <= |events| && pool.Valid() && Disjoint(reprs) && conns.Keys == links.Keys == reprs.Keys
        invariant forall g :: g in conns ==> Shows(k, pool, conns[g], g, links[g], reprs[g])
        invariant forall g :: g in pool.connections ==> g in conns && conns[g] == pool.connections[g]
        invariant AllServed(events, served, start, links, now)
        invariant fresh(Union(reprs) - Union(owned))
      {
        var ok;
        ok, links, reprs := ServeAt(events, served, conns, start, links, reprs, now);
        if !ok {
          return;
        }
        served := served + 1;
      }
    }
  }
}
