/**
 The server as a whole: accept rounds, batches of the sub-reactors and heartbeat sweeps, in any order,
 with the peers and the network at work in between, keep every mapped connection in the echo protocol.
 */
module Systems {
  import opened Sockets
  import opened Connections
  import opened ConnectionPools
  import PoolProtocol
  import opened Echo
  import opened EventLoops
  import opened IOThreadPools
  import opened Servers

  function Quiet(l: Link): Link {
    l.(event := NoEvent)
  }

  function Quieted(links: map<int, Link>): (m: map<int, Link>)
    ensures m.Keys == links.Keys
  {
    map fd | fd in links :: Quiet(links[fd])
  }

  /**
   A mapped connection: filed under its descriptor, registered with one of the loops, open, and in a state
   the echo theorems speak about, with the event epoll_wait has returned for it and nobody served yet.
   */
  ghost predicate Fit(l: Link, fd: int, ids: set<int>) {
    l.mapped && Inv(l) && l.conn.fd == fd && l.sock.epoll in ids
  }

  ghost predicate Sound(links: map<int, Link>, ids: set<int>) {
    forall fd :: fd in links ==> Fit(links[fd], fd, ids)
  }

  /** What Sound means for a connection: nothing lost or reordered, and nothing stranded. */
  lemma SoundMeans(links: map<int, Link>, ids: set<int>, fd: int)
    requires Sound(links, ids) && fd in links
    ensures var l := links[fd];
      && l.sock.open && l.conn.state == CONNECTED && l.conn.rbuf == []
      && l.sock.taken == l.sock.sent + l.conn.wbuf
      && l.sock.sent <= l.sock.taken <= l.sock.written
      && (l.event == NoEvent && Deliverable(l.sock) == NoEvent ==>
            && l.sock.inbound == [] && !l.sock.fin && !l.sock.broken
            && (l.conn.wbuf == [] || l.sock.room == 0))
  {
    var l := links[fd];
    assert Fit(l, fd, ids);
    assert l.sock.sent + l.conn.wbuf + [] == l.sock.sent + l.conn.wbuf;
    assert l.sock.taken + l.sock.inbound + l.sock.network == l.sock.written;
  }

  /** Time passing between two system calls, in the kernel's terms, is a step of peer and network. */
  lemma QuietlyIsEnvironment(a: Sock, b: Sock)
    requires a.Ok() && b.Ok() && Quietly(a, b)
    ensures Environment(a, b)
  {
    assert a.inbound <= b.inbound by {
      assert a.taken + a.inbound <= a.taken + b.inbound;
      assert (a.taken + a.inbound)[|a.taken|..] == a.inbound && (a.taken + b.inbound)[|a.taken|..] == b.inbound;
    }
  }

  /** The peer, the network, and epoll_wait returning an event keep the server sound. */
  lemma WireKeepsSound(links: map<int, Link>, ids: set<int>, fd: int, st: Step, l: Link)
    requires Sound(links, ids) && fd in links && (st == Env || st == Deliver) && Next(links[fd], st, l)
    ensures Sound(links[fd := l], ids)
  {
    StepKeepsInv(links[fd], st, l);
    assert Fit(links[fd], fd, ids);
  }

  lemma RestDisjoint(m: map<int, set<object>>, n: map<int, set<object>>)
    requires Disjoint(m) && n.Keys <= m.Keys && forall g :: g in n ==> n[g] == m[g]
    ensures Disjoint(n)
  {
  }

  // Accepting

  /** The links after an accept round: those there were, with their events, and the new ones. */
  function Joined(links: map<int, Link>, quiet: map<int, Link>): (m: map<int, Link>)
    ensures m.Keys == quiet.Keys
  {
    map fd | fd in quiet :: if fd in links then links[fd] else quiet[fd]
  }

  lemma JoinedSound(server: Server, links: map<int, Link>, quiet: map<int, Link>, taken: seq<int>, first: nat, now: int)
    requires Sound(links, Ids(server)) && server.Grown(Quieted(links), quiet, taken, first, now)
    requires |server.ioThreadPool.loops| > 0 && forall fd :: fd in quiet ==> quiet[fd].conn.fd == fd
    ensures Sound(Joined(links, quiet), Ids(server))
    ensures forall fd :: fd in quiet ==> Quiet(Joined(links, quiet)[fd]) == quiet[fd]
  {
    var after := Joined(links, quiet);
    forall fd | fd in quiet ensures Fit(after[fd], fd, Ids(server)) && Quiet(after[fd]) == quiet[fd] {
      if fd in links {
        assert Fit(links[fd], fd, Ids(server));
        assert quiet[fd] == Quieted(links)[fd];
      } else {
        assert fd in taken;
        var i :| 0 <= i < |taken| && taken[i] == fd;
        assert server.Started(quiet, taken[i], first + i, now);
      }
    }
  }

  /** The epoll instances of the sub-reactors. */
  ghost function Ids(server: Server): set<int> {
    set i | 0 <= i < |server.ioThreadPool.loops| :: server.ioThreadPool.loops[i].id
  }

  lemma OpenIfSound(server: Server, links: map<int, Link>, reprs: map<int, set<object>>)
    requires Sound(links, Ids(server)) && links.Keys == reprs.Keys == server.pool.connections.Keys
    requires forall g :: g in server.pool.connections ==>
      Shows(server.k, server.pool, server.pool.connections[g], g, Quieted(links)[g], reprs[g])
    ensures server.Open()
  {
    forall g | g in server.pool.connections ensures g in server.k.socks && server.k.socks[g].open {
      assert Fit(links[g], g, Ids(server));
    }
  }

  /** Where a connection is filed. */
  lemma FiledIfShown(server: Server, quiet: map<int, Link>, reprs: map<int, set<object>>)
    requires server.pool.Valid() && quiet.Keys == reprs.Keys == server.pool.connections.Keys
    requires forall g :: g in server.pool.connections ==>
      Shows(server.k, server.pool, server.pool.connections[g], g, quiet[g], reprs[g])
    ensures forall g :: g in quiet ==> quiet[g].conn.fd == g
  {
  }

  method AcceptRound(server: Server, now: int, ghost links: map<int, Link>, ghost reprs: map<int, set<object>>)
    returns (ok: bool, ghost taken: seq<int>, ghost links': map<int, Link>, ghost reprs': map<int, set<object>>)
    requires server.pool.Valid() && server.ioThreadPool.Valid() && Sound(links, Ids(server))
    requires links.Keys == reprs.Keys == server.pool.connections.Keys && Disjoint(reprs)
    requires forall g :: g in server.pool.connections ==>
      Shows(server.k, server.pool, server.pool.connections[g], g, Quieted(links)[g], reprs[g])
    modifies server.k, server.pool`connections, server.pool`members, server.ioThreadPool
    ensures server.pool.Valid() && server.ioThreadPool.Valid() && Sound(links', Ids(server))
    ensures links'.Keys == reprs'.Keys == server.pool.connections.Keys && Disjoint(reprs')
    ensures forall g :: g in server.pool.connections ==>
      Shows(server.k, server.pool, server.pool.connections[g], g, Quieted(links')[g], reprs'[g])
    ensures server.k.backlog <= old(server.k.backlog) && (ok <==> server.k.backlog == 0)
    ensures server.k.failedAccepts == old(server.k.failedAccepts) + 1
    ensures |taken| == old(server.k.backlog) - server.k.backlog || !server.HasSpace()
    ensures links'.Keys == links.Keys + Servers.Elements(taken)
    ensures forall g :: g in links ==> links'[g] == links[g] && g !in taken
    ensures forall g :: g in taken ==> Accepted(links'[g]) && links'[g].conn == Conn(g, CONNECTED, [], [], now)
  {
    OpenIfSound(server, links, reprs);
    hide Sound, Shows, Disjoint, Server.Grown, Server.Open, Server.HasSpace, ConnectionPool.Valid, IOThreadPool.Valid;
    ghost var first, quiet := server.ioThreadPool.dispatched, map[];
    ok, taken, quiet, reprs' := server.HandleAccept(now, Quieted(links), reprs);
    FiledIfShown(server, quiet, reprs');
    LoopsThere(server.ioThreadPool);
    JoinedSound(server, links, quiet, taken, first, now);
    links' := Joined(links, quiet);
    GrownKeys(server, links, quiet, taken, first, now);
  }

  lemma LoopsThere(p: IOThreadPool)
    requires p.Valid()
    ensures |p.loops| > 0
  {
  }

  lemma GrownKeys(server: Server, links: map<int, Link>, quiet: map<int, Link>, taken: seq<int>, first: nat, now: int)
    requires server.Grown(Quieted(links), quiet, taken, first, now)
    ensures Joined(links, quiet).Keys == links.Keys + Servers.Elements(taken)
    ensures forall g :: g in links ==> Joined(links, quiet)[g] == links[g] && g !in taken
    ensures forall g :: g in taken ==>
      Accepted(Joined(links, quiet)[g]) && Joined(links, quiet)[g].conn == Conn(g, CONNECTED, [], [], now)
  {
    hide Accepted;
    assert forall g :: g in links <==> g in Quieted(links);
    forall g | g in taken ensures g in quiet && Accepted(quiet[g]) && quiet[g].conn == Conn(g, CONNECTED, [], [], now) {
      var i :| 0 <= i < |taken| && taken[i] == g;
      assert server.Started(quiet, taken[i], first + i, now);
    }
  }

  // Serving a batch

  /** The links after the first events of a batch have been served. */
  ghost function Settled(links: map<int, Link>, quiet: map<int, Link>, served: seq<ReadyFd>): (m: map<int, Link>)
    requires quiet.Keys == links.Keys
    ensures m.Keys == set fd | fd in links && quiet[fd].mapped
  {
    map fd | fd in links && quiet[fd].mapped ::
      if exists e :: e in served && e.fd == fd then quiet[fd] else links[fd]
  }

  /** The events are those epoll_wait has returned for this loop's descriptors. */
  ghost predicate Returned(events: seq<ReadyFd>, links: map<int, Link>, id: int) {
    forall e :: e in events && e.fd in links ==>
      links[e.fd].event == Dispatch(e.error, e.input, e.output) && links[e.fd].sock.epoll == id
  }

  lemma ServedNext(a: Link, e: ReadyFd, b: Link, now: int)
    requires a.event == Dispatch(e.error, e.input, e.output) && EventLoops.Served(Quiet(a), e, b, now)
    ensures if a.event == NoEvent then b == a else Next(a, Handle(now), b)
  {
    assert Quiet(a).(event := a.event) == a;
  }

  /** How far a batch got, connection by connection. */
  lemma BatchSteps(events: seq<ReadyFd>, n: nat, links: map<int, Link>, quiet: map<int, Link>, now: int, id: int)
    requires n <= |events| && Returned(events, links, id) && AllServed(events, n, Quieted(links), quiet, now)
    ensures quiet.Keys == links.Keys
    ensures forall i :: 0 <= i < n && events[i].fd in links && links[events[i].fd].event != NoEvent ==>
              Next(links[events[i].fd], Handle(now), quiet[events[i].fd])
    ensures forall fd :: fd in links && (forall i :: 0 <= i < n ==> events[i].fd != fd) ==>
              quiet[fd] == Quiet(links[fd])
  {
    hide Next, EventLoops.Served;
    assert Quieted(links).Keys == quiet.Keys;
    forall i | 0 <= i < n && events[i].fd in links && links[events[i].fd].event != NoEvent
      ensures Next(links[events[i].fd], Handle(now), quiet[events[i].fd])
    {
      var e := events[i];
      assert e in events[..n] && e in events;
      assert AfterBatch(events[..n], e.fd, Quieted(links)[e.fd], quiet[e.fd], now);
      ServedNext(links[e.fd], e, quiet[e.fd], now);
    }
    forall fd | fd in links && (forall i :: 0 <= i < n ==> events[i].fd != fd) ensures quiet[fd] == Quiet(links[fd]) {
      assert AfterBatch(events[..n], fd, Quieted(links)[fd], quiet[fd], now);
    }
  }

  lemma ServedFits(a: Link, e: ReadyFd, b: Link, now: int, ids: set<int>, fd: int)
    requires Fit(a, fd, ids) && a.event == Dispatch(e.error, e.input, e.output) && b.conn.fd == fd
    requires EventLoops.Served(Quiet(a), e, b, now) && b.event == NoEvent
    ensures b == a || Next(a, Handle(now), b)
    ensures b.mapped ==> Fit(b, fd, ids)
  {
    assert Quiet(a).(event := a.event) == a;
    if a.event != NoEvent {
      StepKeepsInv(a, Handle(now), b);
      if b.mapped { HandleKeepsPlace(a, now, b); }
    }
  }

  /** What a batch makes of one connection. */
  lemma BatchLinkServed(events: seq<ReadyFd>, n: nat, links: map<int, Link>, quiet: map<int, Link>, now: int,
                        ids: set<int>, id: int, fd: int)
    requires n <= |events| && Sound(links, ids) && Returned(events, links, id) && fd in links
    requires AllServed(events, n, Quieted(links), quiet, now)
    requires quiet[fd].conn.fd == fd && quiet[fd].event == NoEvent
    ensures var m := if exists e :: e in events[..n] && e.fd == fd then quiet[fd] else links[fd];
      && (quiet[fd].mapped ==> Fit(m, fd, ids) && Quiet(m) == quiet[fd])
      && (m == links[fd] || Next(links[fd], Handle(now), m))
  {
    assert Fit(links[fd], fd, ids);
    hide Fit, Next, EventLoops.Served;
    assert AfterBatch(events[..n], fd, Quieted(links)[fd], quiet[fd], now);
    if e :| e in events[..n] && e.fd == fd {
      assert e in events;
      ServedFits(links[fd], e, quiet[fd], now, ids, fd);
    } else {
      assert forall e :: e in events[..n] ==> e.fd != fd;
    }
  }

  lemma HandleKeepsPlace(a: Link, now: int, b: Link)
    requires a.mapped && Next(a, Handle(now), b) && b.mapped
    ensures b.sock.epoll == a.sock.epoll
  {
  }

  lemma SettledSound(events: seq<ReadyFd>, n: nat, links: map<int, Link>, quiet: map<int, Link>, now: int,
                     ids: set<int>, id: int)
    requires n <= |events| && Sound(links, ids) && Returned(events, links, id)
    requires AllServed(events, n, Quieted(links), quiet, now)
    requires forall fd :: fd in quiet && quiet[fd].mapped ==> quiet[fd].conn.fd == fd
    requires forall fd :: fd in quiet ==> quiet[fd].event == NoEvent
    ensures quiet.Keys == links.Keys
    ensures var m := Settled(links, quiet, events[..n]);
      && Sound(m, ids)
      && (forall fd :: fd in m ==> Quiet(m[fd]) == quiet[fd])
      && forall fd :: fd in m ==> m[fd] == links[fd] || Next(links[fd], Handle(now), m[fd])
  {
    assert Quieted(links).Keys == quiet.Keys;
    var m := Settled(links, quiet, events[..n]);
    forall fd | fd in m
      ensures Fit(m[fd], fd, ids) && Quiet(m[fd]) == quiet[fd]
      ensures m[fd] == links[fd] || Next(links[fd], Handle(now), m[fd])
    {
      hide Inv, Next, AllServed;
      BatchLinkServed(events, n, links, quiet, now, ids, id, fd);
    }
  }

  method BatchRound(server: Server, loop: EventLoop, events: seq<ReadyFd>, now: int,
                    ghost links: map<int, Link>, ghost reprs: map<int, set<object>>)
    returns (served: nat, ghost after: map<int, Link>, ghost links': map<int, Link>,
             ghost reprs': map<int, set<object>>)
    requires loop.pool == server.pool && loop.k == server.k && !loop.mainReactor && loop.id != NONE
    requires !server.k.zeroSends && OncePerFd(events) && Returned(events, links, loop.id)
    requires server.pool.Valid() && Sound(links, Ids(server))
    requires links.Keys == reprs.Keys == server.pool.connections.Keys && Disjoint(reprs)
    requires forall g :: g in server.pool.connections ==>
      Shows(server.k, server.pool, server.pool.connections[g], g, Quieted(links)[g], reprs[g])
    modifies server.k, server.pool`connections, Union(reprs)
    ensures served <= |events| && server.pool.Valid() && Sound(links', Ids(server))
    ensures links'.Keys == reprs'.Keys == server.pool.connections.Keys && Disjoint(reprs')
    ensures forall g :: g in server.pool.connections ==>
      Shows(server.k, server.pool, server.pool.connections[g], g, Quieted(links')[g], reprs'[g])
    ensures served < |events| ==> loop.Refused(events[served]) && events[served].fd !in links
    ensures after.Keys == links.Keys && links'.Keys == set g | g in links && after[g].mapped
    ensures forall g :: g in links' ==> Quiet(links'[g]) == after[g]
    ensures forall i :: 0 <= i < served && events[i].fd in links && links[events[i].fd].event != NoEvent ==>
              Next(links[events[i].fd], Handle(now), after[events[i].fd])
    ensures forall g :: g in links && (forall i :: 0 <= i < served ==> events[i].fd != g) ==>
              after[g] == Quiet(links[g])
  {
    hide Sound, Shows, Disjoint, Union, Next, AllServed, ConnectionPool.Valid, Returned, Inv;
    ghost var conns := server.pool.connections;
    ReturnedReady(events, links, Ids(server), loop.id);
    ghost var all;
    served, after, all := loop.HandleEvents(events, Quieted(links), reprs, now);
    BatchDone(server, events, served, conns, links, after, all, now, loop.id);
    BatchSteps(events, served, links, after, now, loop.id);
    links' := Settled(links, after, events[..served]);
    reprs' := Kept(all, server.pool.connections.Keys);
  }

  /** The state after a batch, put together. */
  lemma BatchDone(server: Server, events: seq<ReadyFd>, n: nat, conns: map<int, Connection>, links: map<int, Link>,
                  quiet: map<int, Link>, all: map<int, set<object>>, now: int, id: int)
    requires server.pool.Valid() && n <= |events| && Sound(links, Ids(server)) && Returned(events, links, id)
    requires conns.Keys == links.Keys == quiet.Keys == all.Keys && Disjoint(all)
    requires AllServed(events, n, Quieted(links), quiet, now)
    requires forall g :: g in conns ==> Shows(server.k, server.pool, conns[g], g, quiet[g], all[g])
    requires forall g :: g in server.pool.connections ==> g in conns && server.pool.connections[g] == conns[g]
    ensures var m, r := Settled(links, quiet, events[..n]), Kept(all, server.pool.connections.Keys);
      && m.Keys == r.Keys == server.pool.connections.Keys && Disjoint(r) && Sound(m, Ids(server))
      && (forall g :: g in server.pool.connections ==>
            Shows(server.k, server.pool, server.pool.connections[g], g, Quieted(m)[g], r[g]))
      && forall g :: g in m ==> Quiet(m[g]) == quiet[g]
  {
    hide Sound, Shows, Disjoint, Next, AllServed, ConnectionPool.Valid, Returned, Inv;
    StillFiled(server, conns, quiet, all);
    SettledSound(events, n, links, quiet, now, Ids(server), id);
    RestDisjoint(all, Kept(all, server.pool.connections.Keys));
  }

  lemma ReturnedReady(events: seq<ReadyFd>, links: map<int, Link>, ids: set<int>, id: int)
    requires Sound(links, ids) && Returned(events, links, id)
    ensures forall e :: e in events && e.fd in Quieted(links) ==>
      var l := Quieted(links)[e.fd]; l.mapped && l.sock.epoll == id && l.sock.Ok()
  {
    forall e | e in events && e.fd in links ensures links[e.fd].mapped && links[e.fd].sock.Ok() {
      assert Fit(links[e.fd], e.fd, ids);
    }
  }

  /** After a batch: the connections still mapped are those shown as mapped. */
  lemma StillFiled(server: Server, conns: map<int, Connection>, quiet: map<int, Link>, reprs: map<int, set<object>>)
    requires server.pool.Valid() && conns.Keys == quiet.Keys == reprs.Keys
    requires forall g :: g in conns ==> Shows(server.k, server.pool, conns[g], g, quiet[g], reprs[g])
    requires forall g :: g in server.pool.connections ==> g in conns && server.pool.connections[g] == conns[g]
    ensures forall g :: g in quiet ==> quiet[g].event == NoEvent
    ensures server.pool.connections.Keys == set g | g in quiet && quiet[g].mapped
    ensures forall g :: g in quiet && quiet[g].mapped ==> quiet[g].conn.fd == g
  {
    forall g | g in quiet
      ensures quiet[g].event == NoEvent && (quiet[g].mapped <==> g in server.pool.connections)
      ensures quiet[g].mapped ==> quiet[g].conn.fd == g
    {
      assert Shows(server.k, server.pool, conns[g], g, quiet[g], reprs[g]);
    }
    assert forall g :: g in server.pool.connections.Keys <==> g in quiet && quiet[g].mapped;
  }

  // Sweeping

  /** The links of the descriptors that remain. */
  function Remaining(links: map<int, Link>, keys: set<int>): (m: map<int, Link>)
    ensures m.Keys == links.Keys * keys
  {
    map fd | fd in links && fd in keys :: links[fd]
  }

  lemma LiveByLink(server: Server, now: int, quiet: map<int, Link>, reprs: map<int, set<object>>)
    requires server.pool.Valid() && quiet.Keys == reprs.Keys == server.pool.connections.Keys
    requires forall g :: g in server.pool.connections ==>
      Shows(server.k, server.pool, server.pool.connections[g], g, quiet[g], reprs[g])
    ensures forall g :: g in quiet ==>
      (g in PoolProtocol.Live(server.pool.Entries(), now, server.pool.heartbeatTimeoutMs).Keys
       <==> now - quiet[g].conn.heartbeat <= server.pool.heartbeatTimeoutMs)
  {
    forall g | g in quiet ensures server.pool.Entries()[g].heartbeat == quiet[g].conn.heartbeat {
      assert Shows(server.k, server.pool, server.pool.connections[g], g, quiet[g], reprs[g]);
    }
  }

  method SweepHeld(server: Server, now: int, order: seq<int>, ghost quiet: map<int, Link>,
                   ghost reprs: map<int, set<object>>)
    requires server.pool.Valid() && Enumerates(order, server.pool.connections.Keys)
    requires quiet.Keys == reprs.Keys == server.pool.connections.Keys
    requires forall g :: g in server.pool.connections ==>
      Shows(server.k, server.pool, server.pool.connections[g], g, quiet[g], reprs[g])
    modifies server.pool`connections, server.k`socks, server.pool.members`state, server.pool.members`fd
    ensures server.pool.Valid()
    ensures server.pool.connections.Keys
         == PoolProtocol.Live(old(server.pool.Entries()), now, server.pool.heartbeatTimeoutMs).Keys
    ensures server.pool.connections.Keys <= quiet.Keys
    ensures forall g :: g in server.pool.connections ==>
      Shows(server.k, server.pool, server.pool.connections[g], g, quiet[g], reprs[g])
  {
    hide Holds, Inv, EntryOf;
    server.pool.HeartbeatSweep(server.k, now, order);
  }

  ghost function Kept(reprs: map<int, set<object>>, keys: set<int>): (m: map<int, set<object>>)
    ensures m.Keys == reprs.Keys * keys
  {
    map fd | fd in reprs && fd in keys :: reprs[fd]
  }

  lemma RemainingSound(links: map<int, Link>, reprs: map<int, set<object>>, keys: set<int>, ids: set<int>)
    requires Sound(links, ids) && Disjoint(reprs) && keys <= links.Keys == reprs.Keys
    ensures Remaining(links, keys).Keys == Kept(reprs, keys).Keys == keys
    ensures Sound(Remaining(links, keys), ids) && Disjoint(Kept(reprs, keys))
    ensures forall fd :: fd in keys ==> Quieted(Remaining(links, keys))[fd] == Quieted(links)[fd]
  {
    hide Fit;
    RestDisjoint(reprs, Kept(reprs, keys));
  }

  /** A sweep leaves the connections that remain, which are those not timed out, as they were. */
  method SweepShown(server: Server, now: int, order: seq<int>, ghost quiet: map<int, Link>,
                    ghost reprs: map<int, set<object>>)
    requires server.pool.Valid() && Enumerates(order, server.pool.connections.Keys)
    requires quiet.Keys == reprs.Keys == server.pool.connections.Keys
    requires forall g :: g in server.pool.connections ==>
      Shows(server.k, server.pool, server.pool.connections[g], g, quiet[g], reprs[g])
    modifies server.pool`connections, server.k`socks, server.pool.members`state, server.pool.members`fd
    ensures server.pool.Valid()
    ensures server.pool.connections.Keys <= quiet.Keys
    ensures forall g :: g in server.pool.connections ==>
      Shows(server.k, server.pool, server.pool.connections[g], g, quiet[g], reprs[g])
    ensures forall g :: g in quiet ==>
      (g in server.pool.connections <==> now - quiet[g].conn.heartbeat <= server.pool.heartbeatTimeoutMs)
  {
    hide Shows, PoolProtocol.Live, ConnectionPool.Entries, ConnectionPool.ValidExcept;
    LiveByLink(server, now, quiet, reprs);
    SweepHeld(server, now, order, quiet, reprs);
  }

  method SweepRound(server: Server, now: int, order: seq<int>, ghost links: map<int, Link>,
                    ghost reprs: map<int, set<object>>)
    returns (ghost links': map<int, Link>, ghost reprs': map<int, set<object>>)
    requires server.pool.Valid() && Sound(links, Ids(server)) && Enumerates(order, server.pool.connections.Keys)
    requires links.Keys == reprs.Keys == server.pool.connections.Keys && Disjoint(reprs)
    requires forall g :: g in server.pool.connections ==>
      Shows(server.k, server.pool, server.pool.connections[g], g, Quieted(links)[g], reprs[g])
    modifies server.pool`connections, server.k`socks, server.pool.members`state, server.pool.members`fd
    ensures server.pool.Valid() && Sound(links', Ids(server))
    ensures links'.Keys == reprs'.Keys == server.pool.connections.Keys && Disjoint(reprs')
    ensures forall g :: g in server.pool.connections ==>
      Shows(server.k, server.pool, server.pool.connections[g], g, Quieted(links')[g], reprs'[g])
    ensures forall g :: g in links' ==> g in links && links'[g] == links[g]
    ensures forall g :: g in links ==>
      (g in links' <==> now - links[g].conn.heartbeat <= server.pool.heartbeatTimeoutMs)
  {
    hide Sound, Disjoint, ConnectionPool.Valid, Shows;
    SweepShown(server, now, order, Quieted(links), reprs);
    links' := Remaining(links, server.pool.connections.Keys);
    reprs' := Kept(reprs, server.pool.connections.Keys);
    RemainingSound(links, reprs, server.pool.connections.Keys, Ids(server));
  }
}
