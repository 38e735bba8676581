/** Accepting connections: index them, give each to a loop, and register it there. */
module Servers {
  import opened Sockets
  import opened Connections
  import opened ConnectionPools
  import opened Dispatching
  import opened Echo
  import opened EventLoops
  import opened IOThreadPools

  class Server {
    const pool: ConnectionPool
    const k: Kernel
    const ioThreadPool: IOThreadPool

    constructor (pool: ConnectionPool, k: Kernel, ioThreadPool: IOThreadPool)
      ensures this.pool == pool && this.k == k && this.ioThreadPool == ioThreadPool
    {
      this.pool, this.k, this.ioThreadPool := pool, k, ioThreadPool;
    }

    /** Every mapped descriptor is open. */
    ghost predicate Open()
      reads this, pool, k
    {
      forall fd :: fd in pool.connections ==> fd in k.socks && k.socks[fd].open
    }

    ghost predicate Ready()
      reads this, pool, pool.members, k, ioThreadPool
    {
      pool.Valid() && ioThreadPool.Valid() && Open()
    }

    /** A connection as the echo protocol starts it. */
    ghost predicate Starts(c: Connection, fd: int, now: int)
      reads c, c.readBuffer, c.writeBuffer
    {
      c.Valid() && c.Abs() == Conn(fd, CONNECTED, [], [], now)
    }

    /**
     What HandleAccept does with a new descriptor. A connection the index refuses is closed and does
     not advance the rotation; one it takes goes to the rotation's next loop, registered there for
     both directions.
     */
    method Admit(fd: int, now: int) returns (admitted: bool)
      requires Ready() && fd != NONE && fd !in pool.connections && fd in k.socks && JustAccepted(k.socks[fd])
      modifies k`socks, pool`connections, pool`members, ioThreadPool
      ensures Ready()
      ensures fd in k.socks && k.socks == old(k.socks)[fd := k.socks[fd]]
      ensures admitted <==> old(pool.running && |pool.connections| < pool.maxConnections)
      ensures !admitted ==> pool.connections == old(pool.connections) && !k.socks[fd].open
      ensures !admitted ==> ioThreadPool.dispatched == old(ioThreadPool.dispatched)
      ensures admitted ==> fd in pool.connections && fresh(pool.connections[fd].Repr())
      ensures admitted ==> pool.connections == old(pool.connections)[fd := pool.connections[fd]]
      ensures admitted ==> Starts(pool.connections[fd], fd, now) && NewSock(k.socks[fd])
      ensures admitted ==> k.socks[fd].arming == Armed(Mask(true, true))
      ensures admitted ==> ioThreadPool.dispatched == old(ioThreadPool.dispatched) + 1
      ensures admitted ==> OnLoop(fd, old(ioThreadPool.nextLoopIdx))
    {
      hide Connection.Valid, Starts, NewSock, JustAccepted, IOThreadPool.Valid, ConnectionPool.ValidExcept;
      var c, added := Index(fd, now);
      if !added {
        Refuse(c, fd);
        return false;
      }
      Assign(c, fd, now);
      admitted := true;
    }

    /** Descriptor `fd` is registered with loop `i`. */
    ghost predicate OnLoop(fd: int, i: nat)
      reads this, k
    {
      fd in k.socks && i < |ioThreadPool.loops| && k.socks[fd].epoll == ioThreadPool.loops[i].id
    }

    /** A connection for the new descriptor, offered to the index. */
    method Index(fd: int, now: int) returns (c: Connection, added: bool)
      requires pool.Valid() && fd != NONE && fd !in pool.connections
      modifies pool`connections, pool`members
      ensures pool.Valid() && (added <==> c in pool.members)
      ensures fresh(c) && c.Valid() && c.Abs() == Conn(fd, CONNECTED, [], [], now)
      ensures fresh(c.readBuffer) && fresh(c.writeBuffer)
      ensures added <==> old(pool.running && |pool.connections| < pool.maxConnections)
      ensures pool.connections == if added then old(pool.connections)[fd := c] else old(pool.connections)
      ensures pool.members == if added then old(pool.members) + {c} else old(pool.members)
    {
      hide ConnectionPool.ValidExcept;
      c := new Connection(fd, now);
      c.SetState(CONNECTED);
      added := pool.AddConnection(c);
    }

    /** The socket closes; then the last reference to the connection goes, and its destructor closes too. */
    method Refuse(c: Connection, fd: int)
      requires c.fd == fd && fd in k.socks && pool.Valid() && c !in pool.members
      modifies k`socks, c`state, c`fd
      ensures pool.Valid()
      ensures fd in k.socks && k.socks == old(k.socks)[fd := k.socks[fd]] && !k.socks[fd].open
    {
      k.Close(fd);
      c.Close(k);
    }

    method Assign(c: Connection, fd: int, ghost now: int)
      requires ioThreadPool.Valid() && c.Valid() && c.Abs() == Conn(fd, CONNECTED, [], [], now)
      requires fd in k.socks && JustAccepted(k.socks[fd])
      modifies k`socks, ioThreadPool
      ensures ioThreadPool.Valid() && ioThreadPool.dispatched == old(ioThreadPool.dispatched) + 1
      ensures fd in k.socks && k.socks == old(k.socks)[fd := k.socks[fd]]
      ensures k.socks[fd].open && Starts(c, fd, now) && NewSock(k.socks[fd])
      ensures k.socks[fd].arming == Armed(Mask(true, true))
      ensures OnLoop(fd, old(ioThreadPool.nextLoopIdx))
    {
      var subLoop := ioThreadPool.GetNextEventLoop();
      var ok := k.Add(subLoop.id, fd, Mask(true, true));
    }

    /** One turn of the loop: at most one connection more, and nothing else mapped or registered changes. */
    method AcceptTurn(now: int) returns (more: bool, fd: int, admitted: bool)
      requires Ready()
      modifies k, pool`connections, pool`members, ioThreadPool
      ensures Ready()
      ensures more ==> k.backlog == old(k.backlog) - 1 && k.failedAccepts == old(k.failedAccepts)
      ensures !more ==> k.backlog == old(k.backlog) && k.failedAccepts == old(k.failedAccepts) + 1
      ensures !more ==> (k.errno == EAGAIN <==> k.backlog == 0)
      ensures admitted <==> more && old(HasSpace())
      ensures more && !admitted ==> fd in k.socks && !k.socks[fd].open
      ensures OnlyMappedOpened(old(k.socks), k.socks, pool.connections.Keys)
      ensures forall g :: g in old(pool.connections) ==> g in k.socks && k.socks[g] == old(k.socks[g])
      ensures fd !in old(pool.connections)
      ensures !admitted ==>
                pool.connections == old(pool.connections) && ioThreadPool.dispatched == old(ioThreadPool.dispatched)
      ensures admitted ==> fd in pool.connections && fresh(pool.connections[fd].Repr())
      ensures admitted ==> pool.connections == old(pool.connections)[fd := pool.connections[fd]]
      ensures Size() == old(Size()) + (if admitted then 1 else 0)
      ensures old(pool.connections).Keys <= pool.connections.Keys
      ensures admitted ==> Starts(pool.connections[fd], fd, now) && NewSock(k.socks[fd])
      ensures admitted ==> k.socks[fd].arming == Armed(Mask(true, true))
      ensures admitted ==> ioThreadPool.dispatched == old(ioThreadPool.dispatched) + 1
      ensures admitted ==> OnLoop(fd, old(ioThreadPool.nextLoopIdx))
    {
      hide Connection.Valid, Starts, NewSock, JustAccepted, IOThreadPool.Valid;
      fd := k.Accept();
      if fd == -1 {
        return false, fd, false;
      }
      admitted := Admit(fd, now);
      more := true;
    }

    ghost function Size(): nat
      reads this, pool
    {
      |pool.connections|
    }

    ghost predicate HasSpace()
      reads this, pool
    {
      pool.running && |pool.connections| < pool.maxConnections
    }

    /** Link `l` is registered with the loop that gets the `i`-th connection, counted from 0. */
    ghost predicate HasTurn(l: Link, i: nat) {
      var n := |ioThreadPool.loops|;
      n > 0 && l.sock.epoll == ioThreadPool.loops[i % n].id
    }

    /**
     The links have grown by those of the descriptors `taken`: each new at the time `now`, armed for both
     directions and, from the `first`-th dispatch on, with the loop whose turn it is.
     */
    ghost predicate Grown(links: map<int, Link>, links': map<int, Link>, taken: seq<int>, first: nat, now: int) {
      && links'.Keys == links.Keys + Elements(taken)
      && (forall g :: g in links ==> links'[g] == links[g] && g !in taken)
      && (forall i, j :: 0 <= i < j < |taken| ==> taken[i] != taken[j])
      && forall i :: 0 <= i < |taken| ==> Started(links', taken[i], first + i, now)
    }

    ghost predicate Started(links: map<int, Link>, fd: int, i: nat, now: int) {
      && fd in links
      && links[fd].conn == Conn(fd, CONNECTED, [], [], now) && links[fd].sock.arming == Armed(Mask(true, true))
      && Accepted(links[fd]) && HasTurn(links[fd], i)
    }

    lemma GrownNone(a: map<int, Link>, first: nat, now: int)
      ensures Grown(a, a, [], first, now)
    {
      assert Elements([]) == {};
    }

    lemma GrownOne(a: map<int, Link>, fd: int, l: Link, first: nat, now: int)
      requires fd !in a && Accepted(l) && HasTurn(l, first)
      requires l.conn == Conn(fd, CONNECTED, [], [], now) && l.sock.arming == Armed(Mask(true, true))
      ensures Grown(a, a[fd := l], [fd], first, now)
    {
      assert Elements([fd]) == {fd};
      assert Started(a[fd := l], fd, first, now);
    }

    lemma GrownOn(a: map<int, Link>, b: map<int, Link>, c: map<int, Link>, s: seq<int>, t: seq<int>, first: nat,
                  now: int)
      requires Grown(a, b, s, first, now) && Grown(b, c, t, first + |s|, now)
      ensures Grown(a, c, s + t, first, now)
    {
      hide Accepted, HasTurn;
      assert forall g :: g in a || g in s ==> g in b;
      forall i | 0 <= i < |s| ensures Started(c, s[i], first + i, now) && s[i] !in t {
        assert Started(b, s[i], first + i, now);
      }
      forall i | |s| <= i < |s + t| ensures Started(c, (s + t)[i], first + i, now) {
        assert Started(c, t[i - |s|], first + |s| + (i - |s|), now);
      }
      forall i, j | 0 <= i < j < |s + t| ensures (s + t)[i] != (s + t)[j] {
        if i < |s| <= j { assert s[i] !in t; }
      }
      assert Elements(s + t) == Elements(s) + Elements(t);
    }

    /** A turn leaves the connections already mapped as they are and shares no object with them. */
    method AcceptBeside(now: int, ghost links: map<int, Link>, ghost reprs: map<int, set<object>>)
      returns (more: bool, fd: int, admitted: bool, ghost l: Link, ghost r: set<object>)
      requires Ready() && links.Keys == reprs.Keys == pool.connections.Keys
      requires forall g :: g in pool.connections ==> Shows(k, pool, pool.connections[g], g, links[g], reprs[g])
      modifies k, pool`connections, pool`members, ioThreadPool
      ensures Ready() && fd !in old(pool.connections)
      ensures more ==> k.backlog == old(k.backlog) - 1 && k.failedAccepts == old(k.failedAccepts)
      ensures !more ==> k.backlog == old(k.backlog) && k.failedAccepts == old(k.failedAccepts) + 1
      ensures !more ==> (k.errno == EAGAIN <==> k.backlog == 0)
      ensures admitted <==> more && old(HasSpace())
      ensures OnlyMappedOpened(old(k.socks), k.socks, pool.connections.Keys)
      ensures admitted ==> fd in pool.connections
      ensures pool.connections ==
              if admitted then old(pool.connections)[fd := pool.connections[fd]] else old(pool.connections)
      ensures Size() == old(Size()) + (if admitted then 1 else 0)
      ensures ioThreadPool.dispatched == old(ioThreadPool.dispatched) + (if admitted then 1 else 0)
      ensures forall g :: g in old(pool.connections) ==>
                Shows(k, pool, pool.connections[g], g, links[g], reprs[g])
      ensures admitted ==> Shows(k, pool, pool.connections[fd], fd, l, r) && fresh(r)
      ensures admitted ==> l.conn == Conn(fd, CONNECTED, [], [], now) && l.sock.arming == Armed(Mask(true, true))
      ensures admitted ==> Accepted(l) && HasTurn(l, old(ioThreadPool.dispatched))
    {
      hide Connection.Valid, Starts, NewSock, IOThreadPool.Valid, ConnectionPool.ValidExcept, Holds, OnlyMappedOpened,
           Size, HasSpace;
      TurnIs(ioThreadPool);
      more, fd, admitted := AcceptTurn(now);
      l, r := Link(Sock([], [], [], [], [], 0, false, false, false, Off, NONE, false),
                   Conn(fd, CONNECTED, [], [], now), true, NoEvent), {};
      if admitted {
        ghost var c := pool.connections[fd];
        StartHolds(c, fd, now);
        l, r := l.(sock := k.socks[fd]), c.Repr();
      }
    }

    /** A turn in terms of the echo protocol: `taken` is the new descriptor, if any. */
    method AcceptLinked(now: int, ghost links: map<int, Link>, ghost reprs: map<int, set<object>>)
      returns (more: bool, ghost taken: seq<int>, ghost links': map<int, Link>, ghost reprs': map<int, set<object>>)
      requires Ready() && links.Keys == reprs.Keys == pool.connections.Keys && Disjoint(reprs)
      requires forall g :: g in pool.connections ==> Shows(k, pool, pool.connections[g], g, links[g], reprs[g])
      modifies k, pool`connections, pool`members, ioThreadPool
      ensures Ready() && links'.Keys == reprs'.Keys == pool.connections.Keys && Disjoint(reprs')
      ensures forall g :: g in pool.connections ==> Shows(k, pool, pool.connections[g], g, links'[g], reprs'[g])
      ensures more ==> k.backlog == old(k.backlog) - 1 && k.failedAccepts == old(k.failedAccepts)
      ensures !more ==> k.backlog == old(k.backlog) && k.failedAccepts == old(k.failedAccepts) + 1
      ensures !more ==> (k.errno == EAGAIN <==> k.backlog == 0)
      ensures |taken| == if more && old(HasSpace()) then 1 else 0
      ensures Size() == old(Size()) + |taken|
      ensures OnlyMappedOpened(old(k.socks), k.socks, pool.connections.Keys)
      ensures old(pool.connections).Keys <= pool.connections.Keys
      ensures ioThreadPool.dispatched == old(ioThreadPool.dispatched) + |taken|
      ensures Grown(links, links', taken, old(ioThreadPool.dispatched), now)
    {
      hide Ready, Shows, Accepted, HasTurn, Disjoint, Grown, OnlyMappedOpened, Size, HasSpace;
      GrownNone(links, ioThreadPool.dispatched, now);
      var fd, admitted;
      ghost var l, r;
      more, fd, admitted, l, r := AcceptBeside(now, links, reprs);
      taken, links', reprs' := [], links, reprs;
      if admitted {
        AddedDisjoint(reprs, fd, r);
        taken, links', reprs' := [fd], links[fd := l], reprs[fd := r];
        GrownOne(links, fd, l, old(ioThreadPool.dispatched), now);
      }
    }

    lemma RoomIs()
      requires Ready()
      ensures Size() == |pool.connections| <= pool.maxConnections
    {
    }

    lemma SpaceIs()
      ensures HasSpace() <==> pool.running && Size() < pool.maxConnections
    {
    }

    lemma StartHolds(c: Connection, fd: int, now: int)
      requires Starts(c, fd, now)
      ensures c.Valid() && Holds(c, c.Abs(), c.Repr()) && c.Abs() == Conn(fd, CONNECTED, [], [], now)
    {
    }

    /**
     Accepts until accept fails, which is when nobody waits any more (`ok`) or an error that Socket::Accept
     throws. As many clients are taken as waited and as the index has room for; the others' descriptors do
     not stay open. Connections already mapped stay as they are. Each new one is as the echo protocol
     starts it, and the rotation gives it, in the order of acceptance, the loop whose turn it is; a
     connection the index refuses takes no turn.
     */
    method HandleAccept(now: int, ghost links: map<int, Link>, ghost reprs: map<int, set<object>>)
      returns (ok: bool, ghost taken: seq<int>, ghost links': map<int, Link>, ghost reprs': map<int, set<object>>)
      requires Ready() && links.Keys == reprs.Keys == pool.connections.Keys && Disjoint(reprs)
      requires forall g :: g in pool.connections ==> Shows(k, pool, pool.connections[g], g, links[g], reprs[g])
      modifies k, pool`connections, pool`members, ioThreadPool
      ensures Ready() && links'.Keys == reprs'.Keys == pool.connections.Keys && Disjoint(reprs')
      ensures forall g :: g in pool.connections ==> Shows(k, pool, pool.connections[g], g, links'[g], reprs'[g])
      ensures k.failedAccepts == old(k.failedAccepts) + 1 && (ok <==> k.backlog == 0)
      ensures k.backlog <= old(k.backlog)
      ensures var room := old(if pool.running then pool.maxConnections - |pool.connections| else 0);
        |taken| == if old(k.backlog) - k.backlog < room then old(k.backlog) - k.backlog else room
      ensures |taken| == old(k.backlog) - k.backlog || !HasSpace()
      ensures OnlyMappedOpened(old(k.socks), k.socks, pool.connections.Keys)
      ensures ioThreadPool.dispatched == old(ioThreadPool.dispatched) + |taken|
      ensures Grown(links, links', taken, old(ioThreadPool.dispatched), now)
    {
      hide Shows, Grown, Disjoint, Ready, OnlyMappedOpened, Size, HasSpace;
      taken, links', reprs' := [], links, reprs;
      GrownNone(links, ioThreadPool.dispatched, now);
      OpenedNone(k.socks, pool.connections.Keys);
      RoomIs();
      ghost var size := Size();
      while true
        invariant Ready() && links'.Keys == reprs'.Keys == pool.connections.Keys && Disjoint(reprs')
        invariant forall g :: g in pool.connections ==> Shows(k, pool, pool.connections[g], g, links'[g], reprs'[g])
        invariant k.failedAccepts == old(k.failedAccepts)
        invariant Size() == size + |taken| && (taken == [] || pool.running)
        invariant |taken| <= old(k.backlog) - k.backlog && (|taken| == old(k.backlog) - k.backlog || !HasSpace())
        invariant OnlyMappedOpened(old(k.socks), k.socks, pool.connections.Keys)
        invariant old(pool.connections).Keys <= pool.connections.Keys
        invariant ioThreadPool.dispatched == old(ioThreadPool.dispatched) + |taken|
        invariant Grown(links, links', taken, old(ioThreadPool.dispatched), now)
        decreases k.backlog
      {
        var more;
        ghost var fds;
        SpaceIs();
        ghost var before, socks, keys := links', k.socks, pool.connections.Keys;
        more, fds, links', reprs' := AcceptLinked(now, links', reprs');
        SpaceIs();
        OpenedOn(old(k.socks), socks, k.socks, keys, pool.connections.Keys);
        GrownOn(links, before, links', taken, fds, old(ioThreadPool.dispatched), now);
        taken := taken + fds;
        if !more {
          break;
        }
      }
      ok := k.errno == EAGAIN;
      SpaceIs();
      RoomIs();
    }
  }

  /** Every descriptor that is open in `after` and was not in `before` is one of `mapped`. */
  ghost predicate OnlyMappedOpened(before: map<int, Sock>, after: map<int, Sock>, mapped: set<int>) {
    forall fd :: fd in after && after[fd].open ==> (fd in before && before[fd].open) || fd in mapped
  }

  lemma OpenedNone(a: map<int, Sock>, mapped: set<int>)
    ensures OnlyMappedOpened(a, a, mapped)
  {
  }

  lemma OpenedOn(a: map<int, Sock>, b: map<int, Sock>, c: map<int, Sock>, m: set<int>, n: set<int>)
    requires OnlyMappedOpened(a, b, m) && OnlyMappedOpened(b, c, n) && m <= n
    ensures OnlyMappedOpened(a, c, n)
  {
  }

  ghost function Elements(s: seq<int>): set<int> {
    set x | x in s
  }

  lemma TurnIs(p: IOThreadPool)
    requires p.Valid()
    ensures p.nextLoopIdx == p.dispatched % |p.loops|
  {
    TurnOf(|p.loops|, p.dispatched);
  }

  lemma AddedDisjoint(m: map<int, set<object>>, fd: int, r: set<object>)
    requires Disjoint(m) && fd !in m && r !! Union(m)
    ensures Disjoint(m[fd := r])
  {
    forall g | g in m ensures m[g] !! r {
      assert forall o :: o in m[g] ==> o in Union(m);
    }
  }
}
