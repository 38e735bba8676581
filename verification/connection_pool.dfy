/** The index of live connections by descriptor: bounded, swept by the heartbeat. */
module ConnectionPools {
  import opened Sockets
  import opened Connections
  import opened PoolProtocol

  ghost function Without(keys: set<int>, fds: seq<int>): set<int> {
    set fd | fd in keys && fd !in fds
  }

  lemma WithoutOneMore(keys: set<int>, fds: seq<int>, i: nat)
    requires i < |fds|
    ensures Without(keys, fds[..i + 1]) == Without(keys, fds[..i]) - {fds[i]}
  {
    assert fds[..i + 1] == fds[..i] + [fds[i]];
  }

  lemma WithoutTimedOut(m: map<int, Entry>, fds: seq<int>, now: int, timeoutMs: int)
    requires forall fd :: fd in fds <==> fd in m && TimedOut(m[fd], now, timeoutMs)
    ensures Without(m.Keys, fds[..|fds|]) == Live(m, now, timeoutMs).Keys
  {
    assert fds[..|fds|] == fds;
    assert forall fd :: fd in m ==> (fd !in fds <==> !TimedOut(m[fd], now, timeoutMs));
  }

  /** The sockets after the descriptors in `fds` have been closed. */
  ghost function AllShut(socks: map<int, Sock>, fds: seq<int>): map<int, Sock> {
    map fd | fd in socks :: if fd in fds then Shut(socks[fd]) else socks[fd]
  }

  lemma AllShutOneMore(socks: map<int, Sock>, order: seq<int>, i: nat)
    requires i < |order| && order[i] !in order[..i]
    ensures AllShut(socks, order[..i + 1])
         == if order[i] in socks then AllShut(socks, order[..i])[order[i] := Shut(socks[order[i]])]
            else AllShut(socks, order[..i])
  {
    assert order[..i + 1] == order[..i] + [order[i]];
  }

  /** An order in which a loop over the hash map may meet its keys: each once. */
  ghost predicate Enumerates(order: seq<int>, keys: set<int>) {
    && (forall fd :: fd in keys ==> fd in order)
    && (forall i :: 0 <= i < |order| ==> order[i] in keys)
    && (forall i, j :: 0 <= i < j < |order| ==> order[i] != order[j])
  }

  function EntryOf(c: Connection): Entry
    reads c
  {
    Entry(c.fd, c.state, c.lastHeartbeat)
  }

  ghost predicate IsClosed(c: Connection)
    reads c
  {
    c.state == CLOSED && c.fd == NONE
  }

  ghost predicate SameSock(a: map<int, Sock>, b: map<int, Sock>, fd: int) {
    (fd in a <==> fd in b) && (fd in a ==> a[fd] == b[fd])
  }

  /** The index after a handler of `fd`, entry by entry: every other entry as it was. */
  ghost predicate OthersKept(pool: ConnectionPool, fd: int, before: Pool)
    requires pool.Indexed()
    reads pool, pool.members
  {
    && pool.running == before.running && pool.maxConnections == before.max
    && pool.heartbeatTimeoutMs == before.timeoutMs
    && (pool.connections.Keys == before.conns.Keys || pool.connections.Keys == before.conns.Keys - {fd})
    && forall g :: g in pool.connections && g != fd ==> EntryOf(pool.connections[g]) == before.conns[g]
  }

  /** An index that still maps what it did, to connections that still are what they were. */
  lemma NothingChanged(pool: ConnectionPool, before: Pool)
    requires pool.Indexed() && before == pool.AsPool().(conns := before.conns)
    requires before.conns.Keys == pool.connections.Keys
    requires forall g :: g in pool.connections ==> EntryOf(pool.connections[g]) == before.conns[g]
    ensures pool.AsPool() == before
  {
    SameMap(pool.Entries(), before.conns);
  }

  lemma OthersKeptRemoved(pool: ConnectionPool, fd: int, before: Pool)
    requires pool.Indexed() && OthersKept(pool, fd, before) && fd !in pool.connections
    ensures pool.AsPool() == Removed(before, fd)
  {
    assert pool.Entries().Keys == pool.connections.Keys;
    HandledByEntry(before, fd, 0, pool.AsPool());
  }

  lemma OthersKeptHandled(pool: ConnectionPool, fd: int, before: Pool, now: int)
    requires pool.Indexed() && OthersKept(pool, fd, before)
    requires fd in pool.connections ==>
      var e := EntryOf(pool.connections[fd]);
      e == before.conns[fd] || e == before.conns[fd].(heartbeat := now)
    ensures Handled(before, fd, now, pool.AsPool())
  {
    assert pool.Entries().Keys == pool.connections.Keys;
    HandledByEntry(before, fd, now, pool.AsPool());
  }

  class ConnectionPool {
    var connections: map<int, Connection>
    var running: bool
    var maxConnections: nat
    var heartbeatTimeoutMs: int
    /** Every connection that is or was mapped. */
    ghost var members: set<Connection>

    ghost predicate Indexed()
      reads this
    {
      forall fd :: fd in connections ==> connections[fd] in members
    }

    /**
     The pool's invariant, except that connection `x` may already be marked closed: so it is between
     the moment Recv or Send notice the end of `x` and its removal.
     */
    ghost predicate ValidExcept(x: int)
      reads this, members
    {
      && Indexed()
      && NONE !in connections
      && |connections| <= maxConnections
      && (!running ==> connections == map[])
      && (forall fd :: fd in connections ==> connections[fd].fd == fd)
      && (forall fd :: fd in connections && fd != x ==> connections[fd].state != CLOSED)
    }

    ghost predicate Valid()
      reads this, members
    {
      ValidExcept(NONE)
    }

    ghost function Entries(): (m: map<int, Entry>)
      requires Indexed()
      reads this, members
      ensures m.Keys == connections.Keys && |m| == |connections|
    {
      assert |connections.Keys| == |connections|;
      var m := map fd | fd in connections :: EntryOf(connections[fd]);
      assert m.Keys == connections.Keys;
      assert |m.Keys| == |m|;
      m
    }

    /** The index as the protocol's value. */
    ghost function AsPool(): Pool
      requires Indexed()
      reads this, members
    {
      Pool(Entries(), running, maxConnections, heartbeatTimeoutMs)
    }

    constructor ()
      ensures Valid() && !running && connections == map[]
    {
      connections, running, maxConnections, heartbeatTimeoutMs := map[], false, 0, 0;
      members := {};
    }

    method Init(max: nat, timeoutMs: int)
      requires Valid()
      modifies this`running, this`maxConnections, this`heartbeatTimeoutMs
      ensures Valid() <==> |connections| <= max
      ensures Indexed() && AsPool() == Pool(old(Entries()), true, max, timeoutMs)
    {
      maxConnections := max;
      heartbeatTimeoutMs := timeoutMs;
      running := true;
    }

    /** Closes and forgets every connection; afterwards nothing can be added until the next Init. */
    method Shutdown(k: Kernel, order: seq<int>)
      requires Valid() && Enumerates(order, connections.Keys)
      modifies this`connections, this`running, k`socks, members
      ensures Valid() && AsPool() == Emptied(old(AsPool()))
      ensures forall fd :: fd in old(connections) ==> IsClosed(old(connections[fd]))
      ensures k.socks == AllShut(old(k.socks), order)
    {
      if !running {
        assert forall fd :: fd in order ==> fd in connections;
        return;
      }
      running := false;
      ghost var socks := k.socks;
      for i := 0 to |order|
        invariant !running && connections == old(connections)
        invariant forall j :: i <= j < |order| ==>
                    connections[order[j]].fd == order[j] && connections[order[j]].state != CLOSED
        invariant forall j :: 0 <= j < i ==> IsClosed(connections[order[j]])
        invariant k.socks == AllShut(socks, order[..i])
      {
        var c := connections[order[i]];
        AllShutOneMore(socks, order, i);
        c.Close(k);
      }
      assert order[..|order|] == order;
      connections := map[];
    }

    /** What AddConnection asks before it takes a connection. */
    predicate HasRoomFor(fd: int)
      reads this
    {
      running && |connections| < maxConnections && fd !in connections
    }

    function GetConnection(fd: int): (c: Connection?)
      reads this
      ensures c == null <==> fd !in connections
      ensures c != null ==> c == connections[fd]
    {
      if fd in connections then connections[fd] else null
    }

    method AddConnection(c: Connection) returns (ok: bool)
      requires Valid() && c.state != CLOSED && c.fd != NONE
      modifies this`connections, this`members
      ensures Valid()
      ensures members == if ok then old(members) + {c} else old(members)
      ensures ok <==> old(running && |connections| < maxConnections && c.fd !in connections)
      ensures connections == if ok then old(connections)[c.fd := c] else old(connections)
      ensures AsPool() == Added(old(AsPool()), EntryOf(c))
    {
      if !running {
        return false;
      }
      if |connections| >= maxConnections {
        return false;
      }
      if c.fd in connections {
        return false;
      }
      connections := connections[c.fd := c];
      members := members + {c};
      ok := true;
    }

    /** Closes connection `fd` if it is not closed already, and forgets it. */
    method RemoveConnection(k: Kernel, fd: int) returns (ok: bool)
      requires ValidExcept(fd)
      modifies this`connections, k`socks
      modifies (if fd in connections then {connections[fd]} else {})`state
      modifies (if fd in connections then {connections[fd]} else {})`fd
      ensures Valid()
      ensures ok <==> fd in old(connections)
      ensures connections == old(connections) - {fd}
      ensures !ok ==> connections == old(connections) && k.socks == old(k.socks)
      ensures ok ==> var c := old(connections[fd]);
        && c.state == CLOSED
        && c.fd == (if old(c.state) == CLOSED then old(c.fd) else NONE)
        && k.socks == (if old(c.state) != CLOSED && old(fd in k.socks)
                       then old(k.socks)[fd := Shut(old(k.socks[fd]))] else old(k.socks))
    {
      if fd !in connections {
        return false;
      }
      var c := connections[fd];
      assert forall g :: g in connections && g != fd ==> connections[g] != c;
      c.Close(k);
      connections := connections - {fd};
      ok := true;
    }

    /** What the heartbeat's snapshot collects under the lock. */
    method CollectTimedOut(now: int, order: seq<int>, ghost keys: set<int>, ghost entries: map<int, Entry>)
      returns (timeoutFds: seq<int>)
      requires Valid() && Enumerates(order, connections.Keys) && keys == connections.Keys && entries == Entries()
      ensures forall fd :: fd in timeoutFds <==>
                fd in connections && TimedOut(EntryOf(connections[fd]), now, heartbeatTimeoutMs)
      ensures Without(keys, timeoutFds[..|timeoutFds|]) == Live(entries, now, heartbeatTimeoutMs).Keys
    {
      timeoutFds := [];
      for i := 0 to |order|
        invariant forall fd :: fd in timeoutFds <==>
                    fd in order[..i] && fd in connections && TimedOut(EntryOf(connections[fd]), now, heartbeatTimeoutMs)
      {
        assert order[..i + 1] == order[..i] + [order[i]];
        if connections[order[i]].IsTimeout(now, heartbeatTimeoutMs) {
          timeoutFds := timeoutFds + [order[i]];
        }
      }
      assert order[..|order|] == order;
      WithoutTimedOut(entries, timeoutFds, now, heartbeatTimeoutMs);
    }

    /** RemoveConnection, as the heartbeat sees it: every other entry stays as it is. */
    method Reap(k: Kernel, fd: int)
      requires ValidExcept(fd)
      modifies this`connections, k`socks, members`state, members`fd
      ensures Valid() && connections == old(connections) - {fd}
      ensures forall g :: g in connections ==> SameSock(k.socks, old(k.socks), g)
      ensures forall g :: g in connections ==> unchanged(connections[g])
    {
      var ok := RemoveConnection(k, fd);
    }

    /** RemoveConnection is the protocol's removal, whether or not Recv or Send have marked the connection. */
    method RemoveEntry(k: Kernel, fd: int)
      requires ValidExcept(fd)
      modifies this`connections, k`socks, members`state, members`fd
      ensures Valid() && AsPool() == Removed(old(AsPool()), fd)
    {
      hide Removed;
      ghost var before := AsPool();
      Reap(k, fd);
      OthersKeptRemoved(this, fd, before);
    }

    method ReapAll(k: Kernel, fds: seq<int>)
      requires Valid()
      modifies this`connections, k`socks, members`state, members`fd
      ensures Valid()
      ensures connections.Keys == Without(old(connections).Keys, fds[..|fds|])
      ensures forall fd :: fd in connections ==> connections[fd] == old(connections[fd])
      ensures forall fd :: fd in connections ==> EntryOf(connections[fd]) == old(EntryOf(connections[fd]))
      ensures forall fd :: fd in connections ==> SameSock(k.socks, old(k.socks), fd)
      ensures forall fd :: fd in connections ==> unchanged(connections[fd])
    {
      ghost var before, entries := connections, Entries();
      for i := 0 to |fds|
        invariant Valid()
        invariant connections.Keys == Without(before.Keys, fds[..i])
        invariant forall fd :: fd in connections ==> connections[fd] == before[fd]
        invariant forall fd :: fd in connections ==> EntryOf(connections[fd]) == entries[fd]
        invariant forall fd :: fd in connections ==> SameSock(k.socks, old(k.socks), fd)
        invariant forall fd :: fd in connections ==> unchanged(connections[fd])
      {
        WithoutOneMore(before.Keys, fds, i);
        Reap(k, fds[i]);
      }
    }

    /** One uninterrupted pass of the heartbeat: what remains is exactly what has not timed out. */
    method HeartbeatSweep(k: Kernel, now: int, order: seq<int>)
      requires Valid() && Enumerates(order, connections.Keys)
      modifies this`connections, k`socks, members`state, members`fd
      ensures Valid()
      ensures connections.Keys == Live(old(Entries()), now, heartbeatTimeoutMs).Keys
      ensures forall fd :: fd in connections ==> connections[fd] == old(connections[fd])
      ensures forall fd :: fd in connections ==> EntryOf(connections[fd]) == old(EntryOf(connections[fd]))
      ensures forall fd :: fd in connections ==> SameSock(k.socks, old(k.socks), fd)
      ensures forall fd :: fd in connections ==> unchanged(connections[fd])
    {
      ghost var entries := Entries();
      hide ValidExcept, TimedOut, Without, Live;
      var timeoutFds := CollectTimedOut(now, order, connections.Keys, entries);
      ReapAll(k, timeoutFds);
    }
  }
}
