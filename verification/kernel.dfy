/**
 What the server may assume of the operating system: one record per socket, changed by the server's
 system calls and, between any two of them, by the arrival of what the peer has in flight.
 */
module Sockets {
  import opened Bytes

  datatype Mask = Mask(input: bool, output: bool)

  /** The one-shot registration in an epoll instance: disarmed once an event has been delivered. */
  datatype Arming = Off | Armed(mask: Mask)

  datatype Sock = Sock(
    written: seq<byte>,   // all the peer ever wrote
    network: seq<byte>,   // written, in flight
    inbound: seq<byte>,   // arrived, not yet received
    taken: seq<byte>,     // received by the server
    sent: seq<byte>,      // accepted from the server by send
    room: nat,            // bytes send would accept now
    closed: bool,         // the peer writes no more
    fin: bool,            // its end of stream has arrived
    broken: bool,         // the connection has failed
    arming: Arming,
    epoll: int,           // the epoll instance holding the descriptor, or NONE
    open: bool            // the descriptor is open
  ) {
    function Stream(): seq<byte> {
      taken + inbound + network
    }

    ghost predicate Ok() {
      Stream() == written && (fin ==> closed && network == [])
    }
  }

  const NONE := -1

  /** Fields that neither time nor receiving changes. */
  ghost predicate SameSetup(a: Sock, b: Sock) {
    && b.written == a.written && b.closed == a.closed
    && b.arming == a.arming && b.epoll == a.epoll && b.open == a.open
  }

  /** Time passes and the server may receive: nothing is lost, reordered or taken back. */
  ghost predicate Later(a: Sock, b: Sock) {
    && SameSetup(a, b)
    && b.Stream() == a.Stream()
    && a.taken <= b.taken
    && a.taken + a.inbound <= b.taken + b.inbound
    && (a.fin ==> b.fin)
    && (b.fin ==> a.fin || (b.closed && b.network == []))
    && (a.broken ==> b.broken)
  }

  /** Time passes without a system call on the socket. */
  ghost predicate Quietly(a: Sock, b: Sock) {
    Later(a, b) && b.taken == a.taken && b.sent == a.sent && a.room <= b.room
  }

  lemma LaterReflexive(a: Sock)
    ensures Later(a, a)
  {
  }

  lemma LaterTransitive(a: Sock, b: Sock, c: Sock)
    requires Later(a, b) && Later(b, c)
    requires a.Ok()
    ensures Later(a, c) && b.Ok() && c.Ok()
    ensures Quietly(a, b) && Quietly(b, c) ==> Quietly(a, c)
  {
    assert |a.Stream()| == |b.Stream()| == |c.Stream()|;
  }

  /** `n` more bytes arrive, the peer's window opens, and perhaps a reset or the end of stream comes in. */
  function Arrived(s: Sock, n: nat, window: nat, reset: bool, ending: bool): Sock
    requires n <= |s.network|
  {
    s.(network := s.network[n..], inbound := s.inbound + s.network[..n], room := s.room + window,
       broken := s.broken || reset, fin := s.fin || (ending && s.closed && n == |s.network|))
  }

  lemma ArrivesQuietly(s: Sock, n: nat, window: nat, reset: bool, ending: bool)
    requires s.Ok() && n <= |s.network|
    ensures Quietly(s, Arrived(s, n, window, reset, ending)) && Arrived(s, n, window, reset, ending).Ok()
  {
    var t := Arrived(s, n, window, reset, ending);
    assert s.network == s.network[..n] + s.network[n..];
    assert t.Stream() == s.Stream();
    assert t.taken + t.inbound == s.taken + s.inbound + s.network[..n];
  }

  function Received(s: Sock, n: nat): Sock
    requires n <= |s.inbound|
  {
    s.(inbound := s.inbound[n..], taken := s.taken + s.inbound[..n])
  }

  lemma ReceivesLater(s: Sock, n: nat)
    requires s.Ok() && n <= |s.inbound|
    ensures Later(s, Received(s, n)) && Received(s, n).Ok()
  {
    var t := Received(s, n);
    assert s.inbound == s.inbound[..n] + s.inbound[n..];
    assert t.taken + t.inbound == s.taken + s.inbound;
  }

  /** A socket accept has just returned: nothing received or sent, in no epoll instance. */
  ghost predicate JustAccepted(s: Sock) {
    s.Ok() && s.taken == [] && s.sent == [] && s.arming == Off && s.epoll == NONE && s.open
  }

  datatype Errno = EAGAIN | FATAL

  class Kernel {
    var socks: map<int, Sock>
    var errno: Errno
    /** Connections waiting to be accepted. */
    var backlog: nat
    /** How many accept calls have failed. */
    ghost var failedAccepts: nat
    /** Whether send may answer 0 for a non-empty buffer; Linux stream sockets never do. */
    const zeroSends: bool

    constructor (zeroSends: bool) {
      socks, errno, backlog, failedAccepts := map[], EAGAIN, 0, 0;
      this.zeroSends := zeroSends;
    }

    /** Whatever happens on the wire before the next system call takes effect. */
    method Tick(fd: int)
      requires fd in socks && socks[fd].Ok()
      modifies this`socks
      ensures fd in socks && Quietly(old(socks[fd]), socks[fd]) && socks[fd].Ok()
      ensures socks == old(socks)[fd := socks[fd]]
    {
      var s := socks[fd];
      var n: nat :| n <= |s.network|;
      var window: nat :| 0 <= window;
      var reset: bool, ending: bool := *, *;
      ArrivesQuietly(s, n, window, reset, ending);
      socks := socks[fd := Arrived(s, n, window, reset, ending)];
    }

    method Recv(fd: int, room: nat) returns (ret: int, data: seq<byte>)
      requires fd in socks && socks[fd].Ok()
      modifies this
      ensures fd in socks && socks == old(socks)[fd := socks[fd]]
      ensures Later(old(socks[fd]), socks[fd]) && socks[fd].Ok()
      ensures socks[fd].sent == old(socks[fd].sent) && old(socks[fd].room) <= socks[fd].room
      ensures -1 <= ret <= room && |data| == (if ret > 0 then ret else 0)
      ensures socks[fd].taken == old(socks[fd].taken) + data
      ensures ret == 0 ==> room == 0 || (socks[fd].fin && socks[fd].inbound == [])
      ensures ret < 0 && errno == EAGAIN ==>
                socks[fd].inbound == [] && !socks[fd].fin && !socks[fd].broken
      ensures ret < 0 && errno == FATAL ==> socks[fd].broken
      ensures old(socks[fd].broken) && room > 0 ==> ret > 0 || (ret < 0 && errno == FATAL)
    {
      Tick(fd);
      var s := socks[fd];
      data := [];
      var first: bool := *;   // whether a failure is reported ahead of the bytes still queued
      if room == 0 {
        ret := 0;
      } else if s.broken && (first || s.inbound == []) {
        errno, ret := FATAL, -1;
      } else if s.inbound != [] {
        var n: nat :| 1 <= n <= room && n <= |s.inbound|;
        data, ret := s.inbound[..n], n;
        ReceivesLater(s, n);
        LaterTransitive(old(socks[fd]), s, Received(s, n));
        socks := socks[fd := Received(s, n)];
      } else if s.fin {
        ret := 0;
      } else {
        errno, ret := EAGAIN, -1;
      }
    }

    method Send(fd: int, data: seq<byte>) returns (ret: int)
      requires fd in socks && socks[fd].Ok() && data != []
      modifies this
      ensures fd in socks && socks == old(socks)[fd := socks[fd]]
      ensures Later(old(socks[fd]), socks[fd]) && socks[fd].Ok()
      ensures socks[fd].taken == old(socks[fd].taken)
      ensures -1 <= ret <= |data|
      ensures socks[fd].sent == old(socks[fd].sent) + (if ret > 0 then data[..ret] else [])
      ensures ret == 0 ==> zeroSends
      ensures ret < 0 && errno == EAGAIN ==> old(socks[fd].room) == 0
      ensures ret < 0 && errno == FATAL ==> socks[fd].broken
      ensures old(socks[fd].broken) ==> ret < 0 && errno == FATAL
      ensures old(socks[fd].room) <= socks[fd].room + (if ret > 0 then ret else 0)
    {
      Tick(fd);
      var s := socks[fd];
      var refuses: bool := *;
      if s.broken {
        errno, ret := FATAL, -1;
      } else if s.room == 0 {
        errno, ret := EAGAIN, -1;
      } else if zeroSends && refuses {
        ret := 0;
      } else {
        var n: nat :| 1 <= n <= s.room && n <= |data|;
        ret := n;
        LaterTransitive(old(socks[fd]), s, s.(sent := s.sent + data[..n], room := s.room - n));
        socks := socks[fd := s.(sent := s.sent + data[..n], room := s.room - n)];
      }
    }

    /** accept: a descriptor that is not open, for the next client; EAGAIN when there is none. */
    method Accept() returns (fd: int)
      modifies this`socks, this`backlog, this`errno, this`failedAccepts
      ensures failedAccepts == old(failedAccepts) + (if fd == -1 then 1 else 0)
      ensures fd == -1 ==> socks == old(socks) && backlog == old(backlog) && (errno == EAGAIN <==> backlog == 0)
      ensures fd != -1 ==>
        && 0 <= fd && (fd in old(socks) ==> !old(socks[fd].open))
        && fd in socks && JustAccepted(socks[fd]) && socks == old(socks)[fd := socks[fd]]
        && backlog == old(backlog) - 1
    {
      var n: int := *;
      if backlog == 0 || n < 0 || (n in socks && socks[n].open) {
        errno := if backlog == 0 then EAGAIN else FATAL;
        failedAccepts := failedAccepts + 1;
        return -1;
      }
      var window: nat :| 0 <= window;
      socks := socks[n := Sock([], [], [], [], [], window, false, false, false, Off, NONE, true)];
      backlog := backlog - 1;
      fd := n;
    }

    /** EPOLL_CTL_ADD; false is the exception thrown when epoll_ctl fails. */
    method Add(epoll: int, fd: int, mask: Mask) returns (ok: bool)
      requires fd in socks && epoll != NONE
      modifies this`socks
      ensures ok <==> old(socks[fd].open && socks[fd].epoll == NONE)
      ensures socks == if ok then old(socks)[fd := old(socks[fd]).(arming := Armed(mask), epoll := epoll)]
                       else old(socks)
    {
      ok := socks[fd].open && socks[fd].epoll == NONE;
      if ok {
        socks := socks[fd := socks[fd].(arming := Armed(mask), epoll := epoll)];
      }
    }

    /** EPOLL_CTL_MOD: also re-arms a one-shot registration. */
    method Modify(epoll: int, fd: int, mask: Mask) returns (ok: bool)
      requires fd in socks && socks[fd].Ok() && epoll != NONE
      modifies this`socks
      ensures ok <==> old(socks[fd].epoll == epoll)
      ensures fd in socks && socks == old(socks)[fd := socks[fd]]
      ensures socks[fd].Ok()
      ensures socks[fd].arming == if ok then Armed(mask) else old(socks[fd].arming)
      ensures Quietly(old(socks[fd]), socks[fd].(arming := old(socks[fd].arming)))
    {
      Tick(fd);
      ok := socks[fd].epoll == epoll;
      if ok {
        socks := socks[fd := socks[fd].(arming := Armed(mask))];
      }
    }

    /** EPOLL_CTL_DEL. */
    method Remove(epoll: int, fd: int) returns (ok: bool)
      requires epoll != NONE
      modifies this`socks
      ensures ok <==> old(fd in socks && socks[fd].epoll == epoll)
      ensures socks == if ok then old(socks)[fd := old(socks[fd]).(arming := Off, epoll := NONE)] else old(socks)
    {
      ok := fd in socks && socks[fd].epoll == epoll;
      if ok {
        socks := socks[fd := socks[fd].(arming := Off, epoll := NONE)];
      }
    }

    /** close: an open descriptor leaves its epoll instance too. */
    method Close(fd: int)
      modifies this`socks
      ensures socks == if old(fd in socks) then old(socks)[fd := Shut(old(socks[fd]))] else old(socks)
    {
      if fd in socks {
        socks := socks[fd := Shut(socks[fd])];
      }
    }
  }

  function Shut(s: Sock): Sock {
    s.(open := false, arming := Off, epoll := NONE)
  }
}
