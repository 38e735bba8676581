/**
 The echo protocol of one connection as a machine: the peer and the network, the one-shot
 edge-triggered registration, and the three event handlers, each described by the bytes it moves and
 the state it leaves rather than by its statements. The handlers of EventLoops are proved to take
 these steps.
 */
module Echo {
  import opened Bytes
  import opened Sockets
  import opened Connections

  /** An event epoll_wait has returned and no handler has served yet. */
  datatype Event = NoEvent | In | Out | Err

  /** One accepted connection: its socket, its Connection, whether the pool still maps it. */
  datatype Link = Link(sock: Sock, conn: Conn, mapped: bool, event: Event)

  /** What the server received, and what it sent, between two states. */
  ghost function Got(a: Link, b: Link): seq<byte>
    requires a.sock.taken <= b.sock.taken
  {
    b.sock.taken[|a.sock.taken|..]
  }

  ghost function Sent(a: Link, b: Link): seq<byte>
    requires a.sock.sent <= b.sock.sent
  {
    b.sock.sent[|a.sock.sent|..]
  }

  /** Nothing the peer wrote is lost or reordered by a handler, nor is anything sent taken back. */
  ghost predicate Carries(a: Sock, b: Sock) {
    && b.written == a.written && b.closed == a.closed
    && b.Ok()
    && a.taken <= b.taken && a.sent <= b.sent
    && a.taken + a.inbound <= b.taken + b.inbound
    && (a.fin ==> b.fin) && (a.broken ==> b.broken)
    && a.room <= b.room + |b.sent| - |a.sent|
  }

  /** The handler gave the connection up after Recv or Send had marked it closed: the descriptor stays open. */
  ghost predicate GivenUp(a: Link, b: Link) {
    && !b.mapped && b.conn.state == CLOSED && b.conn.fd == a.conn.fd
    && b.sock.arming == Off && b.sock.epoll == NONE && b.sock.open == a.sock.open
    && b.sock.sent == a.sock.sent
  }

  ghost predicate Kept(a: Link, b: Link) {
    && b.mapped && b.conn.state == a.conn.state && b.conn.fd == a.conn.fd
    && b.sock.epoll == a.sock.epoll && b.sock.open == a.sock.open
  }

  ghost predicate ReadEvent(a: Link, b: Link, now: int) {
    && Carries(a.sock, b.sock) && b.event == NoEvent
    && Sent(a, b) + b.conn.wbuf + b.conn.rbuf == a.conn.wbuf + a.conn.rbuf + Got(a, b)
    && b.conn.heartbeat == (if Got(a, b) != [] || Sent(a, b) != [] then now else a.conn.heartbeat)
    && (if b.mapped then
          && Kept(a, b)
          && b.conn.rbuf == []
          && a.sock.taken + a.sock.inbound <= b.sock.taken
          && !a.sock.fin && !a.sock.broken
          && (a.sock.room > 0 && a.conn.rbuf + Got(a, b) != [] ==> Sent(a, b) != [])
          && b.sock.arming == Armed(Mask(true, b.conn.wbuf != []))
        else
          && GivenUp(a, b)
          && (b.sock.broken || (b.sock.fin && b.sock.taken == b.sock.written)))
  }

  ghost predicate WriteEvent(a: Link, b: Link, now: int) {
    && Carries(a.sock, b.sock) && b.event == NoEvent
    && b.sock.taken == a.sock.taken && b.conn.rbuf == a.conn.rbuf
    && Sent(a, b) + b.conn.wbuf == a.conn.wbuf
    && (if b.mapped then
          && Kept(a, b)
          && (a.conn.wbuf != [] ==> !a.sock.broken)
          && (a.sock.room > 0 && a.conn.wbuf != [] ==> Sent(a, b) != [])
          && (if a.conn.wbuf == [] || Sent(a, b) != [] then
                b.sock.arming == Armed(Mask(true, b.conn.wbuf != [])) && b.conn.heartbeat == now
              else
                b.sock.arming == a.sock.arming && b.conn.heartbeat == a.conn.heartbeat)
        else
          && GivenUp(a, b)
          && b.conn.heartbeat == a.conn.heartbeat
          && a.conn.wbuf != [] && b.sock.broken)
  }

  /** HandleError, and the heartbeat's removal, of a connection nobody has marked closed. */
  function Dropped(a: Link): Link {
    a.(sock := Shut(a.sock), conn := a.conn.(state := CLOSED, fd := NONE), mapped := false)
  }

  // The machine

  ghost predicate Readable(s: Sock) {
    s.inbound != [] || s.fin
  }

  /** The event epoll_wait would return for an armed descriptor, in the order HandleEvents tests them. */
  ghost function Deliverable(s: Sock): Event {
    if s.arming == Off then NoEvent
    else if s.broken then Err
    else if s.arming.mask.input && Readable(s) then In
    else if s.arming.mask.output && s.room > 0 then Out
    else NoEvent
  }

  /** The peer writes, closes or resets; bytes travel; the send window opens. */
  ghost predicate Environment(a: Sock, b: Sock) {
    && b == a.(written := b.written, network := b.network, inbound := b.inbound,
               room := b.room, closed := b.closed, fin := b.fin, broken := b.broken)
    && b.Ok()
    && a.written <= b.written && a.inbound <= b.inbound && a.room <= b.room
    && (a.closed ==> b.closed && b.written == a.written)
    && (a.fin ==> b.fin) && (a.broken ==> b.broken)
  }

  datatype Step = Env | Deliver | Handle(now: int) | Reap

  ghost predicate Next(a: Link, st: Step, b: Link) {
    match st
    case Env => Environment(a.sock, b.sock) && b == a.(sock := b.sock)
    case Deliver =>
      && a.event == NoEvent && Deliverable(a.sock) != NoEvent
      && b == a.(sock := a.sock.(arming := Off), event := Deliverable(a.sock))
    case Handle(now) =>
      && a.event != NoEvent
      && (if !a.mapped then a.event != Err && b == a.(event := NoEvent)
          else if a.event == In then ReadEvent(a, b, now)
          else if a.event == Out then WriteEvent(a, b, now)
          else b == Dropped(a).(event := NoEvent))
    case Reap => a.mapped && b == Dropped(a)
  }

  ghost predicate NewConn(c: Conn) {
    c.state == CONNECTED && c.rbuf == [] && c.wbuf == []
  }

  /** Both directions armed, nothing received or sent. */
  ghost predicate NewSock(s: Sock) {
    && s.Ok() && s.taken == [] && s.sent == []
    && s.arming == Armed(Mask(true, true)) && s.open && s.epoll != NONE
  }

  /** As HandleAccept leaves it. */
  ghost predicate Accepted(l: Link) {
    l.mapped && l.event == NoEvent && NewConn(l.conn) && NewSock(l.sock)
  }

  ghost predicate Registered(l: Link) {
    match l.event
    case NoEvent =>
      l.sock.arming.Armed? && l.sock.arming.mask.input && (l.conn.wbuf != [] ==> l.sock.arming.mask.output)
    case In => l.sock.arming == Off && (Readable(l.sock) || l.sock.broken)
    case Out => l.sock.arming == Off && l.sock.room > 0
    case Err => l.sock.arming == Off && l.sock.broken
  }

  ghost predicate Inv(l: Link) {
    && l.sock.Ok()
    && l.sock.taken == l.sock.sent + l.conn.wbuf + l.conn.rbuf
    && (if l.mapped then
          && l.conn.state == CONNECTED && l.conn.rbuf == []
          && l.sock.open && l.sock.epoll != NONE
          && Registered(l)
        else l.conn.state == CLOSED && l.sock.arming == Off)
  }

  /** Moving bytes along the queue received - to echo - to send - sent keeps their order. */
  lemma QueueMoves(sent: seq<byte>, w: seq<byte>, r: seq<byte>, got: seq<byte>,
                   out: seq<byte>, w': seq<byte>, r': seq<byte>)
    requires out + w' + r' == w + r + got
    ensures sent + w + r + got == sent + out + w' + r'
  {
    assert sent + w + r + got == sent + (w + r + got);
    assert sent + out + w' + r' == sent + (out + w' + r');
  }

  lemma ReadKeepsInv(a: Link, b: Link, now: int)
    requires Inv(a) && a.mapped && a.event == In && ReadEvent(a, b, now)
    ensures Inv(b)
  {
    assert b.sock.taken == a.sock.taken + Got(a, b);
    assert b.sock.sent == a.sock.sent + Sent(a, b);
    QueueMoves(a.sock.sent, a.conn.wbuf, a.conn.rbuf, Got(a, b), Sent(a, b), b.conn.wbuf, b.conn.rbuf);
  }

  lemma WriteKeepsInv(a: Link, b: Link, now: int)
    requires Inv(a) && a.mapped && a.event == Out && WriteEvent(a, b, now)
    ensures Inv(b)
  {
    assert b.sock.sent == a.sock.sent + Sent(a, b);
    assert a.sock.sent + (Sent(a, b) + b.conn.wbuf) == b.sock.sent + b.conn.wbuf;
  }

  lemma StepKeepsInv(a: Link, st: Step, b: Link)
    requires Inv(a) && Next(a, st, b)
    ensures Inv(b)
  {
    match st
    case Handle(now) =>
      if a.mapped && a.event == In { ReadKeepsInv(a, b, now); }
      if a.mapped && a.event == Out { WriteKeepsInv(a, b, now); }
    case _ =>
  }

  ghost predicate IsRun(ls: seq<Link>, steps: seq<Step>) {
    && |ls| == |steps| + 1
    && Accepted(ls[0])
    && forall i :: 0 <= i < |steps| ==> Next(ls[i], steps[i], ls[i + 1])
  }

  lemma {:induction false} RunInv(ls: seq<Link>, steps: seq<Step>, i: nat)
    requires IsRun(ls, steps) && i < |ls|
    ensures Inv(ls[i])
  {
    if i > 0 {
      RunInv(ls, steps, i - 1);
      StepKeepsInv(ls[i - 1], steps[i - 1], ls[i]);
    }
  }

  /**
   Echo safety. In every run, what was received is what was sent, then what waits to be sent, then
   what waits to be echoed; so what was sent is always a prefix of what the peer wrote, and a
   connection still served has nothing left in its read buffer.
   */
  lemma EchoSafety(ls: seq<Link>, steps: seq<Step>, i: nat)
    requires IsRun(ls, steps) && i < |ls|
    ensures var l := ls[i];
      && l.sock.taken == l.sock.sent + l.conn.wbuf + l.conn.rbuf
      && l.sock.sent <= l.sock.taken <= l.sock.written
      && (l.mapped ==> l.conn.rbuf == [] && l.conn.state == CONNECTED)
  {
    RunInv(ls, steps, i);
  }

  /**
   No connection is stranded: if no event is pending or deliverable for a connection still served,
   then everything that arrived has been received, no end or failure has gone unnoticed, and what is
   left to send is held back only by a full send window.
   */
  lemma NotStuck(ls: seq<Link>, steps: seq<Step>, i: nat)
    requires IsRun(ls, steps) && i < |ls|
    requires ls[i].mapped && ls[i].event == NoEvent && Deliverable(ls[i].sock) == NoEvent
    ensures ls[i].sock.inbound == [] && !ls[i].sock.fin && !ls[i].sock.broken
    ensures ls[i].conn.wbuf == [] || ls[i].sock.room == 0
  {
    RunInv(ls, steps, i);
  }

  /** When nothing is in flight, no event is left and the window is open, the whole input has been echoed. */
  lemma QuiescentEcho(ls: seq<Link>, steps: seq<Step>, i: nat)
    requires IsRun(ls, steps) && i < |ls|
    requires ls[i].mapped && ls[i].event == NoEvent && Deliverable(ls[i].sock) == NoEvent
    requires ls[i].sock.network == [] && ls[i].sock.room > 0
    ensures ls[i].sock.sent == ls[i].sock.written
  {
    RunInv(ls, steps, i);
    NotStuck(ls, steps, i);
    assert ls[i].sock.sent + [] + [] == ls[i].sock.sent;
    assert ls[i].sock.taken + [] + [] == ls[i].sock.taken;
  }

  // Progress

  ghost function Attention(l: Link): nat {
    match l.event
    case NoEvent => if l.sock.arming.Armed? && l.sock.arming.mask.output then 3 else 1
    case In => 0
    case Out => 2
    case Err => 0
  }

  /** Work left: bytes to receive count more than bytes to send, and each event some more. */
  ghost function Potential(l: Link): nat {
    6 * (|l.sock.written| - Min(|l.sock.taken|, |l.sock.written|)) + 2 * |l.conn.wbuf|
      + (if l.mapped then 2 + Attention(l) else if l.event == NoEvent then 0 else 1)
  }

  ghost function Min(a: nat, b: nat): nat {
    if a < b then a else b
  }

  lemma DeliverUsesPotential(a: Link, b: Link)
    requires Inv(a) && Next(a, Deliver, b)
    ensures a.mapped && Potential(b) < Potential(a)
  {
  }

  lemma ReadUsesPotential(a: Link, b: Link, now: int)
    requires Inv(a) && a.mapped && a.event == In && ReadEvent(a, b, now)
    ensures Potential(b) < Potential(a)
  {
    ReadKeepsInv(a, b, now);
    assert |Sent(a, b)| + |b.conn.wbuf| + |b.conn.rbuf| == |a.conn.wbuf| + |Got(a, b)| by {
      assert |Sent(a, b) + b.conn.wbuf + b.conn.rbuf| == |a.conn.wbuf + a.conn.rbuf + Got(a, b)|;
    }
    assert |b.sock.taken| == |a.sock.taken| + |Got(a, b)| <= |b.sock.written|;
    if b.mapped {
      assert a.sock.inbound != [];
      assert |a.sock.taken + a.sock.inbound| <= |b.sock.taken|;
    }
  }

  lemma WriteUsesPotential(a: Link, b: Link, now: int)
    requires Inv(a) && a.mapped && a.event == Out && WriteEvent(a, b, now)
    ensures Potential(b) < Potential(a)
  {
    assert |Sent(a, b)| + |b.conn.wbuf| == |a.conn.wbuf| by {
      assert |Sent(a, b) + b.conn.wbuf| == |a.conn.wbuf|;
    }
  }

  /** Every step of the server uses up potential; only newly written bytes add any. */
  lemma StepPotential(a: Link, st: Step, b: Link)
    requires Inv(a) && Next(a, st, b)
    ensures st != Env ==> Potential(b) < Potential(a) && b.sock.written == a.sock.written
    ensures st == Env ==> Potential(b) == Potential(a) + 6 * (|b.sock.written| - |a.sock.written|)
    ensures a.sock.written <= b.sock.written
  {
    StepKeepsInv(a, st, b);
    assert |a.sock.taken| <= |a.sock.written|;
    match st
    case Deliver => DeliverUsesPotential(a, b);
    case Handle(now) =>
      if a.mapped && a.event == In { ReadUsesPotential(a, b, now); }
      if a.mapped && a.event == Out { WriteUsesPotential(a, b, now); }
    case _ =>
  }

  ghost function ServerSteps(steps: seq<Step>): nat {
    if steps == [] then 0
    else ServerSteps(steps[..|steps| - 1]) + (if steps[|steps| - 1] == Env then 0 else 1)
  }

  /**
   The server never spins on a connection: over any run it takes at most six steps per byte the peer
   wrote, and five more. With NotStuck and QuiescentEcho: a connection that lives is echoed in full.
   */
  lemma {:induction false} WorkBounded(ls: seq<Link>, steps: seq<Step>)
    requires IsRun(ls, steps)
    ensures ServerSteps(steps) + Potential(ls[|steps|]) <= 6 * |ls[|steps|].sock.written| + 5
    decreases |steps|
  {
    if steps != [] {
      var n := |steps| - 1;
      WorkBounded(ls[..n + 1], steps[..n]);
      RunInv(ls, steps, n);
      StepPotential(ls[n], steps[n], ls[n + 1]);
    }
  }

  /**
   A read event on an open window answers at once: if anything arrived it sends at least a byte, and all
   it could not send waits with the descriptor armed for writing.
   */
  lemma EchoesAtOnce(ls: seq<Link>, steps: seq<Step>, i: nat)
    requires IsRun(ls, steps) && i < |steps| && steps[i].Handle?
    requires ls[i].mapped && ls[i].event == In && ls[i + 1].mapped
    ensures var a, b := ls[i], ls[i + 1];
      && a.sock.taken + a.sock.inbound <= b.sock.taken
      && b.sock.taken == b.sock.sent + b.conn.wbuf
      && (|b.sock.taken| > |a.sock.taken| && a.sock.room > 0 ==> |b.sock.sent| > |a.sock.sent|)
      && b.sock.arming == Armed(Mask(true, b.conn.wbuf != []))
  {
    RunInv(ls, steps, i + 1);
    var a, b := ls[i], ls[i + 1];
    assert Next(a, steps[i], b);
    assert b.sock.sent + b.conn.wbuf + [] == b.sock.sent + b.conn.wbuf;
    if |b.sock.taken| > |a.sock.taken| {
      assert |a.conn.rbuf + Got(a, b)| > 0;
    }
  }

  // Where the code does less than an echo server might promise

  /**
   A read event keeps the connection exactly when neither the end of the stream nor a failure has
   arrived (as long as neither arrives during the handler).
   */
  lemma ReadSurvivesIff(a: Link, b: Link, now: int)
    requires Inv(a) && a.mapped && a.event == In && ReadEvent(a, b, now)
    requires b.sock.fin == a.sock.fin && b.sock.broken == a.sock.broken
    ensures b.mapped <==> !a.sock.fin && !a.sock.broken
  {
  }

  /**
   What the peer has not been sent when its connection goes is lost (LostForGood). Barring failures, a
   read event that ends the connection loses nothing exactly when nothing waited to be sent and nothing
   was still to be received. So when the end of the stream does not arrive in mid-handler, a read event
   loses something exactly when that end finds bytes waiting, in the write buffer or in the queue.
   */
  lemma EchoCompleteIff(a: Link, b: Link, now: int)
    requires Inv(a) && a.mapped && a.event == In && ReadEvent(a, b, now) && !b.sock.broken
    ensures !b.mapped ==> (b.sock.sent == b.sock.written <==>
                           a.conn.wbuf == [] && a.sock.inbound == [] && a.sock.network == [])
    ensures b.sock.fin == a.sock.fin ==>
              (b.mapped || b.sock.sent == b.sock.written <==>
               !a.sock.fin || (a.conn.wbuf == [] && a.sock.inbound == []))
  {
    if !b.mapped {
      var waiting := a.conn.wbuf + a.sock.inbound + a.sock.network;
      assert b.sock.written == a.sock.taken + a.sock.inbound + a.sock.network;
      assert a.sock.taken == a.sock.sent + a.conn.wbuf by { assert a.conn.rbuf == []; }
      assert b.sock.written == b.sock.sent + waiting;
      assert |b.sock.written| == |b.sock.sent| + |waiting|;
      assert waiting == [] ==> b.sock.written == b.sock.sent;
    }
  }

  /** Nothing is sent any more on a connection that has been dropped. */
  lemma {:induction false} LostForGood(ls: seq<Link>, steps: seq<Step>, i: nat, j: nat)
    requires IsRun(ls, steps) && i <= j < |ls| && !ls[i].mapped
    ensures !ls[j].mapped && ls[j].sock.sent == ls[i].sock.sent && ls[i].sock.written <= ls[j].sock.written
    decreases j
  {
    if j > i {
      LostForGood(ls, steps, i, j - 1);
      assert Next(ls[j - 1], steps[j - 1], ls[j]);
    }
  }

  /**
   The run that shows it: a peer writes one byte, here 120, and shuts down its side. The byte and the
   end arrive together; the server takes the byte and drops the connection, with the window open.
   */
  lemma HalfCloseLosesEcho() returns (ls: seq<Link>, steps: seq<Step>)
    ensures IsRun(ls, steps) && |steps| == 3 && steps[2].Handle? && ls[2].event == In
    ensures var b := ls[3];
      !b.mapped && !b.sock.broken && b.sock.written == b.sock.taken == [120] && b.sock.sent == [] && b.sock.room == 10
  {
    var s0 := Sock([], [], [], [], [], 10, false, false, false, Armed(Mask(true, true)), 1, true);
    var s1 := Sock([120], [], [120], [], [], 10, true, true, false, Armed(Mask(true, true)), 1, true);
    var c0, c1 := Conn(5, CONNECTED, [], [], 0), Conn(5, CLOSED, [120], [], 7);
    var a := Link(s1.(arming := Off), c0, true, In);
    var b := Link(s1.(arming := Off, epoll := NONE, inbound := [], taken := [120]), c1, false, NoEvent);
    ls := [Link(s0, c0, true, NoEvent), Link(s1, c0, true, NoEvent), a, b];
    steps := [Env, Deliver, Handle(7)];
    assert s1.Stream() == [120] && b.sock.Stream() == [120];
    assert Got(a, b) == [120] && Sent(a, b) == [];
    assert ReadEvent(a, b, 7);
  }

  /**
   A write event on a connection with data pending re-arms the descriptor exactly when the window is
   open (as long as it does not open during the handler).
   */
  lemma WriteRearmsIff(a: Link, b: Link, now: int)
    requires a.event == Out && a.sock.arming == Off && WriteEvent(a, b, now) && b.mapped
    requires a.sock.room == b.sock.room + |Sent(a, b)|
    ensures b.sock.arming != Off <==> a.conn.wbuf == [] || a.sock.room > 0
    ensures b.sock.arming != Off ==> b.sock.arming == Armed(Mask(true, b.conn.wbuf != []))
  {
  }

  /** The descriptor is closed exactly when Recv and Send had not already marked the connection closed. */
  lemma ClosedIffDropped(a: Link, b: Link, now: int)
    requires Inv(a) && a.mapped && Next(a, Handle(now), b) && !b.mapped
    ensures b.sock.open <==> a.event != Err
  {
  }
}
