/** One client connection: two growing byte buffers, a state and a heartbeat. */
module Connections {
  import opened Bytes
  import opened Sockets

  datatype ConnState = CONNECTING | CONNECTED | CLOSED

  /** The value of a connection: what its two buffers hold, without their spare room. */
  datatype Conn = Conn(fd: int, state: ConnState, rbuf: seq<byte>, wbuf: seq<byte>, heartbeat: int)

  function Max(a: int, b: int): int {
    if a < b then b else a
  }

  function Pow2(n: nat): nat {
    if n == 0 then 1 else 2 * Pow2(n - 1)
  }

  /** The read buffer's possible sizes. */
  ghost predicate Doubled(size: nat) {
    size == 0 || exists k: nat :: size == 4096 * Pow2(k)
  }

  lemma DoubledTwice(size: nat)
    requires Doubled(size) && 0 < size
    ensures Doubled(2 * size) && 4096 <= size
  {
    var k: nat :| size == 4096 * Pow2(k);
    Pow2Positive(k);
    assert 2 * size == 4096 * Pow2(k + 1);
  }

  lemma {:induction false} Pow2Positive(k: nat)
    ensures 1 <= Pow2(k)
  {
    if k > 0 { Pow2Positive(k - 1); }
  }

  /** std::vector::resize to a larger size. */
  method Resized(a: array<byte>, size: nat) returns (b: array<byte>)
    requires a.Length <= size
    ensures fresh(b) && b.Length == size
    ensures b[..a.Length] == a[..]
  {
    b := new byte[size](_ => 0);
    forall i | 0 <= i < a.Length {
      b[i] := a[i];
    }
  }

  class Connection {
    var fd: int
    var state: ConnState
    var lastHeartbeat: int
    var readBuffer: array<byte>
    var readIdx: nat
    var writeBuffer: array<byte>
    var writeIdx: nat

    // What the growth bounds are about: the fullest each buffer has been, and the bytes that all
    // its reallocations have copied.
    ghost var readPeak: nat
    ghost var readCopied: nat
    ghost var writePeak: nat
    ghost var writeCopied: nat

    ghost function Repr(): set<object>
      reads this
    {
      {this, readBuffer, writeBuffer}
    }

    ghost predicate Valid()
      reads this, readBuffer, writeBuffer
    {
      && readBuffer != writeBuffer
      && readIdx <= readBuffer.Length && writeIdx <= writeBuffer.Length
      && readIdx <= readPeak && writeIdx <= writePeak
      && ReadGrowth() && WriteGrowth()
    }

    /** Doubling sizes, at most about twice the fullest point, and copying bounded by the final size. */
    ghost predicate ReadGrowth()
      reads this, readBuffer
    {
      && Doubled(readBuffer.Length)
      && readBuffer.Length <= Max(4096, 2 * (readPeak + 1024))
      && readCopied <= readBuffer.Length
    }

    ghost predicate WriteGrowth()
      reads this, writeBuffer
    {
      && writeBuffer.Length <= 2 * writePeak
      && writeCopied <= writeBuffer.Length
    }

    ghost function Abs(): Conn
      reads this, readBuffer, writeBuffer
      requires Valid()
    {
      Conn(fd, state, readBuffer[..readIdx], writeBuffer[..writeIdx], lastHeartbeat)
    }

    constructor (fd: int, now: int)
      ensures Valid() && fresh(Repr())
      ensures Abs() == Conn(fd, CONNECTING, [], [], now)
    {
      this.fd := fd;
      state := CONNECTING;
      lastHeartbeat := now;
      readBuffer := new byte[0];
      writeBuffer := new byte[0];
      readIdx, writeIdx := 0, 0;
      readPeak, readCopied, writePeak, writeCopied := 0, 0, 0, 0;
    }

    method SetState(s: ConnState)
      requires Valid()
      modifies this`state
      ensures Valid() && Abs() == old(Abs()).(state := s)
    {
      state := s;
    }

    method UpdateHeartbeat(now: int)
      requires Valid()
      modifies this`lastHeartbeat
      ensures Valid() && Abs() == old(Abs()).(heartbeat := now)
    {
      lastHeartbeat := now;
    }

    predicate IsTimeout(now: int, timeoutMs: int)
      reads this
    {
      now - lastHeartbeat > timeoutMs
    }

    predicate HasPendingData()
      reads this
    {
      writeIdx > 0
    }

    /** Afterwards there are at least 1024 bytes to read into. */
    method CheckAndResizeReadBuffer()
      requires Valid()
      modifies this`readBuffer, this`readCopied
      ensures Valid() && Abs() == old(Abs())
      ensures readBuffer.Length - readIdx >= 1024
      ensures readBuffer == old(readBuffer) || fresh(readBuffer)
    {
      if readBuffer.Length - readIdx < 1024 {
        var newSize := Max(readBuffer.Length * 2, readIdx + 4096);
        if readBuffer.Length == 0 {
          assert Doubled(4096) by { assert 4096 == 4096 * Pow2(0); }
        } else {
          DoubledTwice(readBuffer.Length);
        }
        readCopied := readCopied + readBuffer.Length;
        ghost var before := readBuffer[..readIdx];
        var bigger := Resized(readBuffer, newSize);
        assert bigger[..readIdx] == bigger[..readBuffer.Length][..readIdx] == before;
        readBuffer := bigger;
      }
    }

    /** What recv stored at the end of the read buffer now belongs to it. */
    method TakeIn(data: seq<byte>)
      requires Valid() && readIdx + |data| <= readBuffer.Length
      modifies this`readIdx, this`readPeak, readBuffer
      ensures Valid() && Abs() == old(Abs()).(rbuf := old(Abs().rbuf) + data)
      ensures readPeak == Max(old(readPeak), readIdx)
    {
      ghost var before := readBuffer[..readIdx];
      forall i | 0 <= i < |data| {
        readBuffer[readIdx + i] := data[i];
      }
      assert readBuffer[..readIdx + |data|] == before + data;
      readIdx := readIdx + |data|;
      readPeak := Max(readPeak, readIdx);
    }

    /** The first `n` bytes of the write buffer are sent: the rest moves down, onto itself (memmove). */
    method ShiftOut(n: nat)
      requires Valid() && n <= writeIdx
      modifies this`writeIdx, writeBuffer
      ensures Valid() && Abs() == old(Abs()).(wbuf := old(Abs().wbuf)[n..])
    {
      ghost var before := writeBuffer[..writeIdx];
      forall i | 0 <= i < writeIdx - n {
        writeBuffer[i] := writeBuffer[n + i];
      }
      writeIdx := writeIdx - n;
      assert writeBuffer[..writeIdx] == before[n..];
    }

    /** The system call is always given room, so an answer of 0 can only mean end of stream. */
    method Recv(k: Kernel, now: int) returns (ret: int)
      requires Valid() && fd in k.socks && k.socks[fd].Ok()
      modifies this, readBuffer, k
      ensures Valid() && fd == old(fd)
      ensures readPeak == Max(old(readPeak), readIdx) && writePeak == old(writePeak)
      ensures readBuffer == old(readBuffer) || fresh(readBuffer)
      ensures writeBuffer == old(writeBuffer)
      ensures fd in k.socks && k.socks == old(k.socks)[fd := k.socks[fd]]
      ensures Later(old(k.socks[fd]), k.socks[fd]) && k.socks[fd].Ok()
      ensures k.socks[fd].sent == old(k.socks[fd].sent) && old(k.socks[fd].room) <= k.socks[fd].room
      ensures old(state) == CLOSED ==>
                ret == -1 && Abs() == old(Abs()) && k.socks == old(k.socks) && k.errno == old(k.errno)
      ensures old(state) != CLOSED ==> RecvOutcome(old(Abs()), old(k.socks[fd]), Abs(), k.socks[fd], ret, k.errno, now)
    {
      hide Later, ReadGrowth, WriteGrowth;
      LaterReflexive(k.socks[fd]);
      if state == CLOSED {
        return -1;
      }
      CheckAndResizeReadBuffer();
      var available := readBuffer.Length - readIdx;
      var data;
      ret, data := k.Recv(fd, available);
      if ret > 0 {
        TakeIn(data);
        UpdateHeartbeat(now);
      } else if ret == 0 {
        SetState(CLOSED);
      } else {
        if k.errno != EAGAIN {
          SetState(CLOSED);
        }
      }
    }

    /** Afterwards the bytes send accepted are gone from the front of the write buffer. */
    method Send(k: Kernel, now: int) returns (ret: int)
      requires Valid() && fd in k.socks && k.socks[fd].Ok()
      modifies this, writeBuffer, k
      ensures Valid() && fd == old(fd)
      ensures readPeak == old(readPeak) && writePeak == old(writePeak)
      ensures readBuffer == old(readBuffer) && writeBuffer == old(writeBuffer)
      ensures fd in k.socks && k.socks == old(k.socks)[fd := k.socks[fd]]
      ensures Later(old(k.socks[fd]), k.socks[fd]) && k.socks[fd].Ok()
      ensures k.socks[fd].taken == old(k.socks[fd].taken)
      ensures old(state) == CLOSED ==>
                ret == -1 && Abs() == old(Abs()) && k.socks == old(k.socks) && k.errno == old(k.errno)
      ensures old(state) != CLOSED ==>
                SendOutcome(old(Abs()), old(k.socks[fd]), Abs(), k.socks[fd], ret, k.errno, now, k.zeroSends)
    {
      hide Later, ReadGrowth, WriteGrowth;
      LaterReflexive(k.socks[fd]);
      if state == CLOSED {
        return -1;
      }
      var current := writeIdx;
      if current == 0 {
        return 0;
      }
      ret := k.Send(fd, writeBuffer[..current]);
      if ret > 0 {
        ShiftOut(ret);
        UpdateHeartbeat(now);
      } else if ret == 0 {
        SetState(CLOSED);
      } else {
        if k.errno != EAGAIN {
          SetState(CLOSED);
        }
      }
    }

    method ConsumeReadBuffer(len: nat)
      requires Valid()
      modifies this`readIdx, readBuffer
      ensures Valid()
      ensures Abs() == old(Abs()).(rbuf := if len >= old(readIdx) then [] else old(Abs().rbuf)[len..])
    {
      if len >= readIdx {
        readIdx := 0;
      } else {
        ghost var before := readBuffer[..readIdx];
        forall i | 0 <= i < readIdx - len {
          readBuffer[i] := readBuffer[len + i];
        }
        readIdx := readIdx - len;
        assert readBuffer[..readIdx] == before[len..];
      }
    }

    method MakeWriteRoom(len: nat)
      requires Valid()
      modifies this`writeBuffer, this`writePeak, this`writeCopied
      ensures Valid() && Abs() == old(Abs())
      ensures writeIdx + len <= writeBuffer.Length && writePeak == Max(old(writePeak), writeIdx + len)
      ensures writeBuffer == old(writeBuffer) || fresh(writeBuffer)
    {
      writePeak := Max(writePeak, writeIdx + len);
      if writeBuffer.Length < writeIdx + len {
        var newSize := Max(writeBuffer.Length * 2, writeIdx + len);
        writeCopied := writeCopied + writeBuffer.Length;
        ghost var pending := writeBuffer[..writeIdx];
        var bigger := Resized(writeBuffer, newSize);
        assert bigger[..writeIdx] == bigger[..writeBuffer.Length][..writeIdx] == pending;
        writeBuffer := bigger;
      }
    }

    method AppendWriteBuffer(data: array<byte>, len: nat)
      requires Valid() && len <= data.Length && data != writeBuffer
      modifies this`writeBuffer, this`writeIdx, this`writePeak, this`writeCopied, writeBuffer
      ensures Valid()
      ensures writeBuffer == old(writeBuffer) || fresh(writeBuffer)
      ensures Abs() == old(Abs()).(wbuf := old(Abs().wbuf) + old(data[..len]))
      ensures writePeak == Max(old(writePeak), writeIdx)
    {
      ghost var pending := writeBuffer[..writeIdx];
      ghost var added := data[..len];
      MakeWriteRoom(len);
      forall i | 0 <= i < len {
        writeBuffer[writeIdx + i] := data[i];
      }
      assert writeBuffer[..writeIdx + len] == pending + added;
      writeIdx := writeIdx + len;
    }

    /** Closes the descriptor, unless Recv or Send have already marked the connection closed. */
    method Close(k: Kernel)
      modifies this`state, this`fd, k`socks
      ensures state == CLOSED
      ensures fd == if old(state) == CLOSED then old(fd) else NONE
      ensures k.socks == if old(state) != CLOSED && old(fd) != NONE && old(fd in k.socks)
                         then old(k.socks)[old(fd) := Shut(old(k.socks[fd]))] else old(k.socks)
    {
      if state != CLOSED {
        state := CLOSED;
        if fd != NONE {
          k.Close(fd);
          fd := NONE;
        }
      }
    }
  }

  /** What one Recv on a connection that is not closed does, in terms of the bytes that moved. */
  ghost predicate RecvOutcome(c: Conn, s: Sock, c': Conn, s': Sock, ret: int, errno: Errno, now: int) {
    && s.taken <= s'.taken
    && c' == c.(rbuf := c.rbuf + s'.taken[|s.taken|..],
                heartbeat := if ret > 0 then now else c.heartbeat,
                state := if ret > 0 || (ret < 0 && errno == EAGAIN) then c.state else CLOSED)
    && |s'.taken| - |s.taken| == (if ret > 0 then ret else 0)
    && -1 <= ret
    && (ret == 0 ==> s'.fin && s'.inbound == [])
    && (ret < 0 && errno == EAGAIN ==> s'.inbound == [] && !s'.fin && !s'.broken)
    && (ret < 0 && errno == FATAL ==> s'.broken)
    && (s.broken ==> ret > 0 || (ret < 0 && errno == FATAL))
  }

  /** What one Send on a connection that is not closed does. */
  ghost predicate SendOutcome(c: Conn, s: Sock, c': Conn, s': Sock, ret: int, errno: Errno, now: int, zeroSends: bool) {
    && -1 <= ret <= |c.wbuf|
    && s'.sent == s.sent + (if ret > 0 then c.wbuf[..ret] else [])
    && c'.wbuf == (if ret > 0 then c.wbuf[ret..] else c.wbuf)
    && c' == c.(wbuf := c'.wbuf,
                heartbeat := if ret > 0 then now else c.heartbeat,
                state := if c.wbuf == [] || ret > 0 || (ret < 0 && errno == EAGAIN) then c.state else CLOSED)
    && (c.wbuf == [] ==> ret == 0 && s' == s)
    && (c.wbuf != [] && ret == 0 ==> zeroSends)
    && (ret < 0 && errno == EAGAIN ==> s.room == 0)
    && (ret < 0 && errno == FATAL ==> s'.broken)
    && (c.wbuf != [] && s.broken ==> ret < 0 && errno == FATAL)
    && s.room <= s'.room + Max(ret, 0)
  }
}
