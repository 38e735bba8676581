/**
 The connection index as a value, and the threads that step over it: the acceptor, the IO loops (whose
 handlers refresh a connection, or mark it closed and then remove it), the heartbeat with its snapshot
 and its removals, and shutdown.
 */
module PoolProtocol {
  import opened Connections

  /** What the index and the heartbeat know of a connection. */
  datatype Entry = Entry(fd: int, state: ConnState, heartbeat: int)

  datatype Pool = Pool(conns: map<int, Entry>, running: bool, max: nat, timeoutMs: int)

  predicate TimedOut(e: Entry, now: int, timeoutMs: int) {
    now - e.heartbeat > timeoutMs
  }

  /** The index without the connections that have timed out. */
  function Live(m: map<int, Entry>, now: int, timeoutMs: int): map<int, Entry> {
    map fd | fd in m && !TimedOut(m[fd], now, timeoutMs) :: m[fd]
  }

  predicate CanAdd(p: Pool, fd: int) {
    p.running && |p.conns| < p.max && fd !in p.conns
  }

  function Added(p: Pool, e: Entry): Pool {
    if CanAdd(p, e.fd) then p.(conns := p.conns[e.fd := e]) else p
  }

  function Removed(p: Pool, fd: int): Pool {
    p.(conns := p.conns - {fd})
  }

  function Refreshed(p: Pool, fd: int, now: int): Pool
    requires fd in p.conns
  {
    p.(conns := p.conns[fd := p.conns[fd].(heartbeat := now)])
  }

  function Marked(p: Pool, fd: int): Pool
    requires fd in p.conns
  {
    p.(conns := p.conns[fd := p.conns[fd].(state := CLOSED)])
  }

  function Emptied(p: Pool): Pool {
    if p.running then p.(conns := map[], running := false) else p
  }

  /** The heartbeat thread: waiting, or working through the descriptors of its last snapshot. */
  datatype Sweep = Waiting | Sweeping(at: int, seen: map<int, Entry>, left: seq<int>)

  /** `closing`: descriptors whose handler has marked its connection closed and not yet removed it. */
  datatype World = World(pool: Pool, now: int, sweep: Sweep, closing: set<int>)

  datatype Step =
    | Init(max: nat, timeoutMs: int)
    | Accept(fd: int)
    | Heard(fd: int, refresh: bool)    // a handler keeps the connection; `refresh`: it received or sent
    | Marking(fd: int, mapped: bool)   // Recv or Send mark its connection, still mapped or no longer, closed
    | Ended(fd: int)                   // a handler removes the connection, marked or not
    | Shutdown
    | Time(later: int)
    | Snapshot(fds: seq<int>)
    | Reap
    | SweepDone

  ghost predicate Next(w: World, st: Step, w': World) {
    match st
    case Init(max, timeoutMs) => w' == w.(pool := Pool(w.pool.conns, true, max, timeoutMs))
    case Accept(fd) => w' == w.(pool := Added(w.pool, Entry(fd, CONNECTED, w.now)))
    case Heard(fd, refresh) =>
      && fd in w.pool.conns
      && w' == w.(pool := if refresh then Refreshed(w.pool, fd, w.now) else w.pool)
    case Marking(fd, mapped) =>
      && (mapped ==> fd in w.pool.conns)
      && w' == w.(pool := if mapped then Marked(w.pool, fd) else w.pool, closing := w.closing + {fd})
    case Ended(fd) => w' == w.(pool := Removed(w.pool, fd), closing := w.closing - {fd})
    case Shutdown => w' == w.(pool := Emptied(w.pool))
    case Time(later) => w.now <= later && w' == w.(now := later)
    case Snapshot(fds) =>
      && w.sweep == Waiting
      && (forall fd :: fd in fds <==> fd in w.pool.conns && TimedOut(w.pool.conns[fd], w.now, w.pool.timeoutMs))
      && w' == w.(sweep := Sweeping(w.now, w.pool.conns, fds))
    case Reap =>
      && w.sweep.Sweeping? && w.sweep.left != []
      && w' == w.(pool := Removed(w.pool, w.sweep.left[0]), sweep := w.sweep.(left := w.sweep.left[1..]))
    case SweepDone => w.sweep.Sweeping? && w.sweep.left == [] && w' == w.(sweep := Waiting)
  }

  ghost predicate PoolInv(p: Pool, closing: set<int>) {
    && |p.conns| <= p.max
    && (!p.running ==> p.conns == map[])
    && forall fd :: fd in p.conns ==> p.conns[fd].fd == fd && (p.conns[fd].state == CLOSED ==> fd in closing)
  }

  /** Each connection has the heartbeat of the snapshot or has been accepted or heard from since. */
  ghost predicate SweepInv(w: World) {
    w.sweep.Sweeping? ==>
      && w.sweep.at <= w.now
      && forall fd :: fd in w.pool.conns ==>
           (fd in w.sweep.seen && w.pool.conns[fd].heartbeat == w.sweep.seen[fd].heartbeat)
           || w.pool.conns[fd].heartbeat >= w.sweep.at
  }

  ghost predicate Start(w: World) {
    w.pool.conns == map[] && !w.pool.running && w.sweep == Waiting && w.closing == {}
  }

  /** An Init that does not set the limit below what is already mapped. */
  ghost predicate Roomy(w: World, st: Step) {
    st.Init? ==> |w.pool.conns| <= st.max
  }

  lemma StepKeepsInv(w: World, st: Step, w': World)
    requires PoolInv(w.pool, w.closing) && SweepInv(w) && Next(w, st, w') && Roomy(w, st)
    ensures PoolInv(w'.pool, w'.closing) && SweepInv(w')
  {
    if st.Heard? || st.Marking? {
      assert w'.pool.conns.Keys == w.pool.conns.Keys;
    }
  }

  ghost predicate IsRun(ws: seq<World>, steps: seq<Step>) {
    && |ws| == |steps| + 1
    && Start(ws[0])
    && forall i :: 0 <= i < |steps| ==> Next(ws[i], steps[i], ws[i + 1]) && Roomy(ws[i], steps[i])
  }

  /**
   Init does not look at what is mapped: a limit below that breaks the invariant, and only that does;
   nothing more is taken until enough connections have gone.
   */
  lemma InitKeepsInvIff(w: World, max: nat, timeoutMs: int, w': World)
    requires PoolInv(w.pool, w.closing) && Next(w, Init(max, timeoutMs), w')
    ensures PoolInv(w'.pool, w'.closing) <==> |w.pool.conns| <= max
    ensures |w.pool.conns| >= max ==> forall fd :: !CanAdd(w'.pool, fd)
  {
  }

  /**
   In every interleaving: the limit holds, every entry is filed under its own descriptor, and a
   connection in the index is marked closed only while the handler that marked it is on its way to
   remove it. So between handlers none is.
   */
  lemma {:induction false} PoolStaysSound(ws: seq<World>, steps: seq<Step>, i: nat)
    requires IsRun(ws, steps) && i < |ws|
    ensures PoolInv(ws[i].pool, ws[i].closing) && SweepInv(ws[i])
    ensures ws[i].closing == {} ==> forall fd :: fd in ws[i].pool.conns ==> ws[i].pool.conns[fd].state != CLOSED
  {
    if i > 0 {
      PoolStaysSound(ws, steps, i - 1);
      StepKeepsInv(ws[i - 1], steps[i - 1], ws[i]);
    }
  }

  /**
   In every run a connection with a new descriptor is taken exactly when the index is running and holds
   fewer than the limit; no other entry changes.
   */
  lemma TakenIff(ws: seq<World>, steps: seq<Step>, i: nat, fd: int)
    requires IsRun(ws, steps) && i < |steps| && steps[i] == Accept(fd) && fd !in ws[i].pool.conns
    ensures fd in ws[i + 1].pool.conns <==> ws[i].pool.running && |ws[i].pool.conns| < ws[i].pool.max
    ensures fd in ws[i + 1].pool.conns ==> ws[i + 1].pool.conns[fd] == Entry(fd, CONNECTED, ws[i].now)
    ensures forall g :: g != fd ==> (g in ws[i + 1].pool.conns <==> g in ws[i].pool.conns)
    ensures forall g :: g in ws[i].pool.conns ==> ws[i + 1].pool.conns[g] == ws[i].pool.conns[g]
  {
    assert Next(ws[i], steps[i], ws[i + 1]);
  }

  /** The index after connections have been offered one after the other. */
  ghost function Offered(p: Pool, fds: seq<int>, now: int): Pool {
    if fds == [] then p
    else Added(Offered(p, fds[..|fds| - 1], now), Entry(fds[|fds| - 1], CONNECTED, now))
  }

  /** The limit itself is reached: of new descriptors offered one after the other the first are taken, up to it. */
  lemma {:induction false} FillsToLimit(p: Pool, fds: seq<int>, now: int)
    requires p.running && |p.conns| <= p.max
    requires forall i :: 0 <= i < |fds| ==> fds[i] !in p.conns
    requires forall i, j :: 0 <= i < j < |fds| ==> fds[i] != fds[j]
    ensures FilledFrom(p, fds, Offered(p, fds, now))
    decreases |fds|
  {
    if fds != [] {
      var before, fd := fds[..|fds| - 1], fds[|fds| - 1];
      FillsToLimit(p, before, now);
      assert fd !in before;
      OneMoreOffered(p, before, Offered(p, before, now), fd, now);
      assert before + [fd] == fds;
    }
  }

  ghost predicate FilledFrom(p: Pool, fds: seq<int>, q: Pool) {
    && q.running && q.max == p.max
    && |q.conns| == (if |p.conns| + |fds| < p.max then |p.conns| + |fds| else p.max)
    && (forall i :: 0 <= i < |fds| ==> (fds[i] in q.conns <==> |p.conns| + i < p.max))
    && (forall g :: g in p.conns ==> g in q.conns && q.conns[g] == p.conns[g])
    && (forall g :: g in q.conns ==> g in p.conns || g in fds)
  }

  lemma OneMoreOffered(p: Pool, fds: seq<int>, q: Pool, fd: int, now: int)
    requires |p.conns| <= p.max && FilledFrom(p, fds, q) && fd !in fds && fd !in p.conns
    ensures FilledFrom(p, fds + [fd], Added(q, Entry(fd, CONNECTED, now)))
  {
    var r := Added(q, Entry(fd, CONNECTED, now));
    assert fd !in q.conns;
    forall i | 0 <= i < |fds| ensures fds[i] in r.conns <==> |p.conns| + i < p.max {
      assert fds[i] in fds;
    }
  }

  /** After Shutdown the index stays empty until the next Init. */
  lemma {:induction false} EmptyAfterShutdown(ws: seq<World>, steps: seq<Step>, i: nat, j: nat)
    requires IsRun(ws, steps) && i < j < |ws| && steps[i] == Shutdown
    requires forall k :: i < k < j ==> !steps[k].Init?
    ensures ws[j].pool.conns == map[] && !ws[j].pool.running
    decreases j
  {
    if j == i + 1 {
      PoolStaysSound(ws, steps, i);
    } else {
      EmptyAfterShutdown(ws, steps, i, j - 1);
      assert Next(ws[j - 1], steps[j - 1], ws[j]);
    }
  }

  /** Whatever the heartbeat still has to remove was, at its snapshot, mapped to a timed-out connection. */
  lemma {:induction false} LeftWereTimedOut(ws: seq<World>, steps: seq<Step>, i: nat, j: nat)
    requires IsRun(ws, steps) && i < j < |ws| && steps[i].Snapshot?
    requires forall k :: i < k < j ==> !steps[k].SweepDone?
    ensures ws[j].sweep.Sweeping? && ws[j].sweep.at == ws[i].now && ws[j].sweep.seen == ws[i].pool.conns
    ensures forall fd :: fd in ws[j].sweep.left ==>
              fd in ws[i].pool.conns && TimedOut(ws[i].pool.conns[fd], ws[i].now, ws[i].pool.timeoutMs)
    decreases j
  {
    if j > i + 1 {
      LeftWereTimedOut(ws, steps, i, j - 1);
      assert Next(ws[j - 1], steps[j - 1], ws[j]);
    }
  }

  /**
   Every descriptor the heartbeat removes was mapped to a timed-out connection at its snapshot. But it
   removes by number, later: the connection it hits is timed out exactly when it has the heartbeat the
   snapshot saw, or else was accepted or heard from after the snapshot and yet longer ago than the
   timeout. In a sweep that lasts no longer than the timeout there is only the first case.
   */
  lemma ReapHitsTimedOutIff(ws: seq<World>, steps: seq<Step>, i: nat, j: nat)
    requires IsRun(ws, steps) && i < j < |steps| && steps[i].Snapshot? && steps[j] == Reap
    requires forall k :: i < k < j ==> !steps[k].SweepDone? && !steps[k].Init?
    ensures ws[j].sweep.Sweeping? && ws[j].sweep.left != []
    ensures var fd := ws[j].sweep.left[0];
      && fd in ws[i].pool.conns && TimedOut(ws[i].pool.conns[fd], ws[i].now, ws[i].pool.timeoutMs)
      && fd !in ws[j + 1].pool.conns
      && (fd in ws[j].pool.conns ==>
            var hit, same := ws[j].pool.conns[fd], ws[j].pool.conns[fd].heartbeat == ws[i].pool.conns[fd].heartbeat;
            && (TimedOut(hit, ws[j].now, ws[j].pool.timeoutMs) <==>
                same || ws[i].now <= hit.heartbeat < ws[j].now - ws[j].pool.timeoutMs)
            && (ws[j].now - ws[i].now <= ws[j].pool.timeoutMs ==>
                (TimedOut(hit, ws[j].now, ws[j].pool.timeoutMs) <==> same)))
  {
    assert Next(ws[j], steps[j], ws[j + 1]);
    LeftWereTimedOut(ws, steps, i, j);
    PoolStaysSound(ws, steps, j);
    TimeoutConstant(ws, steps, i, j);
    assert ws[j].sweep.left[0] in ws[j].sweep.left;
  }

  lemma {:induction false} TimeoutConstant(ws: seq<World>, steps: seq<Step>, i: nat, j: nat)
    requires IsRun(ws, steps) && i < j < |ws| && steps[i].Snapshot?
    requires forall k :: i < k < j ==> !steps[k].Init?
    ensures ws[j].pool.timeoutMs == ws[i].pool.timeoutMs
    decreases j
  {
    assert Next(ws[j - 1], steps[j - 1], ws[j]);
    if j > i + 1 {
      TimeoutConstant(ws, steps, i, j - 1);
    }
  }

  lemma ReusePools(e: Entry)
    requires e.fd == 5
    ensures Added(Pool(map[], true, 9, 60), e) == Pool(map[5 := e], true, 9, 60)
    ensures Removed(Pool(map[5 := e], true, 9, 60), 5) == Pool(map[], true, 9, 60)
  {
    assert map[5 := e] - {5} == map[];
  }

  /**
   The run that shows it: the old connection 5 ends after the snapshot, a new one gets its number and is
   removed. For the number to be free again the old connection must have ended by an error event, since
   an end noticed by Recv or Send leaves the descriptor open (Echo.ClosedIffDropped).
   */
  lemma ReapCanHitNewConnection() returns (ws: seq<World>, steps: seq<Step>)
    ensures IsRun(ws, steps) && |steps| == 7 && steps[3].Snapshot? && steps[6] == Reap
    ensures 5 in ws[6].pool.conns && ws[6].pool.conns[5].heartbeat == ws[6].now
    ensures !TimedOut(ws[6].pool.conns[5], ws[6].now, ws[6].pool.timeoutMs)
    ensures 5 !in ws[7].pool.conns
  {
    var a := Entry(5, CONNECTED, 0);
    var b := Entry(5, CONNECTED, 100);
    ReusePools(a);
    ReusePools(b);
    hide Added, Removed, Refreshed, Marked, Emptied;
    var empty, one, two := Pool(map[], true, 9, 60), Pool(map[5 := a], true, 9, 60), Pool(map[5 := b], true, 9, 60);
    var seen := Sweeping(100, map[5 := a], [5]);
    var w3, w4 := World(one, 100, Waiting, {}), World(one, 100, seen, {});
    assert Next(w3, Snapshot([5]), w4);
    assert Next(World(one, 0, Waiting, {}), Time(100), w3);
    assert Next(w4, Ended(5), World(empty, 100, seen, {}));
    assert Next(World(two, 100, seen, {}), Reap, World(empty, 100, seen.(left := []), {})) by { assert [5][1..] == []; }
    assert Next(World(Pool(map[], false, 0, 0), 0, Waiting, {}), Init(9, 60), World(empty, 0, Waiting, {}));
    assert Next(World(empty, 0, Waiting, {}), Accept(5), World(one, 0, Waiting, {}));
    assert Next(World(empty, 100, seen, {}), Accept(5), World(two, 100, seen, {}));
    hide Next;
    steps := [Init(9, 60), Accept(5), Time(100), Snapshot([5]), Ended(5), Accept(5), Reap];
    ws := [World(Pool(map[], false, 0, 0), 0, Waiting, {}), World(empty, 0, Waiting, {}), World(one, 0, Waiting, {}),
           w3, w4, World(empty, 100, seen, {}),
           World(two, 100, seen, {}), World(empty, 100, seen.(left := []), {})];
  }

  // What a handler does to the index

  /** It keeps connection `fd`, its heartbeat refreshed or not, or it removes it. */
  ghost predicate Handled(p: Pool, fd: int, now: int, q: Pool) {
    q == p || q == Removed(p, fd) || (fd in p.conns && q == Refreshed(p, fd, now))
  }

  /** That is a run of the handler's steps: between handlers the index changes as the machine lets it. */
  lemma HandledIsRun(w: World, fd: int, q: Pool) returns (ws: seq<World>, steps: seq<Step>)
    requires fd in w.pool.conns && w.closing == {} && Handled(w.pool, fd, w.now, q)
    ensures |ws| == |steps| + 1 && ws[0] == w && ws[|steps|] == w.(pool := q)
    ensures forall i :: 0 <= i < |steps| ==> Next(ws[i], steps[i], ws[i + 1]) && Roomy(ws[i], steps[i])
    ensures forall i :: 0 <= i < |steps| ==> steps[i].Heard? || steps[i].Marking? || steps[i].Ended?
  {
    if q == Removed(w.pool, fd) {
      var marked := w.(pool := Marked(w.pool, fd), closing := {fd});
      assert marked.pool.conns - {fd} == w.pool.conns - {fd};
      assert marked.closing == w.closing + {fd} && marked.closing - {fd} == {};
      steps := [Marking(fd, true), Ended(fd)];
      ws := [w, marked, w.(pool := q)];
    } else {
      steps := [Heard(fd, q != w.pool)];
      ws := [w, w.(pool := q)];
    }
  }

  lemma SameMap(m: map<int, Entry>, n: map<int, Entry>)
    requires m.Keys == n.Keys
    requires forall g :: g in m ==> m[g] == n[g]
    ensures m == n
  {
    forall g | g in m ensures m[g] == n[g] {
    }
    assert m == n;
  }

  /** The same, entry by entry. */
  lemma HandledByEntry(p: Pool, fd: int, now: int, q: Pool)
    requires q == p.(conns := q.conns)
    requires q.conns.Keys == p.conns.Keys || q.conns.Keys == p.conns.Keys - {fd}
    requires forall g :: g in q.conns && g != fd ==> q.conns[g] == p.conns[g]
    requires fd in q.conns ==> q.conns[fd] == p.conns[fd] || q.conns[fd] == p.conns[fd].(heartbeat := now)
    ensures Handled(p, fd, now, q)
    ensures fd !in q.conns ==> q == Removed(p, fd)
  {
    if fd !in q.conns {
      SameMap(q.conns, p.conns - {fd});
    } else if q.conns[fd] == p.conns[fd] {
      SameMap(q.conns, p.conns);
    } else {
      SameMap(q.conns, Refreshed(p, fd, now).conns);
    }
  }

  /**
   The sweep with nothing in between: removing the snapshot's descriptors one by one leaves exactly the
   live entries.
   */
  lemma {:induction false} UninterruptedSweep(w: World, fds: seq<int>, w': World)
    requires Next(w, Snapshot(fds), w')
    ensures RemovedAll(w'.pool, fds).conns == Live(w.pool.conns, w.now, w.pool.timeoutMs)
  {
    RemovedAllKeys(w'.pool, fds);
    assert forall fd :: fd in w.pool.conns ==> (fd !in fds <==> !TimedOut(w.pool.conns[fd], w.now, w.pool.timeoutMs));
  }

  ghost function RemovedAll(p: Pool, fds: seq<int>): Pool
    decreases fds
  {
    if fds == [] then p else RemovedAll(Removed(p, fds[0]), fds[1..])
  }

  lemma {:induction false} RemovedAllKeys(p: Pool, fds: seq<int>)
    ensures RemovedAll(p, fds).conns == map fd | fd in p.conns && fd !in fds :: p.conns[fd]
    decreases fds
  {
    if fds != [] {
      RemovedAllKeys(Removed(p, fds[0]), fds[1..]);
      assert forall fd :: fd in fds <==> fd == fds[0] || fd in fds[1..];
    }
  }
}
