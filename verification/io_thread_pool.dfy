/** Round-robin choice of a loop for each accepted connection. */
module Dispatching {
  import opened Arithmetic

  /** The next loop's index, and how many connections each loop has been given. */
  datatype Rotation = Rotation(next: nat, counts: seq<nat>)

  ghost predicate Ok(r: Rotation) {
    r.next < |r.counts|
  }

  /** `(i + 1) % n` */
  function Successor(i: nat, n: nat): nat
    requires 0 < n
  {
    (i + 1) % n
  }

  lemma SuccessorIs(i: nat, n: nat)
    requires i < n
    ensures Successor(i, n) == if i + 1 == n then 0 else i + 1
  {
    if i + 1 == n {
      Quotient(1, n, 0);
    } else {
      Quotient(0, n, i + 1);
    }
  }

  function Rotate(r: Rotation): Rotation
    requires r.next < |r.counts|
  {
    Rotation(Successor(r.next, |r.counts|), r.counts[r.next := r.counts[r.next] + 1])
  }

  /** Since its turn last came back to loop 0, the rotation has made `rounds` full rounds. */
  ghost predicate AfterRounds(r: Rotation, rounds: nat) {
    Ok(r) && forall i :: 0 <= i < |r.counts| ==> r.counts[i] == rounds + (if i < r.next then 1 else 0)
  }

  lemma RotateRounds(r: Rotation, rounds: nat)
    requires AfterRounds(r, rounds)
    ensures AfterRounds(Rotate(r), if r.next + 1 == |r.counts| then rounds + 1 else rounds)
  {
    hide Successor;
    SuccessorIs(r.next, |r.counts|);
  }

  ghost function After(n: nat, k: nat): (r: Rotation)
    requires 0 < n
    ensures Ok(r) && |r.counts| == n
  {
    if k == 0 then Rotation(0, seq(n, i => 0)) else Rotate(After(n, k - 1))
  }

  lemma {:induction false} RoundsOf(n: nat, k: nat) returns (rounds: nat)
    requires 0 < n
    ensures AfterRounds(After(n, k), rounds)
    ensures k == rounds * n + After(n, k).next
  {
    if k == 0 {
      rounds := 0;
    } else {
      hide Successor;
      var before := RoundsOf(n, k - 1);
      var r := After(n, k - 1);
      SuccessorIs(r.next, n);
      RotateRounds(r, before);
      OneMore(before, n);
      rounds := if r.next + 1 == n then before + 1 else before;
    }
  }

  lemma OneMore(q: nat, n: nat)
    ensures (q + 1) * n == q * n + n
  {
  }

  /** The `k`-th dispatch, counted from 0, goes to loop k % n. */
  lemma TurnOf(n: nat, k: nat)
    requires 0 < n
    ensures After(n, k).next == k % n
  {
    var rounds := RoundsOf(n, k);
    Quotient(rounds, n, After(n, k).next);
  }

  /** After `k` dispatches over `n` loops, loop `i` has been given (k + n - 1 - i) / n of them. */
  lemma LoopShare(n: nat, k: nat, i: nat)
    requires i < n
    ensures After(n, k).counts[i] == (k + n - 1 - i) / n
  {
    var rounds := RoundsOf(n, k);
    var next := After(n, k).next;
    if i < next {
      Quotient(rounds + 1, n, next - 1 - i);
      assert k + n - 1 - i == (rounds + 1) * n + (next - 1 - i);
    } else {
      Quotient(rounds, n, next + n - 1 - i);
      assert k + n - 1 - i == rounds * n + (next + n - 1 - i);
    }
  }

  /** So no loop is ever more than one connection ahead of another. */
  lemma Balanced(n: nat, k: nat, i: nat, j: nat)
    requires i < n && j < n
    ensures After(n, k).counts[i] <= After(n, k).counts[j] + 1
  {
    var rounds := RoundsOf(n, k);
  }
}

module IOThreadPools {
  import opened Dispatching
  import opened EventLoops
  import opened ConnectionPools
  import opened Sockets

  class IOThreadPool {
    const loops: seq<EventLoop>
    var nextLoopIdx: nat
    /** Connections given out so far, in all and to each loop. */
    ghost var dispatched: nat
    ghost var counts: seq<nat>

    ghost predicate Valid()
      reads this
    {
      && |loops| > 0
      && (forall i :: 0 <= i < |loops| ==> loops[i].id != NONE)
      && (forall i, j :: 0 <= i < j < |loops| ==> loops[i].id != loops[j].id)
      && Rotation(nextLoopIdx, counts) == After(|loops|, dispatched)
    }

    /** At least one loop; loop `i` gets the epoll instance `ids[i]`. */
    constructor (threadNum: nat, ids: seq<int>, pool: ConnectionPool, k: Kernel)
      requires |ids| == (if threadNum == 0 then 1 else threadNum) && NONE !in ids
      requires forall i, j :: 0 <= i < j < |ids| ==> ids[i] != ids[j]
      ensures Valid() && dispatched == 0
      ensures |loops| == (if threadNum == 0 then 1 else threadNum)
      ensures forall i :: 0 <= i < |loops| ==>
                loops[i].id == ids[i] && loops[i].pool == pool && loops[i].k == k && !loops[i].mainReactor
    {
      var threads := if threadNum == 0 then 1 else threadNum;
      var created: seq<EventLoop> := [];
      for i := 0 to threads
        invariant |created| == i
        invariant forall j :: 0 <= j < i ==>
                    created[j].id == ids[j] && created[j].pool == pool && created[j].k == k && !created[j].mainReactor
      {
        var loop := new EventLoop(ids[i], pool, k, false);
        created := created + [loop];
      }
      loops := created;
      nextLoopIdx := 0;
      dispatched := 0;
      counts := seq(threads, i => 0);
    }

    method GetNextEventLoop() returns (loop: EventLoop?)
      requires Valid()
      modifies this`nextLoopIdx, this`dispatched, this`counts
      ensures Valid() && dispatched == old(dispatched) + 1
      ensures old(nextLoopIdx) < |loops| && loop == loops[old(nextLoopIdx)]
      ensures Rotation(nextLoopIdx, counts) == Rotate(Rotation(old(nextLoopIdx), old(counts)))
    {
      if |loops| == 0 {
        return null;
      }
      loop := loops[nextLoopIdx];
      counts := counts[nextLoopIdx := counts[nextLoopIdx] + 1];
      SuccessorIs(nextLoopIdx, |loops|);
      nextLoopIdx := (nextLoopIdx + 1) % |loops|;
      dispatched := dispatched + 1;
    }
  }
}
