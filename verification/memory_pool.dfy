/**
 Fixed-size block allocator with an intrusive free list: the link of a free block lives in the
 first word of the block itself, in memory that clients overwrite freely while they hold it.
 Pointers are integers; null is 0.
 */
module FreeList {
  import opened Arithmetic
  import opened Bytes

  datatype Config = Config(base: int, blockSize: nat, numBlocks: nat) {
    /** What `new char[block_size * num_blocks]` and the constructor's checks give. */
    ghost predicate Ok() {
      0 < base && WORD <= blockSize && 0 < numBlocks && base + Total() <= Pow256(WORD)
    }

    /** `i * blockSize`, as repeated addition (see OffsetIsProduct). */
    function Offset(i: nat): nat {
      if i == 0 then 0 else Offset(i - 1) + blockSize
    }

    function Total(): nat {
      Offset(numBlocks)
    }

    function Block(i: nat): int {
      base + Offset(i)
    }
  }

  /** The pool as its clients see it: memory, list head, counter, and the blocks held by clients. */
  datatype World = World(mem: seq<byte>, head: nat, count: int, held: set<int>)

  predicate IsValidPointer(c: Config, p: int) {
    if p < c.base || p >= c.base + c.Total() || c.blockSize == 0 then false
    else (p - c.base) % c.blockSize == 0
  }

  ghost function AllBlocks(c: Config): set<int> {
    set i: nat | i < c.numBlocks :: c.Block(i)
  }

  // Layout

  lemma {:induction false} OffsetIsProduct(c: Config, i: nat)
    ensures c.Offset(i) == i * c.blockSize
    ensures c.blockSize > 0 ==> c.Offset(i) % c.blockSize == 0
  {
    if i > 0 {
      OffsetIsProduct(c, i - 1);
      assert i * c.blockSize == (i - 1) * c.blockSize + c.blockSize;
    }
    if c.blockSize > 0 { Quotient(i, c.blockSize, 0); }
  }

  lemma {:induction false} BlocksApart(c: Config, i: nat, j: nat)
    requires i < j
    ensures c.Block(i) + c.blockSize <= c.Block(j)
  {
    if i + 1 < j {
      BlocksApart(c, i, j - 1);
    }
  }

  lemma ValidIsBlock(c: Config, p: int)
    requires c.Ok() && IsValidPointer(c, p)
    ensures p in AllBlocks(c)
  {
    var i := (p - c.base) / c.blockSize;
    OffsetIsProduct(c, i);
    assert p == c.Block(i);
    if i > c.numBlocks {
      BlocksApart(c, c.numBlocks, i);
    }
  }

  lemma BlockIsValid(c: Config, i: nat)
    requires c.Ok() && i < c.numBlocks
    ensures IsValidPointer(c, c.Block(i)) && c.Block(i) == c.base + i * c.blockSize
  {
    OffsetIsProduct(c, i);
    BlocksApart(c, i, c.numBlocks);
  }

  /** The validity test accepts exactly the addresses of blocks. */
  lemma ValidPointerIff(c: Config, p: int)
    requires c.Ok()
    ensures IsValidPointer(c, p) <==> exists i: nat :: i < c.numBlocks && p == c.base + i * c.blockSize
    ensures IsValidPointer(c, p) <==> p in AllBlocks(c)
  {
    hide IsValidPointer;
    if IsValidPointer(c, p) {
      ValidIsBlock(c, p);
    }
    if p in AllBlocks(c) {
      var i: nat :| i < c.numBlocks && p == c.Block(i);
      BlockIsValid(c, i);
      assert p == c.base + i * c.blockSize;
    }
    if i: nat :| i < c.numBlocks && p == c.base + i * c.blockSize {
      BlockIsValid(c, i);
    }
  }

  /** Distinct blocks are disjoint intervals inside the pool's memory. */
  lemma BlocksDisjoint(c: Config, p: int, q: int)
    requires p in AllBlocks(c) && q in AllBlocks(c)
    ensures 0 <= p - c.base && p - c.base + c.blockSize <= c.Total()
    ensures p < q ==> p + c.blockSize <= q
  {
    var i: nat :| i < c.numBlocks && p == c.Block(i);
    var j: nat :| j < c.numBlocks && q == c.Block(j);
    BlocksApart(c, i, c.numBlocks);
    if i < j {
      BlocksApart(c, i, j);
    } else if j < i {
      BlocksApart(c, j, i);
    }
  }

  lemma {:induction false} BlockCount(c: Config, n: nat)
    requires 0 < c.blockSize
    ensures |set i: nat | i < n :: c.Block(i)| == n
  {
    var s := set i: nat | i < n :: c.Block(i);
    if n == 0 {
      assert s == {};
    } else {
      BlockCount(c, n - 1);
      var r := set i: nat | i < n - 1 :: c.Block(i);
      forall i: nat | i < n - 1 ensures c.Block(i) != c.Block(n - 1) {
        BlocksApart(c, i, n - 1);
      }
      assert s == r + {c.Block(n - 1)};
    }
  }

  // The free list

  ghost predicate Distinct(s: seq<int>) {
    forall i, j :: 0 <= i < j < |s| ==> s[i] != s[j]
  }

  ghost function Elements(s: seq<int>): set<int> {
    set x | x in s
  }

  /** The link stored ahead of position `i` of the list: a block, or null at the end. */
  function LinkTo(free: seq<int>, i: nat): int {
    if i < |free| then free[i] else 0
  }

  ghost predicate LinkHolds(c: Config, mem: seq<byte>, free: seq<int>, i: nat)
    requires i < |free|
  {
    Load(mem, free[i] - c.base) == LinkTo(free, i + 1)
  }

  /** `free` is what the links in memory spell out, starting at `head`. */
  ghost predicate Chained(c: Config, w: World, free: seq<int>) {
    && |w.mem| == c.Total()
    && (forall p :: p in free ==> p in AllBlocks(c))
    && w.head == LinkTo(free, 0)
    && forall i :: 0 <= i < |free| ==> LinkHolds(c, w.mem, free, i)
  }

  /** The list holds exactly the blocks no client holds, each once. */
  ghost predicate FreeListIs(c: Config, w: World, free: seq<int>) {
    && Chained(c, w, free)
    && Distinct(free)
    && w.held <= AllBlocks(c)
    && Elements(free) == AllBlocks(c) - w.held
  }

  ghost predicate Integrity(c: Config, w: World) {
    exists free: seq<int> :: FreeListIs(c, w, free)
  }

  ghost predicate Inv(c: Config, w: World) {
    Integrity(c, w) && w.count == |w.held|
  }

  // The operations

  function Allocated(c: Config, w: World): (World, int) {
    if w.head == 0 then (w, 0)
    else (w.(head := Load(w.mem, w.head - c.base), count := w.count + 1, held := w.held + {w.head}), w.head)
  }

  function Freed(c: Config, w: World, p: int): World
    requires c.Ok() && |w.mem| == c.Total()
  {
    if p == 0 || !IsValidPointer(c, p) then w
    else
      ValidPointerIff(c, p);
      BlocksDisjoint(c, p, p);
      w.(mem := Store(w.mem, p - c.base, w.head), head := p, count := w.count - 1, held := w.held - {p})
  }

  datatype Op = Alloc | Free(p: int) | Write(at: int, b: byte)

  /** What a client may do: free what it holds (null and foreign pointers are ignored), write in what it holds. */
  ghost predicate Legal(c: Config, w: World, op: Op) {
    match op
    case Alloc => true
    case Free(p) => p == 0 || !IsValidPointer(c, p) || p in w.held
    case Write(at, b) => exists p :: p in w.held && p <= at < p + c.blockSize
  }

  ghost predicate Step(c: Config, w: World, op: Op, w': World) {
    match op
    case Alloc => w' == Allocated(c, w).0
    case Free(p) => c.Ok() && |w.mem| == c.Total() && w' == Freed(c, w, p)
    case Write(at, b) => 0 <= at - c.base < |w.mem| && w' == w.(mem := w.mem[at - c.base := b])
  }

  /** The state right after construction: every block free, in address order. */
  ghost predicate Fresh(c: Config, w: World) {
    w.held == {} && w.count == 0 && FreeListIs(c, w, InOrder(c))
  }

  function InOrder(c: Config): seq<int> {
    seq(c.numBlocks, i requires 0 <= i => c.Block(i))
  }

  ghost predicate LinksToNext(c: Config, mem: seq<byte>, j: nat) {
    Load(mem, c.Block(j) - c.base) == c.Block(j + 1)
  }

  /** One turn of the initialising loop. */
  lemma LinkExtends(c: Config, m: seq<byte>, i: nat)
    requires c.Ok() && |m| == c.Total() && i + 1 < c.numBlocks
    requires forall j: nat :: j < i ==> LinksToNext(c, m, j)
    ensures 0 <= c.Block(i) - c.base <= |m| - WORD && 0 <= c.Block(i + 1) < Pow256(WORD)
    ensures var m' := Store(m, c.Block(i) - c.base, c.Block(i + 1));
      forall j: nat :: j <= i ==> LinksToNext(c, m', j)
  {
    hide Load, Store;
    BlocksApart(c, i, c.numBlocks);
    BlocksApart(c, i + 1, c.numBlocks);
    var m' := Store(m, c.Block(i) - c.base, c.Block(i + 1));
    LoadStored(m, c.Block(i) - c.base, c.Block(i + 1));
    forall j: nat | j < i ensures LinksToNext(c, m', j) {
      assert LinksToNext(c, m, j);
      BlocksApart(c, j, i);
      LoadElsewhere(m, c.Block(i) - c.base, c.Block(i + 1), c.Block(j) - c.base);
    }
    assert LinksToNext(c, m', i);
  }

  /** Links from each block to the next, then a null link in the last block, make a fresh pool. */
  lemma LinksInOrder(c: Config, before: seq<byte>, w: World)
    requires c.Ok() && |before| == c.Total() && w.held == {} && w.count == 0 && w.head == c.base
    requires 0 <= c.Block(c.numBlocks - 1) - c.base <= c.Total() - WORD
    requires w.mem == Store(before, c.Block(c.numBlocks - 1) - c.base, 0)
    requires forall j: nat :: j < c.numBlocks - 1 ==> LinksToNext(c, before, j)
    ensures Fresh(c, w)
  {
    hide Load, Store;
    var last := c.numBlocks - 1;
    var free := InOrder(c);
    LoadStored(before, c.Block(last) - c.base, 0);
    forall j | 0 <= j < c.numBlocks ensures LinkHolds(c, w.mem, free, j) {
      if j < last {
        assert LinksToNext(c, before, j);
        BlocksApart(c, j, last);
        LoadElsewhere(before, c.Block(last) - c.base, 0, c.Block(j) - c.base);
      }
    }
    InOrderIsAll(c);
    assert FreeListIs(c, w, free);
  }

  lemma InOrderIsAll(c: Config)
    requires c.Ok()
    ensures Distinct(InOrder(c)) && Elements(InOrder(c)) == AllBlocks(c)
  {
    var free := InOrder(c);
    forall i, j | 0 <= i < j < |free| ensures free[i] != free[j] {
      BlocksApart(c, i, j);
    }
    forall i: nat | i < c.numBlocks ensures c.Block(i) in Elements(free) {
      assert free[i] in free;
    }
  }

  lemma AllocateKeeps(c: Config, w: World, free: seq<int>)
    requires c.Ok() && FreeListIs(c, w, free) && w.count == |w.held|
    ensures free == [] ==> Allocated(c, w) == (w, 0)
    ensures free != [] ==> FreeListIs(c, Allocated(c, w).0, free[1..])
    ensures free != [] ==> Allocated(c, w).1 == free[0] && free[0] !in w.held
    ensures Inv(c, Allocated(c, w).0)
  {
    hide Load, Store;
    if free != [] {
      var w' := Allocated(c, w).0;
      assert free[0] in Elements(free);
      HeadFits(c, w, free);
      var rest := free[1..];
      assert LinkHolds(c, w.mem, free, 0);
      forall i | 0 <= i < |rest| ensures LinkHolds(c, w'.mem, rest, i) {
        assert LinkHolds(c, w.mem, free, i + 1);
      }
      assert forall x :: x in Elements(rest) <==> x in Elements(free) && x != free[0];
      assert FreeListIs(c, w', rest);
    }
  }

  /** Pushing `p` on the list leaves every link below it as it was. */
  lemma PushedLinks(c: Config, w: World, p: int, free: seq<int>)
    requires c.Ok() && FreeListIs(c, w, free)
    requires p in w.held && 0 <= p - c.base <= |w.mem| - WORD && w.head < Pow256(WORD)
    ensures var m := Store(w.mem, p - c.base, w.head);
      forall i :: 0 <= i <= |free| ==> LinkHolds(c, m, [p] + free, i)
  {
    hide Load, Store;
    var at := p - c.base;
    var m := Store(w.mem, at, w.head);
    var free' := [p] + free;
    LoadStored(w.mem, at, w.head);
    forall i | 0 <= i <= |free| ensures LinkHolds(c, m, free', i) {
      if i > 0 {
        var q := free[i - 1];
        assert LinkHolds(c, w.mem, free, i - 1) && q in Elements(free) && free'[i] == q;
        BlocksDisjoint(c, p, q);
        BlocksDisjoint(c, q, p);
        LoadElsewhere(w.mem, at, w.head, q - c.base);
      }
    }
  }

  lemma FreeKeeps(c: Config, w: World, p: int, free: seq<int>)
    requires c.Ok() && FreeListIs(c, w, free)
    requires w.count == |w.held| && p in w.held
    ensures FreeListIs(c, Freed(c, w, p), [p] + free)
    ensures Inv(c, Freed(c, w, p))
  {
    hide Load, Store;
    ValidPointerIff(c, p);
    BlocksDisjoint(c, p, p);
    HeadFits(c, w, free);
    PushedLinks(c, w, p, free);
    assert p !in Elements(free);
    assert Elements([p] + free) == Elements(free) + {p};
    assert FreeListIs(c, Freed(c, w, p), [p] + free);
  }

  lemma HeadFits(c: Config, w: World, free: seq<int>)
    requires c.Ok() && FreeListIs(c, w, free)
    ensures w.head < Pow256(WORD)
    ensures w.head == 0 <==> free == []
    ensures free != [] ==> 0 <= w.head - c.base <= |w.mem| - WORD
  {
    hide Load, Store;
    if free != [] {
      assert free[0] in free;
      BlocksDisjoint(c, free[0], free[0]);
    }
  }

  lemma AllHeldIff(c: Config, w: World, free: seq<int>)
    requires c.Ok() && FreeListIs(c, w, free)
    ensures w.head == 0 <==> w.held == AllBlocks(c)
    ensures free != [] ==> free[0] in AllBlocks(c) - w.held
  {
    HeadFits(c, w, free);
    if free == [] {
      assert Elements(free) == {};
      assert forall x :: x in AllBlocks(c) ==> x in w.held || x in AllBlocks(c) - w.held;
    } else {
      assert free[0] in Elements(free);
    }
  }

  lemma WriteKeeps(c: Config, w: World, at: int, b: byte, free: seq<int>)
    requires c.Ok() && FreeListIs(c, w, free)
    requires Legal(c, w, Write(at, b))
    ensures 0 <= at - c.base < |w.mem|
    ensures FreeListIs(c, w.(mem := w.mem[at - c.base := b]), free)
  {
    hide Load, Store;
    var p :| p in w.held && p <= at < p + c.blockSize;
    BlocksDisjoint(c, p, p);
    var w' := w.(mem := w.mem[at - c.base := b]);
    forall i | 0 <= i < |free| ensures LinkHolds(c, w'.mem, free, i) {
      assert LinkHolds(c, w.mem, free, i) && free[i] in free && free[i] in Elements(free);
      BlocksDisjoint(c, p, free[i]);
      BlocksDisjoint(c, free[i], p);
      LoadAroundByte(w.mem, at - c.base, b, free[i] - c.base);
    }
    assert Chained(c, w', free);
  }

  /** Every legal client operation keeps the list intact and the counter right. */
  lemma StepKeepsInv(c: Config, w: World, op: Op, w': World)
    requires c.Ok() && Inv(c, w) && Legal(c, w, op) && Step(c, w, op, w')
    ensures Inv(c, w')
  {
    hide Load, Store;
    var free :| FreeListIs(c, w, free);
    match op
    case Alloc => AllocateKeeps(c, w, free);
    case Free(p) =>
      if p in w.held { FreeKeeps(c, w, p, free); }
    case Write(at, b) => WriteKeeps(c, w, at, b, free);
  }

  ghost predicate IsRun(c: Config, ws: seq<World>, ops: seq<Op>) {
    && |ws| == |ops| + 1
    && Fresh(c, ws[0])
    && forall i :: 0 <= i < |ops| ==> Legal(c, ws[i], ops[i]) && Step(c, ws[i], ops[i], ws[i + 1])
  }

  lemma {:induction false} RunInv(c: Config, ws: seq<World>, ops: seq<Op>, i: nat)
    requires c.Ok() && IsRun(c, ws, ops) && i < |ws|
    ensures Inv(c, ws[i])
  {
    if i > 0 {
      RunInv(c, ws, ops, i - 1);
      StepKeepsInv(c, ws[i - 1], ops[i - 1], ws[i]);
    }
  }

  /** The blocks met by following links from `p`, for at most `fuel` steps. */
  ghost function Walk(c: Config, mem: seq<byte>, p: int, fuel: nat): seq<int>
    decreases fuel
  {
    if p == 0 || fuel == 0 then [] else [p] + Walk(c, mem, Load(mem, p - c.base), fuel - 1)
  }

  /** Where `k` links lead from `p`. */
  ghost function Follow(c: Config, mem: seq<byte>, p: int, k: nat): int
    decreases k
  {
    if k == 0 then p else Follow(c, mem, Load(mem, p - c.base), k - 1)
  }

  lemma {:induction false} WalkSuffix(c: Config, w: World, free: seq<int>, i: nat, fuel: nat)
    requires c.Ok() && Chained(c, w, free) && i <= |free| && |free| - i <= fuel
    ensures Walk(c, w.mem, LinkTo(free, i), fuel) == free[i..]
    ensures Follow(c, w.mem, LinkTo(free, i), |free| - i) == 0
    decreases fuel
  {
    hide Load, Store;
    if i < |free| {
      assert free[i] in free && LinkHolds(c, w.mem, free, i);
      WalkSuffix(c, w, free, i + 1, fuel - 1);
      assert free[i..] == [free[i]] + free[i + 1..];
    }
  }

  /**
   In every run, walking the links from the list head visits exactly the blocks that no client
   holds, each once, and ends at null; the counter is the number of held blocks, and held and
   available blocks add up.
   */
  lemma WalkVisitsUnheld(c: Config, ws: seq<World>, ops: seq<Op>, i: nat)
    requires c.Ok() && IsRun(c, ws, ops) && i < |ws|
    ensures var w := ws[i];
      var visited := Walk(c, w.mem, w.head, c.numBlocks);
      && Distinct(visited)
      && Elements(visited) == AllBlocks(c) - w.held
      && Follow(c, w.mem, w.head, |visited|) == 0
      && w.count == |w.held|
      && w.held <= AllBlocks(c)
      && |w.held| + |visited| == c.numBlocks
      && (w.head == 0 <==> w.held == AllBlocks(c))
  {
    RunInv(c, ws, ops, i);
    var w := ws[i];
    var free :| FreeListIs(c, w, free);
    DistinctSize(free);
    FreeAndHeld(c, w);
    WalkSuffix(c, w, free, 0, c.numBlocks);
    assert free[0..] == free;
    AllHeldIff(c, w, free);
  }

  lemma FreeAndHeld(c: Config, w: World)
    requires c.Ok() && Inv(c, w)
    ensures |AllBlocks(c) - w.held| + |w.held| == c.numBlocks
  {
    BlockCount(c, c.numBlocks);
    assert |AllBlocks(c)| == |w.held| + |AllBlocks(c) - w.held|;
  }

  lemma {:induction false} DistinctSize(s: seq<int>)
    requires Distinct(s)
    ensures |Elements(s)| == |s|
  {
    if s == [] {
      assert Elements(s) == {};
    } else {
      var t := s[..|s| - 1];
      DistinctSize(t);
      assert Elements(s) == Elements(t) + {s[|s| - 1]};
    }
  }

  /** Blocks held at the same time never overlap and lie inside the pool. */
  lemma HeldBlocksDisjoint(c: Config, ws: seq<World>, ops: seq<Op>, i: nat, p: int, q: int)
    requires c.Ok() && IsRun(c, ws, ops) && i < |ws|
    requires p in ws[i].held && q in ws[i].held && p != q
    ensures p + c.blockSize <= q || q + c.blockSize <= p
    ensures c.base <= p && p + c.blockSize <= c.base + c.Total()
  {
    RunInv(c, ws, ops, i);
    BlocksDisjoint(c, p, q);
    BlocksDisjoint(c, q, p);
  }

  /** Allocation fails exactly when every block is held; otherwise it returns a block nobody held. */
  lemma AllocateResult(c: Config, ws: seq<World>, ops: seq<Op>, i: nat)
    requires c.Ok() && IsRun(c, ws, ops) && i < |ws|
    ensures var p := Allocated(c, ws[i]).1;
      && (p == 0 <==> ws[i].held == AllBlocks(c))
      && (p != 0 ==> p in AllBlocks(c) && p !in ws[i].held)
  {
    RunInv(c, ws, ops, i);
    var free :| FreeListIs(c, ws[i], free);
    AllocateKeeps(c, ws[i], free);
    AllHeldIff(c, ws[i], free);
    HeadFits(c, ws[i], free);
  }

  ghost function AllocN(c: Config, w: World, k: nat): World {
    if k == 0 then w else Allocated(c, AllocN(c, w, k - 1)).0
  }

  /** A fresh pool hands out its blocks in address order, then null. */
  lemma {:induction false} FreshPoolOrder(c: Config, w: World, k: nat)
    requires c.Ok() && Fresh(c, w) && k <= c.numBlocks
    ensures FreeListIs(c, AllocN(c, w, k), InOrder(c)[k..])
    ensures AllocN(c, w, k).count == |AllocN(c, w, k).held|
    ensures Allocated(c, AllocN(c, w, k)).1 == if k < c.numBlocks then c.Block(k) else 0
    ensures c.Block(k) == c.base + k * c.blockSize
  {
    if k == 0 {
      assert InOrder(c)[0..] == InOrder(c);
    } else {
      FreshPoolOrder(c, w, k - 1);
      AllocateKeeps(c, AllocN(c, w, k - 1), InOrder(c)[k - 1..]);
      assert InOrder(c)[k - 1..][1..] == InOrder(c)[k..];
    }
    AllocateKeeps(c, AllocN(c, w, k), InOrder(c)[k..]);
    OffsetIsProduct(c, k);
  }

  /** A pointer passes the validity test exactly when some allocation sequence returns it. */
  lemma ValidIffAllocatable(c: Config, w: World, p: int)
    requires c.Ok() && Fresh(c, w)
    ensures IsValidPointer(c, p) <==>
            exists k: nat :: k < c.numBlocks && p == Allocated(c, AllocN(c, w, k)).1
  {
    ValidPointerIff(c, p);
    forall k: nat | k < c.numBlocks ensures Allocated(c, AllocN(c, w, k)).1 == c.Block(k) {
      FreshPoolOrder(c, w, k);
    }
    if IsValidPointer(c, p) {
      var i: nat :| i < c.numBlocks && p == c.Block(i);
      FreshPoolOrder(c, w, i);
      assert p == Allocated(c, AllocN(c, w, i)).1;
    }
  }

  // Freeing twice

  lemma {:induction false} ListRepeats(c: Config, w: World, w': World, p: int, free: seq<int>, free': seq<int>, j: nat)
    requires c.Ok() && FreeListIs(c, w, free) && FreeListIs(c, w', free')
    requires p in free && 0 <= p - c.base <= |w.mem| - WORD
    requires w'.head == p && w'.mem == Store(w.mem, p - c.base, w.head)
    requires j < |free| && forall i :: 0 <= i < j ==> free[i] != p
    ensures j + 1 < |free'| && free'[j + 1] == free[j]
    decreases j
  {
    hide Load, Store;
    HeadFits(c, w, free);
    HeadFits(c, w', free');
    LoadStored(w.mem, p - c.base, w.head);
    if j > 0 {
      ListRepeats(c, w, w', p, free, free', j - 1);
      var q := free[j - 1];
      assert q in free && free[j] in free;
      BlocksDisjoint(c, p, q);
      BlocksDisjoint(c, q, p);
      LoadElsewhere(w.mem, p - c.base, w.head, q - c.base);
      assert LinkHolds(c, w.mem, free, j - 1) && LinkHolds(c, w'.mem, free', j);
    } else {
      assert free[0] in free && LinkHolds(c, w'.mem, free', 0);
    }
  }

  /**
   `Deallocate` does not check whether the block is already free. It keeps the list intact exactly
   when it is not given a block of the pool that nobody holds.
   */
  lemma DeallocateSafeIff(c: Config, w: World, p: int)
    requires c.Ok() && Inv(c, w)
    ensures |w.mem| == c.Total()
    ensures Inv(c, Freed(c, w, p)) <==> Legal(c, w, Free(p))
    ensures Integrity(c, Freed(c, w, p)) <==> Legal(c, w, Free(p))
  {
    hide Load, Store;
    var free :| FreeListIs(c, w, free);
    var w' := Freed(c, w, p);
    if Legal(c, w, Free(p)) {
      StepKeepsInv(c, w, Free(p), w');
    } else {
      ValidPointerIff(c, p);
      assert p in Elements(free);
      if Integrity(c, w') {
        var free' :| FreeListIs(c, w', free');
        var j :| 0 <= j < |free| && free[j] == p;
        BlocksDisjoint(c, p, p);
        ListRepeats(c, w, w', p, free, free', j);
        HeadFits(c, w', free');
        assert false;
      }
    }
  }
}

module MemoryPools {
  import opened Bytes
  import opened FreeList

  /** A block must have room for a link. */
  function Rounded(blockSize: nat): nat {
    if blockSize < WORD then WORD else blockSize
  }

  class MemoryPool {
    const c: Config
    var memory: array<byte>
    var freeList: nat
    var allocatedCount: int
    ghost var held: set<int>

    ghost function Now(): World
      reads this, memory
    {
      World(memory[..], freeList, allocatedCount, held)
    }

    ghost predicate Valid()
      reads this, memory
    {
      c.Ok() && Inv(c, Now())
    }

    constructor (blockSize: nat, numBlocks: nat, base: int)
      requires 0 < numBlocks
      requires 0 < base && base + Config(base, Rounded(blockSize), numBlocks).Total() <= Pow256(WORD)
      ensures Valid() && Fresh(c, Now()) && fresh(memory)
      ensures c.base == base && c.numBlocks == numBlocks
      ensures blockSize <= c.blockSize && 8 <= c.blockSize && (c.blockSize == blockSize || c.blockSize == 8)
    {
      var size := Rounded(blockSize);
      OffsetIsProduct(Config(base, size, numBlocks), numBlocks);
      c := Config(base, size, numBlocks);
      memory := new byte[numBlocks * size](_ => 0);
      freeList := base;
      allocatedCount := 0;
      held := {};
      new;
      Initialize();
    }

    method Initialize()
      requires c.Ok() && memory.Length == c.Total() && held == {}
      modifies this`freeList, this`allocatedCount, memory
      ensures Valid() && Fresh(c, Now())
    {
      hide Load, Store;
      freeList := c.base;
      var current := freeList;
      for i := 0 to c.numBlocks - 1
        invariant freeList == c.base
        invariant current == c.Block(i)
        invariant forall j: nat :: j < i ==> LinksToNext(c, memory[..], j)
      {
        LinkExtends(c, memory[..], i);
        OffsetIsProduct(c, i + 1);
        SetLink(current, c.base + (i + 1) * c.blockSize);
        assert LinksToNext(c, memory[..], i);
        current := Link(current);
      }
      ghost var before := memory[..];
      BlocksApart(c, c.numBlocks - 1, c.numBlocks);
      SetLink(current, 0);
      allocatedCount := 0;
      LinksInOrder(c, before, Now());
    }

    /** `block->next` */
    function Link(block: int): nat
      reads this, memory
      requires 0 <= block - c.base <= memory.Length - WORD
      ensures Link(block) == Load(memory[..], block - c.base)
    {
      Decode(memory[block - c.base..block - c.base + WORD])
    }

    /** `block->next = next` */
    method SetLink(block: int, next: int)
      requires 0 <= block - c.base <= memory.Length - WORD && 0 <= next < Pow256(WORD)
      modifies memory
      ensures memory[..] == Store(old(memory[..]), block - c.base, next)
    {
      var word := Encode(next, WORD);
      var at := block - c.base;
      forall k | 0 <= k < WORD {
        memory[at + k] := word[k];
      }
    }

    method Allocate() returns (p: int)
      requires Valid()
      modifies this`freeList, this`allocatedCount, this`held
      ensures Valid()
      ensures (Now(), p) == Allocated(c, old(Now()))
      ensures p == 0 <==> old(held) == AllBlocks(c)
      ensures p != 0 ==> p !in old(held) && IsValidPointer(c, p)
    {
      hide Load, Store;
      ghost var free :| FreeListIs(c, Now(), free);
      HeadFits(c, Now(), free);
      AllocateKeeps(c, Now(), free);
      AllHeldIff(c, Now(), free);
      if freeList == 0 {
        return 0;
      }
      ValidPointerIff(c, freeList);
      var block := freeList;
      freeList := Link(block);
      allocatedCount := allocatedCount + 1;
      held := held + {block};
      p := block;
    }

    /** The pool stays valid exactly when it is not given a block that is already free. */
    method Deallocate(p: int)
      requires Valid()
      modifies this`freeList, this`allocatedCount, this`held, memory
      ensures memory.Length == c.Total()
      ensures Now() == Freed(c, old(Now()), p)
      ensures Valid() <==> Legal(c, old(Now()), Free(p))
    {
      hide Load, Store;
      ghost var free :| FreeListIs(c, Now(), free);
      HeadFits(c, Now(), free);
      DeallocateSafeIff(c, Now(), p);
      if p == 0 {
        return;
      }
      if !IsValidPointer(c, p) {
        return;
      }
      ValidPointerIff(c, p);
      BlocksDisjoint(c, p, p);
      SetLink(p, freeList);
      freeList := p;
      allocatedCount := allocatedCount - 1;
      held := held - {p};
    }

    /** A client stores through a pointer into a block it holds. */
    method ClientWrite(at: int, b: byte)
      requires Valid() && Legal(c, Now(), Write(at, b))
      modifies memory
      ensures Valid()
      ensures memory.Length == old(memory.Length) && 0 <= at - c.base < memory.Length
      ensures memory[..] == old(memory[..])[at - c.base := b]
      ensures Step(c, old(Now()), Write(at, b), Now())
    {
      hide Load, Store;
      ghost var free :| FreeListIs(c, Now(), free);
      WriteKeeps(c, Now(), at, b, free);
      ghost var w := Now();
      memory[at - c.base] := b;
      assert Now() == w.(mem := w.mem[at - c.base := b]);
    }

    function GetAllocatedCount(): (n: int)
      requires Valid()
      reads this, memory
      ensures n == |held|
    {
      allocatedCount
    }

    function GetAvailableCount(): (n: int)
      requires Valid()
      reads this, memory
      ensures n == |AllBlocks(c) - held|
    {
      FreeAndHeld(c, Now());
      c.numBlocks - allocatedCount
    }
  }

  /** The constructor's refusal of an empty pool. */
  method Create(blockSize: nat, numBlocks: nat, base: int) returns (pool: MemoryPool?)
    requires 0 < base && base + Config(base, Rounded(blockSize), numBlocks).Total() <= Pow256(WORD)
    ensures pool == null <==> numBlocks == 0
    ensures pool != null ==> fresh(pool) && pool.Valid() && Fresh(pool.c, pool.Now())
    ensures pool != null ==>
      && pool.c.base == base && pool.c.numBlocks == numBlocks && blockSize <= pool.c.blockSize
      && 8 <= pool.c.blockSize && (pool.c.blockSize == blockSize || pool.c.blockSize == 8)
  {
    if numBlocks == 0 {
      return null;
    }
    pool := new MemoryPool(blockSize, numBlocks, base);
  }
}
