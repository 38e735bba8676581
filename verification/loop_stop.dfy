/**
 Stopping the loops: each loop tests its flag, blocks in epoll_wait, handles a batch; the stopper
 clears the flag and then writes the loop's wake-up descriptor, loop by loop, and joins. The wake-up
 is level-triggered and nobody reads it, so once written it stays ready.
 */
module StopProtocol {

  /** Where a loop's thread is; Starting is before Loop() has set running_. */
  datatype Pc = Starting | Testing | Blocking | Handling | Exited

  /** `missed` records that Stop cleared the flag before the loop had set it. */
  datatype LoopState = LoopState(pc: Pc, running: bool, wake: bool, missed: bool)

  datatype Stopper = NotCalled | Clearing(i: nat) | Writing(i: nat) | Joining(i: nat) | Returned

  datatype World = World(loops: seq<LoopState>, stopper: Stopper)

  /** A loop moves (`event`: some descriptor other than the wake-up is ready), or the stopper does. */
  datatype Step = Loop(i: nat, event: bool) | Stop

  predicate CanMove(l: LoopState, event: bool) {
    l.pc != Exited && (l.pc == Blocking ==> l.wake || event)
  }

  function Moved(l: LoopState): LoopState {
    match l.pc
    case Starting => l.(running := true, pc := Testing)
    case Testing => l.(pc := if l.running then Blocking else Exited)
    case Blocking => l.(pc := Handling)
    case Handling => l.(pc := Testing)
    case Exited => l
  }

  predicate Enabled(w: World, st: Step) {
    match st
    case Loop(i, event) => i < |w.loops| && CanMove(w.loops[i], event)
    case Stop =>
      match w.stopper
      case Returned => false
      case Clearing(i) => i < |w.loops|
      case Writing(i) => i < |w.loops|
      case Joining(i) => i < |w.loops| && w.loops[i].pc == Exited
      case NotCalled => true
  }

  function NextToClear(n: nat, i: nat): Stopper {
    if i < n then Clearing(i) else NextToJoin(n, 0)
  }

  function NextToJoin(n: nat, i: nat): Stopper {
    if i < n then Joining(i) else Returned
  }

  function Apply(w: World, st: Step): World
    requires Enabled(w, st)
  {
    match st
    case Loop(i, event) => w.(loops := w.loops[i := Moved(w.loops[i])])
    case Stop =>
      var n := |w.loops|;
      match w.stopper
      case NotCalled => w.(stopper := NextToClear(n, 0))
      case Clearing(i) =>
        w.(stopper := Writing(i),
           loops := w.loops[i := w.loops[i].(running := false, missed := w.loops[i].pc == Starting)])
      case Writing(i) => w.(stopper := NextToClear(n, i + 1), loops := w.loops[i := w.loops[i].(wake := true)])
      case Joining(i) => w.(stopper := NextToJoin(n, i + 1))
      case Returned => w
  }

  /** The stopper has cleared loop `i`'s flag. */
  predicate Cleared(s: Stopper, i: nat) {
    match s
    case NotCalled => false
    case Clearing(j) => i < j
    case Writing(j) => i <= j
    case Joining(j) => true
    case Returned => true
  }

  ghost predicate LoopInv(l: LoopState, s: Stopper, i: nat) {
    && (Cleared(s, i) && s != Writing(i) ==> l.wake)
    && (!Cleared(s, i) ==> !l.missed && !l.wake)
    && (if l.pc == Starting then !l.running && (Cleared(s, i) ==> l.missed)
        else l.running <==> !Cleared(s, i) || l.missed)
    && (l.pc == Exited ==> Cleared(s, i) && !l.missed)
    && (s.Joining? && i < s.i ==> l.pc == Exited)
    && (s.Returned? ==> l.pc == Exited)
  }

  ghost predicate Inv(w: World) {
    && (w.stopper.Clearing? || w.stopper.Writing? || w.stopper.Joining? ==> w.stopper.i < |w.loops|)
    && forall i :: 0 <= i < |w.loops| ==> LoopInv(w.loops[i], w.stopper, i)
  }

  ghost predicate Start(w: World) {
    w.stopper == NotCalled && forall i :: 0 <= i < |w.loops| ==> w.loops[i] == LoopState(Starting, false, false, false)
  }

  lemma StepKeepsInv(w: World, st: Step)
    requires Inv(w) && Enabled(w, st)
    ensures Inv(Apply(w, st))
  {
    var w' := Apply(w, st);
    forall j | 0 <= j < |w'.loops| ensures LoopInv(w'.loops[j], w'.stopper, j) {
      assert LoopInv(w.loops[j], w.stopper, j);
    }
  }

  /** From `w` on, in some interleaving of the loops and the stopper. */
  ghost predicate Continues(w: World, ws: seq<World>, steps: seq<Step>) {
    && |ws| == |steps| + 1
    && ws[0] == w
    && forall i :: 0 <= i < |steps| ==> Enabled(ws[i], steps[i]) && ws[i + 1] == Apply(ws[i], steps[i])
  }

  ghost predicate IsRun(ws: seq<World>, steps: seq<Step>) {
    |ws| > 0 && Start(ws[0]) && Continues(ws[0], ws, steps)
  }

  lemma {:induction false} RunInv(w: World, ws: seq<World>, steps: seq<Step>, i: nat)
    requires Continues(w, ws, steps) && Inv(w) && i < |ws|
    ensures Inv(ws[i]) && |ws[i].loops| == |w.loops|
  {
    if i > 0 {
      RunInv(w, ws, steps, i - 1);
      StepKeepsInv(ws[i - 1], steps[i - 1]);
    }
  }

  lemma InvAt(ws: seq<World>, steps: seq<Step>, i: nat)
    requires IsRun(ws, steps) && i < |ws|
    ensures Inv(ws[i]) && |ws[i].loops| == |ws[0].loops| && |ws| == |steps| + 1
  {
    RunInv(ws[0], ws, steps, i);
  }

  /** All but the last step. */
  lemma Shorter(w: World, ws: seq<World>, steps: seq<Step>)
    requires Continues(w, ws, steps) && steps != []
    ensures Continues(w, ws[..|steps|], steps[..|steps| - 1])
  {
  }

  lemma Longer(w: World, ws: seq<World>, steps: seq<Step>, st: Step)
    requires Continues(w, ws, steps) && Enabled(ws[|steps|], st)
    ensures Continues(w, ws + [Apply(ws[|steps|], st)], steps + [st])
  {
  }

  /** One step, then a run from where it leads. */
  lemma Sooner(w: World, st: Step, ws: seq<World>, steps: seq<Step>)
    requires Enabled(w, st) && Continues(Apply(w, st), ws, steps)
    ensures Continues(w, [w] + ws, [st] + steps)
  {
  }

  /**
   A stop is never lost in the wait: a loop that is in epoll_wait, or about to be, with its flag
   cleared has its wake-up ready, or the stopper is about to write it.
   */
  lemma WakeupNotLost(ws: seq<World>, steps: seq<Step>, k: nat, i: nat)
    requires IsRun(ws, steps) && k < |ws| && i < |ws[k].loops|
    requires ws[k].loops[i].pc != Starting && !ws[k].loops[i].running
    ensures ws[k].loops[i].wake || ws[k].stopper == Writing(i)
  {
    InvAt(ws, steps, k);
    assert LoopInv(ws[k].loops[i], ws[k].stopper, i);
  }

  /**
   The wake-up is written only after the flag is cleared: a loop that was not stopped early and finds its
   wake-up ready finds its flag cleared, too, and so ends.
   */
  lemma WokenFindsStop(ws: seq<World>, steps: seq<Step>, k: nat, i: nat)
    requires IsRun(ws, steps) && k < |ws| && i < |ws[k].loops|
    requires ws[k].loops[i].wake && !ws[k].loops[i].missed
    ensures !ws[k].loops[i].running && (ws[k].loops[i].pc == Testing ==> Moved(ws[k].loops[i]).pc == Exited)
  {
    InvAt(ws, steps, k);
    assert LoopInv(ws[k].loops[i], ws[k].stopper, i);
  }

  /** Stop returns only when every loop has ended. */
  lemma ReturnMeansExited(ws: seq<World>, steps: seq<Step>, k: nat)
    requires IsRun(ws, steps) && k < |ws| && ws[k].stopper == Returned
    ensures forall i :: 0 <= i < |ws[k].loops| ==> ws[k].loops[i].pc == Exited
  {
    InvAt(ws, steps, k);
    forall i | 0 <= i < |ws[k].loops| ensures ws[k].loops[i].pc == Exited {
      assert LoopInv(ws[k].loops[i], ws[k].stopper, i);
    }
  }

  /** A loop that blocks stays blocked until its wake-up is written or another event comes. */
  lemma {:induction false} BlockedUntilWoken(ws: seq<World>, steps: seq<Step>, i: nat, k: nat, m: nat)
    requires IsRun(ws, steps) && k <= m <= |steps| && i < |ws[k].loops| && ws[k].loops[i].pc == Blocking
    requires forall j :: k <= j < m && steps[j].Loop? && steps[j].i == i ==> !steps[j].event
    ensures |ws| == |steps| + 1 && |ws[m].loops| == |ws[k].loops|
    ensures !ws[m].loops[i].wake ==> ws[m].loops[i].pc == Blocking
    decreases m
  {
    if k < m {
      BlockedUntilWoken(ws, steps, i, k, m - 1);
      assert Enabled(ws[m - 1], steps[m - 1]) && ws[m] == Apply(ws[m - 1], steps[m - 1]);
    }
  }

  // How soon a loop ends

  ghost function Rank(l: LoopState): nat {
    match l.pc
    case Starting => 4
    case Blocking => 3
    case Handling => 2
    case Testing => 1
    case Exited => 0
  }

  /** With its flag cleared every move brings a loop nearer its end. */
  lemma MoveNearsEnd(l: LoopState)
    requires !l.running && l.pc != Exited && l.pc != Starting
    ensures Rank(Moved(l)) < Rank(l) && !Moved(l).running && Moved(l).pc != Starting
    ensures Moved(l).pc == Handling ==> l.pc == Blocking
    ensures Moved(l).pc != Blocking
  {
  }

  predicate BeginsBatch(w: World, st: Step, i: nat) {
    st.Loop? && st.i == i && i < |w.loops| && w.loops[i].pc == Blocking
  }

  ghost predicate Ending(w: World, i: nat) {
    && i < |w.loops| && Cleared(w.stopper, i)
    && w.loops[i].pc != Starting && !w.loops[i].missed && !w.loops[i].running
  }

  lemma EndingStep(w: World, st: Step, i: nat)
    requires Inv(w) && Enabled(w, st) && Ending(w, i)
    ensures Ending(Apply(w, st), i)
    ensures Apply(w, st).loops[i].pc == Blocking ==> w.loops[i].pc == Blocking && !BeginsBatch(w, st, i)
  {
    StepKeepsInv(w, st);
    assert LoopInv(Apply(w, st).loops[i], Apply(w, st).stopper, i);
  }

  /** How many batches loop `i` begins between the states `k` and `m`. */
  ghost function Batches(ws: seq<World>, steps: seq<Step>, i: nat, k: nat, m: nat): nat
    requires k <= m <= |steps| && |ws| == |steps| + 1
    decreases m
  {
    if m == k then 0
    else Batches(ws, steps, i, k, m - 1) + (if BeginsBatch(ws[m - 1], steps[m - 1], i) then 1 else 0)
  }

  /**
   From the moment its flag is cleared, a loop that had started begins at most one more batch: the one
   it blocks for.
   */
  lemma {:induction false} AtMostOneMoreBatch(ws: seq<World>, steps: seq<Step>, i: nat, k: nat, m: nat)
    requires IsRun(ws, steps) && k <= m <= |steps| && i < |ws[k].loops|
    requires Cleared(ws[k].stopper, i) && ws[k].loops[i].pc != Starting && !ws[k].loops[i].missed
    ensures Ending(ws[m], i)
    ensures Batches(ws, steps, i, k, m) + (if ws[m].loops[i].pc == Blocking then 1 else 0)
         <= (if ws[k].loops[i].pc == Blocking then 1 else 0)
    decreases m
  {
    if m == k {
      InvAt(ws, steps, k);
      assert LoopInv(ws[k].loops[i], ws[k].stopper, i);
    } else {
      hide Inv, Cleared;
      AtMostOneMoreBatch(ws, steps, i, k, m - 1);
      InvAt(ws, steps, m - 1);
      EndingStep(ws[m - 1], steps[m - 1], i);
    }
  }

  ghost function TotalRank(ls: seq<LoopState>): nat {
    if ls == [] then 0 else Rank(ls[0]) + TotalRank(ls[1..])
  }

  lemma {:induction false} TotalRankUpdate(ls: seq<LoopState>, i: nat, l: LoopState)
    requires i < |ls|
    ensures TotalRank(ls[i := l]) + Rank(ls[i]) == TotalRank(ls) + Rank(l)
  {
    if i == 0 {
      assert ls[i := l][1..] == ls[1..];
    } else {
      TotalRankUpdate(ls[1..], i - 1, l);
      assert ls[i := l][1..] == ls[1..][i - 1 := l];
    }
  }

  // Stopping a loop before it has set its flag

  /** Step `j` of the run clears the flag of loop `i` before the loop's thread has set it. */
  ghost predicate ClearsEarly(ws: seq<World>, steps: seq<Step>, i: nat, j: nat) {
    && j < |steps| < |ws| && steps[j] == Stop && ws[j].stopper == Clearing(i)
    && i < |ws[j].loops| && ws[j].loops[i].pc == Starting
  }

  ghost predicate Early(ws: seq<World>, steps: seq<Step>, i: nat) {
    exists j: nat :: ClearsEarly(ws, steps, i, j)
  }

  lemma EarlyOneMore(ws: seq<World>, steps: seq<Step>, i: nat)
    requires |ws| == |steps| + 1 && steps != []
    ensures Early(ws, steps, i) <==>
            Early(ws[..|steps|], steps[..|steps| - 1], i) || ClearsEarly(ws, steps, i, |steps| - 1)
  {
    var vs, ts := ws[..|steps|], steps[..|steps| - 1];
    forall j: nat | j < |ts| ensures ClearsEarly(vs, ts, i, j) <==> ClearsEarly(ws, steps, i, j) {
    }
    if j: nat :| ClearsEarly(vs, ts, i, j) {
      assert ClearsEarly(ws, steps, i, j);
    }
  }

  /** What `missed` records. */
  lemma {:induction false} MissedIffEarly(w: World, ws: seq<World>, steps: seq<Step>, i: nat)
    requires Continues(w, ws, steps) && Inv(w) && w.stopper == NotCalled && i < |w.loops|
    ensures i < |ws[|steps|].loops| && (ws[|steps|].loops[i].missed <==> Early(ws, steps, i))
    decreases |steps|
  {
    if steps == [] {
      assert LoopInv(w.loops[i], w.stopper, i);
    } else {
      hide Early, Inv;
      var k := |steps| - 1;
      Shorter(w, ws, steps);
      MissedIffEarly(w, ws[..k + 1], steps[..k], i);
      EarlyOneMore(ws, steps, i);
      RunInv(w, ws, steps, k);
      ClearingSetsMissed(ws[k], steps[k], i);
    }
  }

  lemma ClearingSetsMissed(w: World, st: Step, i: nat)
    requires Inv(w) && Enabled(w, st) && i < |w.loops|
    ensures Apply(w, st).loops[i].missed <==>
            w.loops[i].missed || (st == Stop && w.stopper == Clearing(i) && w.loops[i].pc == Starting)
  {
    assert LoopInv(w.loops[i], w.stopper, i);
  }

  /** Such a loop sets its flag afterwards and runs on for good, and Stop waits for it for good. */
  lemma {:induction false} MissedForever(w: World, ws: seq<World>, steps: seq<Step>, i: nat)
    requires Continues(w, ws, steps) && Inv(w) && i < |w.loops| && w.loops[i].missed
    ensures var v := ws[|steps|];
      && i < |v.loops| && v.loops[i].missed && v.loops[i].pc != Exited && v.stopper != Returned
      && (v.loops[i].pc != Starting ==> v.loops[i].running)
    decreases |steps|
  {
    RunInv(w, ws, steps, |steps|);
    if steps != [] {
      hide Inv;
      var k := |steps| - 1;
      Shorter(w, ws, steps);
      MissedForever(w, ws[..k + 1], steps[..k], i);
      RunInv(w, ws, steps, k);
      ClearingSetsMissed(ws[k], steps[k], i);
    }
    MissedNow(ws[|steps|], i);
  }

  lemma MissedNow(w: World, i: nat)
    requires Inv(w) && i < |w.loops| && w.loops[i].missed
    ensures w.loops[i].pc != Exited && w.stopper != Returned
    ensures w.loops[i].pc != Starting ==> w.loops[i].running
  {
    assert LoopInv(w.loops[i], w.stopper, i);
  }

  /** Some interleaving from here lets Stop return. */
  ghost predicate CanReturn(w: World) {
    exists ws: seq<World>, steps: seq<Step> :: Continues(w, ws, steps) && ws[|steps|].stopper == Returned
  }

  /** Some thread can move although no descriptor but the wake-ups is ready. */
  ghost predicate CanGoOn(w: World) {
    Enabled(w, Stop) || exists i: nat :: Enabled(w, Loop(i, false))
  }

  /** Whatever the interleaving, it is not longer than some bound, and it only ends in Stop's return. */
  ghost predicate MustReturn(w: World) {
    exists bound: nat :: Within(w, bound)
  }

  ghost predicate Within(w: World, bound: nat) {
    forall ws: seq<World>, steps: seq<Step> :: Continues(w, ws, steps) ==>
      |steps| <= bound && (ws[|steps|].stopper == Returned || CanGoOn(ws[|steps|]))
  }

  /** Stop has reached its joins and no loop was stopped early. */
  ghost predicate Joinable(w: World) {
    Inv(w) && (w.stopper.Joining? || w.stopper.Returned?) && forall i :: 0 <= i < |w.loops| ==> !w.loops[i].missed
  }

  ghost function Remaining(w: World): nat
    requires w.stopper.Joining? ==> w.stopper.i < |w.loops|
  {
    TotalRank(w.loops) + (if w.stopper.Joining? then |w.loops| - w.stopper.i else 0)
  }

  lemma JoinableStep(w: World, st: Step)
    requires Joinable(w) && Enabled(w, st)
    ensures Joinable(Apply(w, st)) && Remaining(Apply(w, st)) < Remaining(w)
  {
    StepKeepsInv(w, st);
    if st.Loop? {
      assert LoopInv(w.loops[st.i], w.stopper, st.i);
      MoveNearsEnd(w.loops[st.i]);
      TotalRankUpdate(w.loops, st.i, Moved(w.loops[st.i]));
    }
  }

  lemma JoinableGoesOn(w: World)
    requires Joinable(w)
    ensures w.stopper == Returned || CanGoOn(w)
  {
    if w.stopper.Joining? && w.loops[w.stopper.i].pc != Exited {
      assert LoopInv(w.loops[w.stopper.i], w.stopper, w.stopper.i);
      assert Enabled(w, Loop(w.stopper.i, false));
    }
  }

  lemma {:induction false} JoinsBounded(w: World, ws: seq<World>, steps: seq<Step>)
    requires Joinable(w) && Continues(w, ws, steps)
    ensures Joinable(ws[|steps|]) && |steps| + Remaining(ws[|steps|]) <= Remaining(w)
    decreases |steps|
  {
    if steps != [] {
      hide Joinable, Remaining;
      var k := |steps| - 1;
      Shorter(w, ws, steps);
      JoinsBounded(w, ws[..k + 1], steps[..k]);
      JoinableStep(ws[k], steps[k]);
    }
  }

  lemma {:induction false} JoinsReturn(w: World)
    requires Joinable(w)
    ensures CanReturn(w)
    decreases Remaining(w)
  {
    if w.stopper == Returned {
      assert Continues(w, [w], []);
    } else {
      JoinableGoesOn(w);
      var st :| Enabled(w, st);
      JoinableStep(w, st);
      JoinsReturn(Apply(w, st));
      var ws: seq<World>, steps: seq<Step> :| Continues(Apply(w, st), ws, steps) && ws[|steps|].stopper == Returned;
      Sooner(w, st, ws, steps);
    }
  }

  /** A loop stopped early can always move on, so the wait for it has no bound. */
  lemma {:induction false} MissedNeverBounded(w: World, i: nat, n: nat)
    requires Inv(w) && i < |w.loops| && w.loops[i].missed
    ensures exists ws: seq<World>, steps: seq<Step> :: Continues(w, ws, steps) && |steps| == n
    decreases n
  {
    if n == 0 {
      assert Continues(w, [w], []);
    } else {
      MissedNow(w, i);
      var st := Loop(i, true);
      StepKeepsInv(w, st);
      ClearingSetsMissed(w, st, i);
      MissedNeverBounded(Apply(w, st), i, n - 1);
      var ws: seq<World>, steps: seq<Step> :| Continues(Apply(w, st), ws, steps) && |steps| == n - 1;
      Sooner(w, st, ws, steps);
      assert |[st] + steps| == n;
    }
  }

  /** From the joins on, Stop returns exactly when no loop was stopped early: for `w` reached at the end of the run. */
  lemma JoinsReturnIff(w0: World, ws: seq<World>, steps: seq<Step>)
    requires Continues(w0, ws, steps) && Inv(w0) && w0.stopper == NotCalled && ws[|steps|].stopper.Joining?
    ensures var none := forall i: nat :: i < |w0.loops| ==> !Early(ws, steps, i);
      (none <==> CanReturn(ws[|steps|])) && (none <==> MustReturn(ws[|steps|]))
  {
    hide Early, Inv;
    var w := ws[|steps|];
    RunInv(w0, ws, steps, |steps|);
    forall i: nat | i < |w0.loops| ensures w.loops[i].missed <==> Early(ws, steps, i) {
      MissedIffEarly(w0, ws, steps, i);
    }
    if i: nat :| i < |w0.loops| && Early(ws, steps, i) {
      NeverReturns(w, i);
    } else {
      JoinsReturn(w);
      AlwaysReturns(w);
    }
  }

  lemma NeverReturns(w: World, i: nat)
    requires Inv(w) && i < |w.loops| && w.loops[i].missed
    ensures !CanReturn(w) && !MustReturn(w)
  {
    if ws: seq<World>, steps: seq<Step> :| Continues(w, ws, steps) && ws[|steps|].stopper == Returned {
      MissedForever(w, ws, steps, i);
    }
    if bound: nat :| Within(w, bound) {
      MissedNeverBounded(w, i, bound + 1);
    }
  }

  lemma AlwaysReturns(w: World)
    requires Joinable(w)
    ensures MustReturn(w)
  {
    forall ws: seq<World>, steps: seq<Step> | Continues(w, ws, steps)
      ensures |steps| <= Remaining(w) && (ws[|steps|].stopper == Returned || CanGoOn(ws[|steps|]))
    {
      JoinsBounded(w, ws, steps);
      JoinableGoesOn(ws[|steps|]);
    }
    assert Within(w, Remaining(w));
  }

  /** The run that shows it: Stop clears the only loop's flag before its thread has set it. */
  lemma StopBeforeLoop() returns (ws: seq<World>, steps: seq<Step>)
    ensures IsRun(ws, steps) && |ws[0].loops| == 1 && Early(ws, steps, 0)
    ensures ws[|steps|].stopper == Joining(0)
    ensures |ws[|steps|].loops| == 1 && ws[|steps|].loops[0].running
    ensures !CanReturn(ws[|steps|])
  {
    var l := LoopState(Starting, false, false, false);
    var m := l.(missed := true);
    steps := [Stop, Stop, Stop, Loop(0, false), Loop(0, false)];
    ws := [World([l], NotCalled), World([l], Clearing(0)), World([m], Writing(0)),
           World([m.(wake := true)], Joining(0)),
           World([LoopState(Testing, true, true, true)], Joining(0)),
           World([LoopState(Blocking, true, true, true)], Joining(0))];
    assert ClearsEarly(ws, steps, 0, 1);
    InvAt(ws, steps, 5);
    NeverReturns(ws[5], 0);
  }

  /** How many moves loop `i` makes between the states `k` and `m`. */
  ghost function Moves(steps: seq<Step>, i: nat, k: nat, m: nat): nat
    requires k <= m <= |steps|
    decreases m
  {
    if m == k then 0
    else Moves(steps, i, k, m - 1) + (if steps[m - 1].Loop? && steps[m - 1].i == i then 1 else 0)
  }

  lemma {:induction false} MovesUseRank(ws: seq<World>, steps: seq<Step>, i: nat, k: nat, m: nat)
    requires IsRun(ws, steps) && k <= m <= |steps| && Ending(ws[k], i)
    ensures Ending(ws[m], i) && Moves(steps, i, k, m) + Rank(ws[m].loops[i]) <= Rank(ws[k].loops[i])
    decreases m
  {
    if m > k {
      hide Inv, Cleared;
      MovesUseRank(ws, steps, i, k, m - 1);
      InvAt(ws, steps, m - 1);
      EndingStep(ws[m - 1], steps[m - 1], i);
    }
  }

  lemma RunStep(ws: seq<World>, steps: seq<Step>, k: nat)
    requires IsRun(ws, steps) && k < |steps|
    ensures |ws| == |steps| + 1 && Enabled(ws[k], steps[k]) && ws[k + 1] == Apply(ws[k], steps[k])
  {
  }

  lemma RestOfRun(w: World, ws: seq<World>, steps: seq<Step>, k: nat, m: nat)
    requires Continues(w, ws, steps) && k <= m <= |steps|
    ensures Continues(ws[k], ws[k..m + 1], steps[k..m])
  {
  }

  lemma RunsOn(ws: seq<World>, steps: seq<Step>, k: nat, m: nat, i: nat)
    requires IsRun(ws, steps) && k <= m <= |steps| && Inv(ws[k]) && i < |ws[k].loops| && ws[k].loops[i].missed
    ensures i < |ws[m].loops| && ws[m].loops[i].pc != Exited && ws[m].stopper != Returned
    ensures ws[m].loops[i].pc != Starting ==> ws[m].loops[i].running
  {
    hide Inv;
    RestOfRun(ws[0], ws, steps, k, m);
    MissedForever(ws[k], ws[k..m + 1], steps[k..m], i);
    assert ws[k..m + 1][m - k] == ws[m];
  }

  /** The state after Stop clears a flag. */
  lemma AfterClearing(w: World, i: nat)
    requires Inv(w) && w.stopper == Clearing(i)
    ensures i < |w.loops| && Inv(Apply(w, Stop))
    ensures var v := Apply(w, Stop); if w.loops[i].pc == Starting then v.loops[i].missed else Ending(v, i)
    ensures Rank(Apply(w, Stop).loops[i]) <= 3 || w.loops[i].pc == Starting
  {
    StepKeepsInv(w, Stop);
    assert LoopInv(Apply(w, Stop).loops[i], Apply(w, Stop).stopper, i);
  }

  /**
   A loop ends, and within three moves, exactly when its thread had set the flag before Stop cleared
   it. Otherwise it sets the flag again and runs on, and Stop does not return.
   */
  lemma EndsIffStarted(ws: seq<World>, steps: seq<Step>, c: nat, i: nat, m: nat)
    requires IsRun(ws, steps) && c < m <= |steps| && steps[c] == Stop && ws[c].stopper == Clearing(i)
    ensures |ws| == |steps| + 1 && i < |ws[c].loops| && i < |ws[m].loops|
    ensures Moves(steps, i, c + 1, m) >= 3 ==> (ws[m].loops[i].pc == Exited <==> ws[c].loops[i].pc != Starting)
    ensures ws[c].loops[i].pc == Starting ==>
      ws[m].loops[i].pc != Exited && ws[m].stopper != Returned
      && (ws[m].loops[i].pc != Starting ==> ws[m].loops[i].running)
  {
    InvAt(ws, steps, c);
    hide Inv, Moves, Apply, Continues;
    AfterClearing(ws[c], i);
    InvAt(ws, steps, m);
    assert ws[c + 1] == Apply(ws[c], Stop) by { RunStep(ws, steps, c); }
    if ws[c].loops[i].pc == Starting {
      RunsOn(ws, steps, c + 1, m, i);
    } else {
      MovesUseRank(ws, steps, i, c + 1, m);
    }
  }

  // The stopper

  /** The loops move on their own for a while; `ws` and `steps` go on recording. */
  method Interleave(w0: World, v: World, ghost vs: seq<World>, ghost ts: seq<Step>)
    returns (w: World, ghost ws: seq<World>, ghost steps: seq<Step>)
    requires Inv(w0) && Continues(w0, vs, ts) && vs[|ts|] == v
    ensures Continues(w0, ws, steps) && ws[|steps|] == w
    ensures Inv(w) && w.stopper == v.stopper && |w.loops| == |v.loops|
  {
    w, ws, steps := v, vs, ts;
    RunInv(w0, ws, steps, |steps|);
    var turns: nat :| 0 <= turns;
    while turns > 0
      invariant Continues(w0, ws, steps) && ws[|steps|] == w
      invariant Inv(w) && w.stopper == v.stopper && |w.loops| == |v.loops|
    {
      var i: nat :| 0 <= i;
      var event: bool := *;
      if Enabled(w, Loop(i, event)) {
        StepKeepsInv(w, Loop(i, event));
        Longer(w0, ws, steps, Loop(i, event));
        w, ws, steps := Apply(w, Loop(i, event)), ws + [Apply(w, Loop(i, event))], steps + [Loop(i, event)];
      }
      turns := turns - 1;
    }
  }

  /** One step of the stopper. */
  method StopStep(w0: World, v: World, ghost vs: seq<World>, ghost ts: seq<Step>)
    returns (w: World, ghost ws: seq<World>, ghost steps: seq<Step>)
    requires Inv(w0) && Continues(w0, vs, ts) && vs[|ts|] == v && Enabled(v, Stop)
    ensures Continues(w0, ws, steps) && ws[|steps|] == w && w == Apply(v, Stop) && Inv(w)
  {
    RunInv(w0, vs, ts, |ts|);
    StepKeepsInv(v, Stop);
    Longer(w0, vs, ts, Stop);
    w, ws, steps := Apply(v, Stop), vs + [Apply(v, Stop)], ts + [Stop];
  }

  /** The stopper's first loop: clear each flag and write each wake-up, whatever the loops do in between. */
  method StopAll(w0: World) returns (w: World, ghost ws: seq<World>, ghost steps: seq<Step>)
    requires Inv(w0) && w0.stopper == NotCalled
    ensures Continues(w0, ws, steps) && ws[|steps|] == w && Inv(w)
    ensures |w.loops| == |w0.loops| && w.stopper == NextToJoin(|w0.loops|, 0)
  {
    var n := |w0.loops|;
    w, ws, steps := StopStep(w0, w0, [w0], []);
    for i := 0 to n
      invariant Continues(w0, ws, steps) && ws[|steps|] == w && Inv(w)
      invariant |w.loops| == n && w.stopper == NextToClear(n, i)
    {
      w, ws, steps := Interleave(w0, w, ws, steps);
      w, ws, steps := StopStep(w0, w, ws, steps);
      w, ws, steps := Interleave(w0, w, ws, steps);
      w, ws, steps := StopStep(w0, w, ws, steps);
    }
  }

  /**
   IOThreadPool::Stop, called at any moment, whatever the loops do in between and whichever the
   scheduler picks. It returns, with every loop ended, exactly when no loop was stopped early; else it
   is left waiting in its joins, from where no interleaving lets it return.
   */
  method StopAndJoin(w0: World) returns (w: World, ghost ws: seq<World>, ghost steps: seq<Step>)
    requires Inv(w0) && w0.stopper == NotCalled
    ensures Continues(w0, ws, steps) && ws[|steps|] == w && |w.loops| == |w0.loops|
    ensures w.stopper == Returned <==> forall i: nat :: i < |w0.loops| ==> !Early(ws, steps, i)
    ensures w.stopper == Returned ==> forall i :: 0 <= i < |w.loops| ==> w.loops[i].pc == Exited
    ensures w.stopper != Returned ==> w.stopper.Joining? && !CanReturn(w)
  {
    hide Early, CanReturn;
    var n := |w0.loops|;
    w, ws, steps := StopAll(w0);
    if exists i :: 0 <= i < n && w.loops[i].missed {
      ghost var i: nat :| i < n && w.loops[i].missed;
      MissedIffEarly(w0, ws, steps, i);
      NeverReturns(w, i);
      MissedNow(w, i);
      return;
    }
    for i := 0 to n
      invariant Continues(w0, ws, steps) && ws[|steps|] == w
      invariant Joinable(w) && |w.loops| == n && w.stopper == NextToJoin(n, i)
    {
      w, ws, steps := Await(w0, w, i, ws, steps);
      JoinableStep(w, Stop);
      w, ws, steps := StopStep(w0, w, ws, steps);
    }
    forall i: nat | i < n ensures w.loops[i].pc == Exited && !Early(ws, steps, i) {
      assert LoopInv(w.loops[i], w.stopper, i);
      MissedIffEarly(w0, ws, steps, i);
    }
  }

  /** Joining loop `i`: any loop not yet ended may be the next to move. */
  method Await(w0: World, v: World, i: nat, ghost vs: seq<World>, ghost ts: seq<Step>)
    returns (w: World, ghost ws: seq<World>, ghost steps: seq<Step>)
    requires Inv(w0) && Continues(w0, vs, ts) && vs[|ts|] == v && Joinable(v) && v.stopper == Joining(i)
    ensures Continues(w0, ws, steps) && ws[|steps|] == w
    ensures Joinable(w) && w.stopper == v.stopper && |w.loops| == |v.loops|
    ensures i < |w.loops| && w.loops[i].pc == Exited
  {
    w, ws, steps := v, vs, ts;
    while w.loops[i].pc != Exited
      invariant Continues(w0, ws, steps) && ws[|steps|] == w
      invariant Joinable(w) && w.stopper == v.stopper && |w.loops| == |v.loops|
      decreases Remaining(w)
    {
      var j: nat :| j < |w.loops| && w.loops[j].pc != Exited;
      assert LoopInv(w.loops[j], w.stopper, j);
      JoinableStep(w, Loop(j, false));
      Longer(w0, ws, steps, Loop(j, false));
      w, ws, steps := Apply(w, Loop(j, false)), ws + [Apply(w, Loop(j, false))], steps + [Loop(j, false)];
    }
  }
}
