/**
 A pool of workers over one queue, as a machine of atomic steps: a locked section, a wait, a wake-up
 (notified or spurious), a notification sent after the lock is released, a task run. Any number of
 workers and of enqueuing threads interleave freely.
 */
module TaskPool {
  type Task = int

  /** Where a worker is: about to take the lock, asleep in the condition wait, running a task, or returned. */
  datatype Phase = AtLock | Waiting | Running(task: Task) | Exited

  datatype Broadcast = NotDue | Due | Done

  datatype State = State(
    tasks: seq<Task>,
    shutdown: bool,
    notifies: nat,          // enqueuers that have released the lock and not yet called notify_one
    broadcast: Broadcast,   // Shutdown's notify_all
    workers: seq<Phase>,
    accepted: seq<Task>,    // every task Enqueue took, in order
    dequeued: seq<Task>,    // every task a worker popped, in order
    finished: seq<Task>     // every task that ran to its end
  )

  datatype Action =
    | Enqueue(t: Task)
    | NotifyOne(w: nat)
    | NotifyNobody
    | Spurious(w: nat)
    | Locked(w: nat)
    | Finish(w: nat)
    | RequestShutdown
    | NotifyAll

  predicate At(s: State, w: nat, p: Phase) {
    w < |s.workers| && s.workers[w] == p
  }

  predicate Enabled(s: State, a: Action) {
    match a
    case Enqueue(t) => true
    case NotifyOne(w) => s.notifies > 0 && At(s, w, Waiting)
    case NotifyNobody => s.notifies > 0 && Waiting !in s.workers
    case Spurious(w) => At(s, w, Waiting)
    case Locked(w) => At(s, w, AtLock)
    case Finish(w) => w < |s.workers| && s.workers[w].Running?
    case RequestShutdown => true
    case NotifyAll => s.broadcast == Due
  }

  function Woken(ws: seq<Phase>): (r: seq<Phase>)
    ensures |r| == |ws|
    ensures forall i :: 0 <= i < |ws| ==> r[i] == if ws[i] == Waiting then AtLock else ws[i]
  {
    seq(|ws|, i requires 0 <= i < |ws| => if ws[i] == Waiting then AtLock else ws[i])
  }

  function Apply(s: State, a: Action): State
    requires Enabled(s, a)
  {
    match a
    case Enqueue(t) =>
      if s.shutdown then s
      else s.(tasks := s.tasks + [t], accepted := s.accepted + [t], notifies := s.notifies + 1)
    case NotifyOne(w) => s.(notifies := s.notifies - 1, workers := s.workers[w := AtLock])
    case NotifyNobody => s.(notifies := s.notifies - 1)
    case Spurious(w) => s.(workers := s.workers[w := AtLock])
    case Locked(w) =>
      if !s.shutdown && s.tasks == [] then s.(workers := s.workers[w := Waiting])
      else if s.tasks == [] then s.(workers := s.workers[w := Exited])
      else s.(workers := s.workers[w := Running(s.tasks[0])],
              tasks := s.tasks[1..], dequeued := s.dequeued + [s.tasks[0]])
    case Finish(w) =>
      s.(workers := s.workers[w := AtLock], finished := s.finished + [s.workers[w].task])
    case RequestShutdown => if s.shutdown then s else s.(shutdown := true, broadcast := Due)
    case NotifyAll => s.(broadcast := Done, workers := Woken(s.workers))
  }

  /** 1 when `p` is running task `t`, else 0. */
  ghost function Runs(p: Phase, t: Task): nat {
    if p == Running(t) then 1 else 0
  }

  /** How many workers are running `t` at this moment. */
  ghost function RunningCount(ws: seq<Phase>, t: Task): nat {
    if ws == [] then 0 else Runs(ws[0], t) + RunningCount(ws[1..], t)
  }

  ghost function LockersCount(s: State): nat {
    multiset(s.workers)[AtLock]
  }

  ghost predicate AllExited(s: State) {
    forall p :: p in s.workers ==> p == Exited
  }

  /** Each popped task is either being run or has been run, as often as it was popped. */
  ghost predicate Accounted(s: State) {
    forall t: Task :: multiset(s.dequeued)[t] == multiset(s.finished)[t] + RunningCount(s.workers, t)
  }

  ghost predicate Inv(s: State) {
    && 0 < |s.workers|
    && (Waiting in s.workers ==> |s.tasks| <= LockersCount(s) + s.notifies)
    && s.accepted == s.dequeued + s.tasks
    && Accounted(s)
    && (Exited in s.workers ==> s.shutdown && s.tasks == [])
    && (s.shutdown <==> s.broadcast != NotDue)
    && (s.broadcast == Done ==> Waiting !in s.workers)
  }

  /** A pool of `n` workers before any of them has taken the lock. */
  function Start(n: nat): (s: State)
    ensures |s.workers| == n && forall i :: 0 <= i < n ==> s.workers[i] == AtLock
  {
    State([], false, 0, NotDue, seq(n, i => AtLock), [], [], [])
  }

  lemma {:induction false} NothingRunning(ws: seq<Phase>, t: Task)
    requires Running(t) !in ws
    ensures RunningCount(ws, t) == 0
  {
    if ws != [] { NothingRunning(ws[1..], t); }
  }

  lemma {:induction false} RunningUpdate(ws: seq<Phase>, w: nat, p: Phase, t: Task)
    requires w < |ws|
    ensures RunningCount(ws[w := p], t) + Runs(ws[w], t) == RunningCount(ws, t) + Runs(p, t)
  {
    if w == 0 {
      assert ws[w := p][1..] == ws[1..];
    } else {
      RunningUpdate(ws[1..], w - 1, p, t);
      assert ws[w := p][1..] == ws[1..][w - 1 := p];
    }
  }

  lemma {:induction false} RunningWoken(ws: seq<Phase>, t: Task)
    ensures RunningCount(Woken(ws), t) == RunningCount(ws, t)
  {
    if ws != [] {
      RunningWoken(ws[1..], t);
      assert Woken(ws)[1..] == Woken(ws[1..]);
    }
  }

  /** One worker changing phase keeps the accounts when popped and finished tasks change to match. */
  lemma AccountedUpdate(s: State, s': State, w: nat)
    requires Accounted(s) && w < |s.workers| && |s'.workers| == |s.workers|
    requires s'.workers == s.workers[w := s'.workers[w]]
    requires forall t: Task :: multiset(s'.dequeued)[t] - multiset(s.dequeued)[t] + Runs(s.workers[w], t)
                      == multiset(s'.finished)[t] - multiset(s.finished)[t] + Runs(s'.workers[w], t)
    ensures Accounted(s')
  {
    forall t: Task
      ensures multiset(s'.dequeued)[t] == multiset(s'.finished)[t] + RunningCount(s'.workers, t)
    {
      RunningUpdate(s.workers, w, s'.workers[w], t);
    }
  }

  lemma StartInv(n: nat)
    requires 0 < n
    ensures Inv(Start(n))
  {
    forall t: Task ensures RunningCount(Start(n).workers, t) == 0 {
      NothingRunning(Start(n).workers, t);
    }
  }

  lemma PopKeepsInv(s: State, w: nat)
    requires Inv(s) && At(s, w, AtLock) && s.tasks != []
    ensures Inv(Apply(s, Locked(w)))
  {
    var s' := Apply(s, Locked(w));
    assert s.tasks == [s.tasks[0]] + s.tasks[1..];
    AccountedUpdate(s, s', w);
    assert s.workers[w] in s.workers;
    assert forall p :: p != AtLock && !p.Running? && p in s'.workers ==> p in s.workers;
  }

  lemma WakeKeepsInv(s: State, s': State, w: nat)
    requires Inv(s) && At(s, w, Waiting)
    requires s' == s.(workers := s.workers[w := AtLock], notifies := s'.notifies)
    requires s.notifies - 1 <= s'.notifies
    ensures Inv(s')
  {
    AccountedUpdate(s, s', w);
    assert s.workers[w] in s.workers;
    assert forall p :: p != AtLock && p in s'.workers ==> p in s.workers;
  }

  lemma LeaveLockKeepsInv(s: State, w: nat)
    requires Inv(s) && At(s, w, AtLock) && s.tasks == []
    ensures Inv(Apply(s, Locked(w)))
  {
    var s' := Apply(s, Locked(w));
    AccountedUpdate(s, s', w);
    assert forall p :: p in s'.workers ==> p == s'.workers[w] || p in s.workers;
  }

  lemma FinishKeepsInv(s: State, w: nat)
    requires Inv(s) && Enabled(s, Finish(w))
    ensures Inv(Apply(s, Finish(w)))
  {
    AccountedUpdate(s, Apply(s, Finish(w)), w);
    assert forall p :: p in Apply(s, Finish(w)).workers ==> p == AtLock || p in s.workers;
  }

  lemma BroadcastKeepsInv(s: State)
    requires Inv(s) && Enabled(s, NotifyAll)
    ensures Inv(Apply(s, NotifyAll))
  {
    forall t: Task ensures RunningCount(Woken(s.workers), t) == RunningCount(s.workers, t) {
      RunningWoken(s.workers, t);
    }
    assert forall p :: p in Woken(s.workers) ==> p == AtLock || p in s.workers;
  }

  lemma StepKeepsInv(s: State, a: Action)
    requires Inv(s) && Enabled(s, a)
    ensures Inv(Apply(s, a))
  {
    match a
    case Enqueue(t) =>
      assert !s.shutdown ==> s.accepted + [t] == s.dequeued + (s.tasks + [t]);
    case NotifyOne(w) => WakeKeepsInv(s, Apply(s, a), w);
    case NotifyNobody =>
    case Spurious(w) => WakeKeepsInv(s, Apply(s, a), w);
    case Locked(w) => if s.tasks == [] { LeaveLockKeepsInv(s, w); } else { PopKeepsInv(s, w); }
    case Finish(w) => FinishKeepsInv(s, w);
    case RequestShutdown =>
    case NotifyAll => BroadcastKeepsInv(s);
  }

  ghost predicate IsRun(ss: seq<State>, acts: seq<Action>) {
    && |ss| == |acts| + 1
    && forall i :: 0 <= i < |acts| ==> Enabled(ss[i], acts[i]) && ss[i + 1] == Apply(ss[i], acts[i])
  }

  lemma {:induction false} RunInv(ss: seq<State>, acts: seq<Action>, i: nat)
    requires IsRun(ss, acts) && Inv(ss[0]) && i < |ss|
    ensures Inv(ss[i])
  {
    if i > 0 {
      RunInv(ss, acts, i - 1);
      StepKeepsInv(ss[i - 1], acts[i - 1]);
    }
  }

  /**
   No wake-up is lost. Whenever some worker sleeps, each queued task has its own worker about to
   look at the queue or its own notification on the way; workers busy with a task do not count.
   In particular the queue is never non-empty with every worker asleep and no notification due.
   */
  lemma NoLostWakeup(n: nat, ss: seq<State>, acts: seq<Action>, i: nat)
    requires 0 < n && IsRun(ss, acts) && ss[0] == Start(n) && i < |ss|
    ensures Waiting in ss[i].workers ==> |ss[i].tasks| <= LockersCount(ss[i]) + ss[i].notifies
    ensures ss[i].tasks != [] && ss[i].notifies == 0 && AtLock !in ss[i].workers ==>
              forall p :: p in ss[i].workers ==> p.Running?
  {
    StartInv(n);
    RunInv(ss, acts, i);
    var s := ss[i];
    if s.tasks != [] && s.notifies == 0 && AtLock !in s.workers {
      forall p | p in s.workers ensures p.Running? {
        assert p == Waiting ==> multiset(s.workers)[AtLock] == 0;
      }
    }
  }

  /**
   Tasks are popped in the order Enqueue accepted them; every accepted task is exactly one of
   queued, being run, or finished; and once every worker has returned, exactly the accepted tasks
   have run.
   */
  lemma ExactlyOnce(n: nat, ss: seq<State>, acts: seq<Action>, i: nat)
    requires 0 < n && IsRun(ss, acts) && ss[0] == Start(n) && i < |ss|
    ensures ss[i].dequeued <= ss[i].accepted
    ensures forall t: Task :: multiset(ss[i].finished)[t] + RunningCount(ss[i].workers, t) + multiset(ss[i].tasks)[t]
                              == multiset(ss[i].accepted)[t]
    ensures AllExited(ss[i]) ==> ss[i].tasks == [] && multiset(ss[i].finished) == multiset(ss[i].accepted)
  {
    StartInv(n);
    RunInv(ss, acts, i);
    assert multiset(ss[i].accepted) == multiset(ss[i].dequeued) + multiset(ss[i].tasks);
    if AllExited(ss[i]) {
      AllRan(ss[i]);
    }
  }

  lemma AllRan(s: State)
    requires Inv(s) && AllExited(s)
    ensures s.tasks == [] && s.dequeued == s.accepted && multiset(s.finished) == multiset(s.accepted)
  {
    assert s.workers[0] in s.workers;
    assert s.dequeued + [] == s.dequeued;
    forall t: Task ensures multiset(s.finished)[t] == multiset(s.accepted)[t] {
      NothingRunning(s.workers, t);
    }
  }

  /** What the callers of Enqueue handed over before anybody asked for shutdown, in order. */
  ghost function Submitted(acts: seq<Action>): seq<Task> {
    if acts == [] then []
    else
      var before, last := acts[..|acts| - 1], acts[|acts| - 1];
      if last.Enqueue? && RequestShutdown !in before then Submitted(before) + [last.t] else Submitted(before)
  }

  /**
   In every run from the start, the accepted tasks are exactly those handed over before the first
   shutdown request, in the order of the calls; from that request on nothing is accepted any more.
   */
  lemma {:induction false} AcceptedBeforeShutdown(n: nat, ss: seq<State>, acts: seq<Action>, i: nat)
    requires IsRun(ss, acts) && ss[0] == Start(n) && i < |ss|
    ensures ss[i].accepted == Submitted(acts[..i])
    ensures ss[i].shutdown <==> RequestShutdown in acts[..i]
  {
    hide Apply, Enabled;
    if i > 0 {
      AcceptedBeforeShutdown(n, ss, acts, i - 1);
      assert acts[..i] == acts[..i - 1] + [acts[i - 1]];
      AcceptStep(ss[i - 1], acts[i - 1]);
    }
  }

  lemma AcceptStep(s: State, a: Action)
    requires Enabled(s, a)
    ensures Apply(s, a).shutdown <==> s.shutdown || a == RequestShutdown
    ensures Apply(s, a).accepted == if a.Enqueue? && !s.shutdown then s.accepted + [a.t] else s.accepted
  {
  }

  /** With ExactlyOnce: once every worker has returned, exactly those tasks have run, each as often as handed over. */
  lemma SubmittedAllRun(n: nat, ss: seq<State>, acts: seq<Action>)
    requires 0 < n && IsRun(ss, acts) && ss[0] == Start(n) && AllExited(ss[|acts|])
    ensures multiset(ss[|acts|].finished) == multiset(Submitted(acts))
  {
    AcceptedBeforeShutdown(n, ss, acts, |acts|);
    ExactlyOnce(n, ss, acts, |acts|);
    assert acts[..|acts|] == acts;
  }

  // Shutdown

  ghost function Weight(p: Phase): nat {
    match p
    case AtLock => 1
    case Waiting => 1
    case Running(_) => 2
    case Exited => 0
  }

  ghost function PhaseRank(ws: seq<Phase>): nat {
    if ws == [] then 0 else Weight(ws[0]) + PhaseRank(ws[1..])
  }

  ghost function Rank(s: State): nat {
    2 * |s.tasks| + PhaseRank(s.workers)
  }

  lemma {:induction false} PhaseRankUpdate(ws: seq<Phase>, w: nat, p: Phase)
    requires w < |ws|
    ensures PhaseRank(ws[w := p]) + Weight(ws[w]) == PhaseRank(ws) + Weight(p)
  {
    if w == 0 {
      assert ws[w := p][1..] == ws[1..];
    } else {
      PhaseRankUpdate(ws[1..], w - 1, p);
      assert ws[w := p][1..] == ws[1..][w - 1 := p];
    }
  }

  predicate WorkerStep(a: Action) {
    a.Locked? || a.Finish?
  }

  /** Once notify_all has run: no worker waits again, worker steps use up the rank, other steps leave it alone. */
  lemma AfterBroadcast(s: State, a: Action)
    requires Inv(s) && s.broadcast == Done && Enabled(s, a)
    ensures Apply(s, a).broadcast == Done && Waiting !in Apply(s, a).workers
    ensures WorkerStep(a) ==> Rank(Apply(s, a)) < Rank(s)
    ensures !WorkerStep(a) ==> Rank(Apply(s, a)) == Rank(s)
  {
    StepKeepsInv(s, a);
    match a
    case Locked(w) => PhaseRankUpdate(s.workers, w, Apply(s, a).workers[w]);
    case Finish(w) => PhaseRankUpdate(s.workers, w, AtLock);
    case _ =>
  }

  ghost function WorkerSteps(acts: seq<Action>): nat {
    if acts == [] then 0
    else WorkerSteps(acts[..|acts| - 1]) + (if WorkerStep(acts[|acts| - 1]) then 1 else 0)
  }

  /** However the threads interleave after notify_all, workers take at most `Rank` more steps. */
  lemma {:induction false} ShutdownBounded(ss: seq<State>, acts: seq<Action>)
    requires IsRun(ss, acts) && Inv(ss[0]) && ss[0].broadcast == Done
    ensures Inv(ss[|acts|]) && ss[|acts|].broadcast == Done
    ensures WorkerSteps(acts) + Rank(ss[|acts|]) <= Rank(ss[0])
    decreases |acts|
  {
    if acts != [] {
      var k := |acts| - 1;
      ShutdownBounded(ss[..k + 1], acts[..k]);
      AfterBroadcast(ss[k], acts[k]);
      StepKeepsInv(ss[k], acts[k]);
    }
  }

  /** A pool that still has a live worker never gets stuck: after notify_all some worker can move. */
  lemma ShutdownNotStuck(s: State)
    requires Inv(s) && s.broadcast == Done && !AllExited(s)
    ensures exists w: nat :: Enabled(s, Locked(w)) || Enabled(s, Finish(w))
  {
    var p :| p in s.workers && p != Exited;
    var w: nat :| w < |s.workers| && s.workers[w] == p;
    assert Enabled(s, Locked(w)) || Enabled(s, Finish(w));
  }

  /** Before shutdown, queued work never waits for nothing: a worker or a notification can move. */
  lemma WorkNotStuck(s: State)
    requires Inv(s) && s.tasks != []
    ensures exists a: Action :: Enabled(s, a) && (WorkerStep(a) || a.NotifyOne? || a.NotifyNobody?)
  {
    var p := s.workers[0];
    assert p in s.workers;
    match p
    case AtLock => assert Enabled(s, Locked(0));
    case Running(_) => assert Enabled(s, Finish(0));
    case Waiting =>
      if s.notifies > 0 {
        assert Enabled(s, NotifyOne(0));
      } else {
        assert multiset(s.workers)[AtLock] > 0;
        assert AtLock in s.workers;
        var w: nat :| w < |s.workers| && s.workers[w] == AtLock;
        assert Enabled(s, Locked(w));
      }
  }

  /**
   Shutdown's join loop, under a scheduler that picks any worker that can move: it always returns,
   with every worker returned, the queue empty and exactly the accepted tasks executed.
   */
  method JoinAll(start: State) returns (s: State)
    requires Inv(start) && start.broadcast == Done
    ensures Inv(s) && AllExited(s) && s.tasks == []
    ensures s.accepted == start.accepted && s.dequeued == start.accepted
    ensures start.finished <= s.finished && multiset(s.finished) == multiset(s.accepted)
  {
    s := start;
    while exists w | 0 <= w < |s.workers| :: s.workers[w] != Exited
      invariant Inv(s) && s.broadcast == Done
      invariant s.accepted == start.accepted && start.finished <= s.finished
      decreases Rank(s)
    {
      var w: nat :| w < |s.workers| && s.workers[w] != Exited;
      assert s.workers[w] in s.workers;
      var a := if s.workers[w] == AtLock then Locked(w) else Finish(w);
      AfterBroadcast(s, a);
      StepKeepsInv(s, a);
      s := Apply(s, a);
    }
    AllRan(s);
  }
}

module ThreadPools {
  import opened TaskPool

  /** Number of workers: as asked for, or twice the processors (four processors when unknown). */
  function NumThreads(requested: nat, hardware: nat): (n: nat)
    ensures 0 < n
    ensures requested > 0 ==> n == requested
    ensures requested == 0 ==> n == 2 * hardware || (hardware == 0 && n == 8)
  {
    if requested != 0 then requested
    else (if hardware == 0 then 4 else hardware) * 2
  }

  /** What a worker does on leaving the locked section. */
  datatype Turn = Wait | Return | Run(task: Task)

  class ThreadPool {
    var tasks: seq<Task>
    var stop: bool
    var shutdownRequested: bool
    ghost var s: State

    ghost predicate Valid()
      reads this
    {
      tasks == s.tasks && shutdownRequested == s.shutdown && !stop && Inv(s)
    }

    constructor (requested: nat, hardware: nat)
      ensures Valid() && s == Start(NumThreads(requested, hardware))
      ensures |s.workers| == NumThreads(requested, hardware) && tasks == [] && !shutdownRequested
    {
      tasks, stop, shutdownRequested := [], false, false;
      s := Start(NumThreads(requested, hardware));
      StartInv(NumThreads(requested, hardware));
    }

    /** The locked part of Enqueue; false stands for the exception. */
    method Enqueue(t: Task) returns (ok: bool)
      requires Valid()
      modifies this
      ensures Valid() && s == Apply(old(s), TaskPool.Action.Enqueue(t))
      ensures ok <==> !old(shutdownRequested)
    {
      StepKeepsInv(s, TaskPool.Action.Enqueue(t));
      s := Apply(s, TaskPool.Action.Enqueue(t));
      if stop || shutdownRequested {
        return false;
      }
      tasks := tasks + [t];
      ok := true;
    }

    /** One evaluation of the locked section of WorkerThread by worker `w`. */
    method TakeTurn(ghost w: nat) returns (turn: Turn)
      requires Valid() && At(s, w, AtLock)
      modifies this
      ensures Valid() && s == Apply(old(s), Locked(w))
      ensures s.workers[w] == match turn
        case Wait => Waiting
        case Return => Exited
        case Run(t) => Running(t)
    {
      StepKeepsInv(s, Locked(w));
      s := Apply(s, Locked(w));
      if !(stop || shutdownRequested || tasks != []) {
        return Wait;
      }
      if (stop || shutdownRequested) && tasks == [] {
        return Return;
      }
      var task := tasks[0];
      tasks := tasks[1..];
      turn := Run(task);
    }

    /** The locked part of Shutdown; false when another call was first. */
    method RequestShutdown() returns (first: bool)
      requires Valid()
      modifies this
      ensures Valid() && s == Apply(old(s), TaskPool.Action.RequestShutdown)
      ensures first <==> !old(shutdownRequested)
      ensures shutdownRequested
    {
      StepKeepsInv(s, TaskPool.Action.RequestShutdown);
      s := Apply(s, TaskPool.Action.RequestShutdown);
      if shutdownRequested {
        return false;
      }
      shutdownRequested := true;
      first := true;
    }
  }
}
