/**
 The double-buffered logger: writers append to the active buffer, anybody may swap the two buffers,
 and the log thread swaps, writes the backup to the file and resets its size. Every one of these is a
 step of its own; they interleave freely.
 */
module LogProtocol {
  import opened Bytes

  /** A formatted log line; it ends in a newline, so it is never empty. */
  type Line = s: seq<byte> | s != [] witness [10]

  /** Where the log thread is in the body of its loop. */
  datatype Phase = Idle | Swapped | Writing | Written | Stopped

  /** Buffers and file hold lines by their number in `accepted`. */
  datatype State = State(
    capacity: nat,
    accepted: seq<Line>,      // every line appended to a buffer, in order
    active: seq<nat>,
    backup: seq<nat>,
    backupWritten: bool,      // the backup's content is already in the file
    file: seq<nat>,
    dropped: set<nat>,
    refused: seq<Line>,       // lines WriteLog gave up on
    retrying: seq<Line>,      // lines whose writer has swapped and not yet looked again
    phase: Phase
  )

  datatype Step =
    | Submit(line: Line)
    | Retry(i: nat)
    | Flush
    | ThreadSwap
    | ThreadCheck
    | ThreadWrite
    | ThreadReset
    | ThreadExit

  predicate InRange(ids: seq<nat>, n: nat) {
    forall k :: 0 <= k < |ids| ==> ids[k] < n
  }

  /** The bytes of the given lines, one after the other. */
  function Text(lines: seq<Line>, ids: seq<nat>): seq<byte>
    requires InRange(ids, |lines|)
  {
    if ids == [] then [] else Text(lines, ids[..|ids| - 1]) + lines[ids[|ids| - 1]]
  }

  ghost predicate Known(s: State) {
    InRange(s.active, |s.accepted|) && InRange(s.backup, |s.accepted|) && InRange(s.file, |s.accepted|)
  }

  predicate Fits(s: State, line: Line)
    requires Known(s)
  {
    |Text(s.accepted, s.active)| + |line| <= s.capacity
  }

  function Appended(s: State, line: Line): State {
    s.(accepted := s.accepted + [line], active := s.active + [|s.accepted|])
  }

  ghost function Elements(ids: seq<nat>): set<nat> {
    set i | i in ids
  }

  /** The part of the backup that only the backup still holds. */
  ghost function Unwritten(s: State): seq<nat> {
    if s.backupWritten then [] else s.backup
  }

  /** SwapBuffers: the old backup becomes the active buffer and loses its content. */
  ghost function Swap(s: State): State {
    s.(active := [], backup := s.active, backupWritten := false,
       dropped := s.dropped + Elements(Unwritten(s)))
  }

  ghost predicate Enabled(s: State, st: Step) {
    match st
    case Submit(line) => true
    case Retry(i) => i < |s.retrying|
    case Flush => true
    case ThreadSwap => s.phase == Idle
    case ThreadCheck => s.phase == Swapped
    case ThreadWrite => s.phase == Writing
    case ThreadReset => s.phase == Written
    case ThreadExit => s.phase == Idle
  }

  ghost function Apply(s: State, st: Step): State
    requires Known(s) && Enabled(s, st)
  {
    match st
    case Submit(line) =>
      if Fits(s, line) then Appended(s, line) else Swap(s).(retrying := s.retrying + [line])
    case Retry(i) =>
      var line, rest := s.retrying[i], s.retrying[..i] + s.retrying[i + 1..];
      if Fits(s, line) then Appended(s, line).(retrying := rest)
      else s.(retrying := rest, refused := s.refused + [line])
    case Flush => Swap(s)
    case ThreadSwap => Swap(s).(phase := Swapped)
    case ThreadCheck => s.(phase := if s.backup != [] then Writing else Idle)
    case ThreadWrite => s.(phase := Written, file := s.file + s.backup, backupWritten := true)
    case ThreadReset =>
      s.(phase := Idle, backup := [], backupWritten := false, dropped := s.dropped + Elements(Unwritten(s)))
    case ThreadExit => s.(phase := Stopped, file := s.file + s.active + s.backup)
  }

  /** What is in the file, then what is still to be written, oldest first. */
  ghost function Kept(s: State): seq<nat> {
    s.file + Unwritten(s) + s.active
  }

  ghost predicate Increasing(ids: seq<nat>) {
    forall i, j :: 0 <= i < j < |ids| ==> ids[i] < ids[j]
  }

  /** Every accepted line is kept or dropped, not both. */
  ghost predicate Accounted(s: State) {
    && (forall i :: i in s.dropped ==> i < |s.accepted| && i !in Kept(s))
    && (forall i: nat :: i < |s.accepted| ==> i in Kept(s) || i in s.dropped)
  }

  ghost predicate Bounded(s: State)
    requires Known(s)
  {
    |Text(s.accepted, s.active)| <= s.capacity && |Text(s.accepted, s.backup)| <= s.capacity
  }

  ghost predicate Inv(s: State) {
    && Known(s)
    && Increasing(Kept(s))
    && Accounted(s)
    && Bounded(s)
    && (s.phase != Written ==> !s.backupWritten)
  }

  function Start(capacity: nat): State {
    State(capacity, [], [], [], false, [], {}, [], [], Idle)
  }

  lemma {:induction false} TextOfMore(lines: seq<Line>, line: Line, ids: seq<nat>)
    requires InRange(ids, |lines|)
    ensures Text(lines + [line], ids) == Text(lines, ids)
  {
    if ids != [] {
      TextOfMore(lines, line, ids[..|ids| - 1]);
    }
  }

  lemma TextSnoc(lines: seq<Line>, ids: seq<nat>, id: nat)
    requires InRange(ids, |lines|) && id < |lines|
    ensures InRange(ids + [id], |lines|)
    ensures Text(lines, ids + [id]) == Text(lines, ids) + lines[id]
  {
    assert (ids + [id])[..|ids|] == ids;
  }

  lemma SameTail(a: seq<byte>, b: seq<byte>, c: seq<byte>)
    ensures (a + b) + c == a + (b + c)
  {
  }

  lemma {:induction false} TextConcat(lines: seq<Line>, a: seq<nat>, b: seq<nat>)
    requires InRange(a, |lines|)
    requires InRange(b, |lines|)
    ensures InRange(a + b, |lines|)
    ensures Text(lines, a + b) == Text(lines, a) + Text(lines, b)
    decreases |b|
  {
    if b == [] {
      assert a + b == a;
    } else {
      hide Text;
      var b', id := b[..|b| - 1], b[|b| - 1];
      assert b == b' + [id] && a + b == (a + b') + [id];
      TextConcat(lines, a, b');
      TextSnoc(lines, b', id);
      TextSnoc(lines, a + b', id);
      SameTail(Text(lines, a), Text(lines, b'), lines[id]);
    }
  }

  lemma AppendText(s: State, line: Line)
    requires Known(s)
    ensures Known(Appended(s, line))
    ensures Text(Appended(s, line).accepted, Appended(s, line).active) == Text(s.accepted, s.active) + line
    ensures Text(Appended(s, line).accepted, s.backup) == Text(s.accepted, s.backup)
    ensures Text(Appended(s, line).accepted, s.file) == Text(s.accepted, s.file)
  {
    var s' := Appended(s, line);
    TextOfMore(s.accepted, line, s.active);
    TextOfMore(s.accepted, line, s.backup);
    TextOfMore(s.accepted, line, s.file);
    assert s'.active[..|s'.active| - 1] == s.active;
  }

  lemma AppendKeepsInv(s: State, line: Line)
    requires Inv(s) && Fits(s, line)
    ensures Inv(Appended(s, line))
  {
    hide Text;
    var s', n := Appended(s, line), |s.accepted|;
    AppendText(s, line);
    assert Kept(s') == Kept(s) + [n];
    assert InRange(Kept(s), n);
    assert forall i :: i in Kept(s') <==> i in Kept(s) || i == n;
  }

  lemma DropMiddle(a: seq<nat>, m: seq<nat>, b: seq<nat>)
    requires Increasing(a + m + b)
    ensures Increasing(a + b)
    ensures forall i :: i in m ==> i !in a + b
    ensures forall i :: i in a + m + b <==> i in a + b || i in m
  {
    var all := a + m + b;
    assert forall i :: 0 <= i < |a| ==> all[i] == a[i];
    assert forall i :: 0 <= i < |m| ==> all[|a| + i] == m[i];
    assert forall i :: 0 <= i < |b| ==> all[|a| + |m| + i] == b[i];
  }

  /** Losing the unwritten part of the backup leaves the rest in order, and loses that part exactly once. */
  lemma LosingKeepsInv(s: State, s': State)
    requires Inv(s) && Known(s') && Bounded(s')
    requires s'.accepted == s.accepted && Kept(s') == s.file + s.active
    requires s'.dropped == s.dropped + Elements(Unwritten(s))
    requires s'.phase != Written ==> !s'.backupWritten
    ensures Inv(s')
  {
    hide Bounded, Text;
    DropMiddle(s.file, Unwritten(s), s.active);
  }

  lemma SwapKeepsInv(s: State)
    requires Inv(s)
    ensures Inv(Swap(s))
  {
    assert Kept(Swap(s)) == s.file + s.active;
    LosingKeepsInv(s, Swap(s));
  }

  lemma ResetKeepsInv(s: State)
    requires Inv(s) && s.phase == Written
    ensures Inv(Apply(s, ThreadReset))
  {
    assert Kept(Apply(s, ThreadReset)) == s.file + s.active;
    LosingKeepsInv(s, Apply(s, ThreadReset));
  }

  /** Fields that no part of the invariant looks at. */
  lemma SameBuffers(s: State, s': State)
    requires Inv(s)
    requires s' == s.(retrying := s'.retrying, refused := s'.refused, phase := s'.phase)
    requires s'.phase != Written ==> !s.backupWritten
    ensures Inv(s')
  {
  }

  lemma WriteKeepsInv(s: State)
    requires Inv(s) && s.phase == Writing
    ensures Inv(Apply(s, ThreadWrite))
  {
    hide Text;
    var s' := Apply(s, ThreadWrite);
    assert Kept(s') == Kept(s);
  }

  lemma AppendStepKeepsInv(s: State, line: Line, s': State)
    requires Inv(s) && Fits(s, line)
    requires s' == Appended(s, line).(retrying := s'.retrying)
    ensures Inv(s')
  {
    AppendKeepsInv(s, line);
    SameBuffers(Appended(s, line), s');
  }

  lemma SwapStepKeepsInv(s: State, s': State)
    requires Inv(s) && s'.phase != Written
    requires s' == Swap(s).(retrying := s'.retrying, phase := s'.phase)
    ensures Inv(s')
  {
    SwapKeepsInv(s);
    SameBuffers(Swap(s), s');
  }

  lemma StepKeepsInv(s: State, st: Step)
    requires Inv(s) && Enabled(s, st) && st != ThreadExit
    ensures Inv(Apply(s, st))
  {
    hide Accounted, Bounded, Increasing, Text, Fits, Appended;
    match st
    case Submit(line) =>
      if Fits(s, line) { AppendStepKeepsInv(s, line, Apply(s, st)); } else { SubmitSwapKeepsInv(s, line); }
    case Retry(i) =>
      if Fits(s, s.retrying[i]) {
        AppendStepKeepsInv(s, s.retrying[i], Apply(s, st));
      } else {
        SameBuffers(s, Apply(s, st));
      }
    case Flush => SwapKeepsInv(s);
    case ThreadSwap => SwapStepKeepsInv(s, Apply(s, st));
    case ThreadCheck => SameBuffers(s, Apply(s, st));
    case ThreadWrite => WriteKeepsInv(s);
    case ThreadReset => ResetKeepsInv(s);
  }

  lemma SubmitSwapKeepsInv(s: State, line: Line)
    requires Inv(s) && !Fits(s, line)
    ensures Inv(Apply(s, Submit(line)))
  {
    SwapKeepsInv(s);
    SameRetry(Swap(s), Apply(s, Submit(line)));
  }

  lemma SameRetry(s: State, s': State)
    requires Inv(s) && s' == s.(retrying := s'.retrying)
    ensures Inv(s')
  {
  }

  /** A run of the logger while the log thread is in its loop. */
  ghost predicate IsRun(ss: seq<State>, steps: seq<Step>) {
    && |ss| == |steps| + 1
    && (exists capacity: nat :: ss[0] == Start(capacity))
    && forall i :: 0 <= i < |steps| ==>
         Known(ss[i]) && Enabled(ss[i], steps[i]) && steps[i] != ThreadExit && ss[i + 1] == Apply(ss[i], steps[i])
  }

  lemma {:induction false} RunInv(ss: seq<State>, steps: seq<Step>, i: nat)
    requires IsRun(ss, steps) && i < |ss|
    ensures Inv(ss[i])
  {
    if i > 0 {
      RunInv(ss, steps, i - 1);
      StepKeepsInv(ss[i - 1], steps[i - 1]);
    }
  }

  /**
   Log order. In every interleaving, the text of the file, then the text the backup still owes the
   file, then the text of the active buffer is made of whole lines: an ordered, duplicate-free
   selection of the accepted lines.
   */
  lemma LogOrder(ss: seq<State>, steps: seq<Step>, i: nat)
    requires IsRun(ss, steps) && i < |ss|
    ensures var s := ss[i];
      && Known(s) && Increasing(Kept(s)) && InRange(Kept(s), |s.accepted|)
      && Text(s.accepted, s.file) + Text(s.accepted, Unwritten(s)) + Text(s.accepted, s.active)
         == Text(s.accepted, Kept(s))
  {
    RunInv(ss, steps, i);
    var s := ss[i];
    TextConcat(s.accepted, s.file, Unwritten(s));
    TextConcat(s.accepted, s.file + Unwritten(s), s.active);
  }

  /** Log accounting. Every accepted line is exactly one of kept and dropped; the buffers never overflow. */
  lemma LogAccounting(ss: seq<State>, steps: seq<Step>, i: nat)
    requires IsRun(ss, steps) && i < |ss|
    ensures var s := ss[i];
      && (forall id: nat :: id < |s.accepted| <==> id in Kept(s) || id in s.dropped)
      && (forall id :: id in s.dropped ==> id !in Kept(s))
      && Known(s)
      && |Text(s.accepted, s.active)| <= s.capacity && |Text(s.accepted, s.backup)| <= s.capacity
  {
    RunInv(ss, steps, i);
  }

  predicate Swaps(s: State, st: Step)
    requires Known(s) && (st.Retry? ==> st.i < |s.retrying|)
  {
    st == Flush || st == ThreadSwap || (st.Submit? && |Text(s.accepted, s.active)| + |st.line| > s.capacity)
  }

  /**
   A step loses lines exactly when it swaps the buffers or resets the backup's size while the backup
   holds something not yet written; and then it loses the whole backup and nothing else.
   */
  lemma LossIff(s: State, st: Step)
    requires Inv(s) && Enabled(s, st) && st != ThreadExit
    ensures var s' := Apply(s, st);
      && s'.dropped == s.dropped + (if Swaps(s, st) || st == ThreadReset then Elements(Unwritten(s)) else {})
      && (s'.dropped != s.dropped <==> (Swaps(s, st) || st == ThreadReset) && Unwritten(s) != [])
  {
    if Unwritten(s) != [] {
      var id := Unwritten(s)[0];
      assert id in Elements(Unwritten(s)) && id in Kept(s) && id !in s.dropped;
    } else {
      assert Elements(Unwritten(s)) == {};
    }
  }

  // What is logged while there is room

  /** The line a step looks for room for. */
  ghost function Offer(s: State, st: Step): seq<Line> {
    match st
    case Submit(line) => [line]
    case Retry(i) => if i < |s.retrying| then [s.retrying[i]] else []
    case _ => []
  }

  ghost function Offered(ss: seq<State>, steps: seq<Step>, k: nat, m: nat): seq<Line>
    requires k <= m <= |steps| < |ss|
    decreases m
  {
    if m == k then [] else Offered(ss, steps, k, m - 1) + Offer(ss[m - 1], steps[m - 1])
  }

  ghost function TotalSize(lines: seq<Line>): nat {
    if lines == [] then 0 else TotalSize(lines[..|lines| - 1]) + |lines[|lines| - 1]|
  }

  /** The numbers of `k` lines accepted one after the other, `n` lines having been accepted before. */
  ghost function Following(n: nat, k: nat): (ids: seq<nat>)
    ensures |ids| == k && forall i :: 0 <= i < k ==> ids[i] == n + i
  {
    seq(k, i requires 0 <= i => n + i)
  }

  /** The backup holds nothing that only it holds. */
  ghost predicate Saved(s: State) {
    s.backup == [] || s.backupWritten
  }

  lemma OneMoreSize(lines: seq<Line>, more: seq<Line>)
    requires |more| <= 1
    ensures TotalSize(lines + more) == TotalSize(lines) + TotalSize(more)
  {
    if more != [] {
      assert (lines + more)[..|lines|] == lines;
      assert more[..0] == [];
    } else {
      assert lines + more == lines;
    }
  }

  lemma RoomStep(s: State, st: Step)
    requires Inv(s) && Enabled(s, st) && st != ThreadExit && st != ThreadSwap && st != Flush
    requires |Text(s.accepted, s.active)| + TotalSize(Offer(s, st)) <= s.capacity
    ensures var s', lines := Apply(s, st), Offer(s, st);
      && Known(s') && s'.capacity == s.capacity
      && s'.accepted == s.accepted + lines
      && s'.active == s.active + Following(|s.accepted|, |lines|)
      && |Text(s'.accepted, s'.active)| == |Text(s.accepted, s.active)| + TotalSize(lines)
      && s'.refused == s.refused
      && (Saved(s) ==> Saved(s') && s'.dropped == s.dropped)
  {
    var lines := Offer(s, st);
    assert s.active + [] == s.active && s.accepted + [] == s.accepted;
    if |lines| == 1 {
      assert lines[..0] == [] && TotalSize(lines) == |lines[0]|;
      assert Fits(s, lines[0]);
      AppendText(s, lines[0]);
      assert Following(|s.accepted|, 1) == [|s.accepted|];
    } else {
      assert Following(|s.accepted|, 0) == [];
      if st == ThreadReset && Saved(s) { assert Unwritten(s) == []; }
    }
  }

  /**
   While nobody flushes and the log thread does not swap, lines that fit the active buffer together are
   all taken, in the order they come, none is refused, and none of them is dropped; nothing at all is
   dropped if the backup held nothing unwritten.
   */
  lemma {:induction false} NothingLostWithRoom(ss: seq<State>, steps: seq<Step>, k: nat, m: nat)
    requires IsRun(ss, steps) && k <= m <= |steps|
    requires forall j :: k <= j < m ==> steps[j] != ThreadSwap && steps[j] != Flush
    requires Known(ss[k])
    requires |Text(ss[k].accepted, ss[k].active)| + TotalSize(Offered(ss, steps, k, m)) <= ss[k].capacity
    ensures RoomKept(ss[k], ss[m], Offered(ss, steps, k, m))
    decreases m
  {
    hide IsRun, RoomKept, Inv, Text, Apply, Enabled, Offer;
    RunLength(ss, steps);
    if k == m {
      RunInv(ss, steps, k);
      RoomKeptNone(ss[k]);
    } else {
      RunStep(ss, steps, m - 1);
      var lines, more := Offered(ss, steps, k, m - 1), Offer(ss[m - 1], steps[m - 1]);
      OneOffer(ss[m - 1], steps[m - 1]);
      OneMoreSize(lines, more);
      NothingLostWithRoom(ss, steps, k, m - 1);
      RunInv(ss, steps, m - 1);
      RoomKeptOn(ss[k], ss[m - 1], steps[m - 1], lines);
    }
  }

  lemma RunLength(ss: seq<State>, steps: seq<Step>)
    requires IsRun(ss, steps)
    ensures |ss| == |steps| + 1
  {
  }

  lemma RoomKeptNone(s: State)
    requires Inv(s)
    ensures RoomKept(s, s, [])
  {
    assert s.active + Following(|s.accepted|, 0) == s.active && s.accepted + [] == s.accepted;
  }

  lemma RunStep(ss: seq<State>, steps: seq<Step>, i: nat)
    requires IsRun(ss, steps) && i < |steps|
    ensures |ss| == |steps| + 1 && steps[i] != ThreadExit
    ensures Known(ss[i]) && Enabled(ss[i], steps[i]) && ss[i + 1] == Apply(ss[i], steps[i])
  {
  }

  ghost predicate RoomKept(s: State, t: State, lines: seq<Line>) {
    && Known(s) && Known(t) && t.capacity == s.capacity
    && t.accepted == s.accepted + lines
    && t.active == s.active + Following(|s.accepted|, |lines|)
    && |Text(t.accepted, t.active)| == |Text(s.accepted, s.active)| + TotalSize(lines)
    && t.refused == s.refused
    && (forall id :: |s.accepted| <= id < |t.accepted| ==> id in t.active && id !in t.dropped)
    && (Saved(s) ==> Saved(t) && t.dropped == s.dropped)
  }

  lemma RoomKeptOn(s: State, t: State, st: Step, lines: seq<Line>)
    requires RoomKept(s, t, lines) && Inv(t) && Enabled(t, st)
    requires st != ThreadExit && st != ThreadSwap && st != Flush
    requires |Text(s.accepted, s.active)| + TotalSize(lines + Offer(t, st)) <= s.capacity
    ensures RoomKept(s, Apply(t, st), lines + Offer(t, st))
  {
    hide Text, Apply, TotalSize, Offer, Following, Inv, Enabled;
    var u, more := Apply(t, st), Offer(t, st);
    OneOffer(t, st);
    OneMoreSize(lines, more);
    RoomStep(t, st);
    StepKeepsInv(t, st);
    var n := |s.accepted|;
    assert u.accepted == s.accepted + (lines + more);
    FollowingOn(n, |lines|, |more|);
    assert u.active == s.active + Following(n, |lines + more|);
    NewestKept(u, s.active, n, |lines + more|);
  }

  lemma OneOffer(s: State, st: Step)
    ensures |Offer(s, st)| <= 1
  {
  }

  lemma FollowingOn(n: nat, a: nat, b: nat)
    ensures Following(n, a) + Following(n + a, b) == Following(n, a + b)
  {
  }

  lemma NewestKept(s: State, before: seq<nat>, n: nat, k: nat)
    requires Inv(s) && s.active == before + Following(n, k) && |s.accepted| == n + k
    ensures forall id :: n <= id < |s.accepted| ==> id in s.active && id !in s.dropped
  {
    hide Text;
    forall id | n <= id < |s.accepted| ensures id in s.active && id !in s.dropped {
      assert s.active[|before| + (id - n)] == id;
      assert id in Kept(s);
    }
  }

  /** With nobody in between, a line is refused at the second look exactly when it does not fit an empty buffer. */
  lemma RefusedIff(s: State, line: Line)
    requires Inv(s) && !Fits(s, line)
    ensures var s1, n := Apply(s, Submit(line)), |s.retrying|;
      && Inv(s1) && n < |s1.retrying| && s1.retrying[n] == line
      && (Fits(s1, line) <==> |line| <= s.capacity)
      && (Apply(s1, Retry(n)).refused == s.refused <==> |line| <= s.capacity)
      && Apply(s1, Retry(n)).retrying == s.retrying
  {
    StepKeepsInv(s, Submit(line));
    var s1, n := Apply(s, Submit(line)), |s.retrying|;
    assert s1.retrying == s.retrying + [line];
    assert s1.retrying[..n] + s1.retrying[n + 1..] == s.retrying;
    assert |s.refused| != |s.refused + [line]|;
  }

  /** Two swaps with no write in between lose everything that was buffered and not yet written. */
  lemma TwoSwapsLoseAll(s: State)
    requires Inv(s)
    ensures Swap(Swap(s)).active == [] && Swap(Swap(s)).backup == []
    ensures Swap(Swap(s)).dropped == s.dropped + Elements(Unwritten(s)) + Elements(s.active)
    ensures Swap(Swap(s)).dropped == s.dropped <==> Unwritten(s) == [] && s.active == []
  {
    assert forall id :: id in Unwritten(s) || id in s.active ==> id in Kept(s);
    if s.active != [] { assert s.active[0] in Elements(s.active); }
    if Unwritten(s) != [] { assert Unwritten(s)[0] in Elements(Unwritten(s)); }
  }

  /**
   So shutting down can lose the last lines: the flush swaps them into the backup, and the woken log
   thread swaps once more before it writes. Here the one line logged never reaches the file.
   */
  lemma ShutdownCanLoseLine(line: Line, capacity: nat)
    requires |line| <= capacity
    ensures var s := Apply(Start(capacity), Submit(line));
      && Known(s) && s.accepted == [line]
      && Apply(Swap(s), ThreadSwap).dropped == {0}
      && Apply(Apply(Apply(Swap(s), ThreadSwap), ThreadCheck), ThreadExit).file == []
  {
    var s := Apply(Start(capacity), Submit(line));
    assert s.active == [0];
    assert Elements([0]) == {0};
  }

  /**
   The last write, after the loop, writes everything still kept, but the active buffer before the backup.
   The file stays in order exactly when one of the two is empty.
   */
  lemma FinalWriteOrderedIff(s: State)
    requires Inv(s) && s.phase == Idle
    ensures multiset(Apply(s, ThreadExit).file) == multiset(Kept(s))
    ensures Increasing(Apply(s, ThreadExit).file) <==> s.active == [] || s.backup == []
  {
    var f := Apply(s, ThreadExit).file;
    assert Kept(s) == s.file + s.backup + s.active;
    if s.active == [] {
      assert f == Kept(s);
    } else if s.backup == [] {
      assert f == Kept(s);
    } else {
      var n, m := |s.file|, |s.active|;
      assert f[n] == s.active[0] && f[n + m] == s.backup[0];
      assert Kept(s)[n] == s.backup[0] && Kept(s)[n + |s.backup|] == s.active[0];
    }
  }
}

module Loggers {
  import opened Bytes
  import opened LogProtocol

  class LogBuffer {
    var buffer: array<byte>
    var size: nat

    constructor (capacity: nat)
      ensures fresh(buffer) && buffer.Length == capacity && size == 0
    {
      buffer := new byte[capacity](_ => 0);
      size := 0;
    }
  }

  class Logger {
    var activeBuffer: LogBuffer
    var backupBuffer: LogBuffer
    var logFile: seq<byte>
    ghost var s: State

    ghost predicate Holds(b: LogBuffer, ids: seq<nat>)
      reads this, b, b.buffer
    {
      && b.buffer.Length == s.capacity && b.size <= b.buffer.Length
      && InRange(ids, |s.accepted|)
      && b.buffer[..b.size] == Text(s.accepted, ids)
    }

    /** The bytes in the two buffers and in the file are the text of the protocol's lines. */
    ghost predicate Valid()
      reads this, activeBuffer, backupBuffer, activeBuffer.buffer, backupBuffer.buffer
    {
      && activeBuffer != backupBuffer && activeBuffer.buffer != backupBuffer.buffer
      && Known(s) && Inv(s)
      && Holds(activeBuffer, s.active)
      && Holds(backupBuffer, s.backup)
      && logFile == Text(s.accepted, s.file)
    }

    constructor (capacity: nat)
      ensures Valid() && s == Start(capacity) && logFile == []
      ensures activeBuffer.buffer.Length == backupBuffer.buffer.Length == capacity
      ensures activeBuffer.size == backupBuffer.size == 0
      ensures fresh(activeBuffer) && fresh(backupBuffer)
      ensures fresh(activeBuffer.buffer) && fresh(backupBuffer.buffer)
    {
      activeBuffer := new LogBuffer(capacity);
      backupBuffer := new LogBuffer(capacity);
      logFile := [];
      s := Start(capacity);
    }

    /** The exchange of the two pointers, with the phase the caller's step leads to. */
    method SwapBuffers(ghost st: Step)
      requires Valid() && Enabled(s, st) && Swaps(s, st)
      modifies this, activeBuffer, backupBuffer
      ensures Valid() && s == Apply(old(s), st)
      ensures activeBuffer == old(backupBuffer) && backupBuffer == old(activeBuffer)
      ensures activeBuffer.size == 0 && logFile == old(logFile)
      ensures activeBuffer.buffer == old(backupBuffer.buffer) && backupBuffer.buffer == old(activeBuffer.buffer)
    {
      hide Inv;
      StepKeepsInv(s, st);
      var temp := backupBuffer;
      backupBuffer := activeBuffer;
      activeBuffer := temp;
      activeBuffer.size := 0;
      s := Apply(s, st);
    }

    method CopyIn(line: Line)
      requires Valid() && Fits(s, line)
      modifies this`s, activeBuffer, activeBuffer.buffer
      ensures Valid() && s == Appended(old(s), line)
      ensures activeBuffer.buffer[..activeBuffer.size] == old(activeBuffer.buffer[..activeBuffer.size]) + line
      ensures activeBuffer.buffer == old(activeBuffer.buffer)
    {
      hide Text, Inv;
      AppendText(s, line);
      AppendKeepsInv(s, line);
      ghost var before := activeBuffer.buffer[..activeBuffer.size];
      forall i | 0 <= i < |line| {
        activeBuffer.buffer[activeBuffer.size + i] := line[i];
      }
      assert activeBuffer.buffer[..activeBuffer.size + |line|] == before + line;
      activeBuffer.size := activeBuffer.size + |line|;
      s := Appended(s, line);
    }

    /** WriteLog's first look, whatever has happened before: the line is copied in, or the buffers are swapped. */
    method FirstLook(line: Line) returns (taken: bool)
      requires Valid()
      modifies this, activeBuffer, backupBuffer, activeBuffer.buffer
      ensures Valid() && s == Apply(old(s), Submit(line)) && logFile == old(logFile)
      ensures taken <==> old(activeBuffer.size) + |line| <= old(activeBuffer.buffer.Length)
      ensures taken <==> Fits(old(s), line)
      ensures {activeBuffer, backupBuffer} == old({activeBuffer, backupBuffer})
      ensures {activeBuffer.buffer, backupBuffer.buffer} == old({activeBuffer.buffer, backupBuffer.buffer})
    {
      hide Text, Inv;
      if activeBuffer.size + |line| > activeBuffer.buffer.Length {
        SwapBuffers(Submit(line));
        return false;
      }
      CopyIn(line);
      taken := true;
    }

    /** Its second look, whatever other threads have done in between: the line is copied in or given up. */
    method SecondLook(line: Line, ghost i: nat) returns (taken: bool)
      requires Valid() && i < |s.retrying| && s.retrying[i] == line
      modifies this`s, activeBuffer, activeBuffer.buffer
      ensures Valid() && s == Apply(old(s), Retry(i))
      ensures taken <==> old(activeBuffer.size) + |line| <= old(activeBuffer.buffer.Length)
      ensures taken <==> Fits(old(s), line)
    {
      hide Text, Inv;
      StepKeepsInv(s, Retry(i));
      ghost var after := Apply(s, Retry(i));
      taken := activeBuffer.size + |line| <= activeBuffer.buffer.Length;
      if taken {
        CopyIn(line);
      }
      s := after;
    }

    /**
     The buffer part of WriteLog with no other thread between the two looks: the line is taken exactly
     when it fits an empty buffer, and then it is the last thing the active buffer holds.
     */
    method WriteLog(line: Line) returns (ok: bool)
      requires Valid()
      modifies this, activeBuffer, backupBuffer, activeBuffer.buffer, backupBuffer.buffer
      ensures Valid() && s.retrying == old(s.retrying) && logFile == old(logFile)
      ensures ok <==> |line| <= s.capacity
      ensures old(activeBuffer.size) + |line| <= old(activeBuffer.buffer.Length) ==> s == Appended(old(s), line)
      ensures ok ==> s.accepted == old(s.accepted) + [line]
      ensures ok ==> s.active != [] && s.active[|s.active| - 1] == |old(s.accepted)|
      ensures !ok ==> s.accepted == old(s.accepted) && s.refused == old(s.refused) + [line]
      ensures s == if Fits(old(s), line) then Apply(old(s), Submit(line))
                   else Apply(Apply(old(s), Submit(line)), Retry(|old(s).retrying|))
    {
      hide Inv;
      ghost var i := |s.retrying|;
      if !Fits(s, line) {
        RefusedIff(s, line);
      }
      hide Text, Fits, Swap;
      ok := FirstLook(line);
      if !ok {
        ok := SecondLook(line, i);
      }
    }

    /** WriteToFile: the buffer's first `size` bytes go to the end of the file. */
    method WriteToFile(buffer: array<byte>, size: nat)
      requires size <= buffer.Length
      modifies this`logFile
      ensures logFile == old(logFile) + buffer[..size]
    {
      if size == 0 {
        return;
      }
      logFile := logFile + buffer[..size];
    }

    /** The log thread looks whether there is anything to write. */
    method CheckBackup() returns (write: bool)
      requires Valid() && s.phase == Swapped
      modifies this`s
      ensures Valid() && s == Apply(old(s), ThreadCheck) && (write <==> s.phase == Writing)
      ensures write <==> s.backup != []
    {
      hide Text, Inv;
      StepKeepsInv(s, ThreadCheck);
      SizeOfText(s.accepted, s.backup);
      write := backupBuffer.size > 0;
      s := Apply(s, ThreadCheck);
    }

    method WriteBackup()
      requires Valid() && s.phase == Writing
      modifies this`logFile, this`s
      ensures Valid() && s == Apply(old(s), ThreadWrite)
    {
      hide Text, Inv;
      StepKeepsInv(s, ThreadWrite);
      TextConcat(s.accepted, s.file, s.backup);
      WriteToFile(backupBuffer.buffer, backupBuffer.size);
      s := Apply(s, ThreadWrite);
    }

    method ResetBackup()
      requires Valid() && s.phase == Written
      modifies this`s, backupBuffer
      ensures Valid() && s == Apply(old(s), ThreadReset)
    {
      hide Inv;
      StepKeepsInv(s, ThreadReset);
      backupBuffer.size := 0;
      s := Apply(s, ThreadReset);
    }

    /**
     One turn of the log thread's loop with no other thread in between: the active buffer's text moves
     to the file, and what an earlier swap had left in the backup is lost.
     */
    method LogThreadTurn()
      requires Valid() && s.phase == Idle
      modifies this, activeBuffer, backupBuffer
      ensures Valid() && s.phase == Idle && s.active == [] && s.backup == []
      ensures s.file == old(s.file) + old(s.active) && s.accepted == old(s.accepted)
      ensures s.dropped == old(s.dropped) + Elements(old(s.backup))
    {
      hide Text, Inv;
      NothingWrittenWhileIdle(s);
      SwapBuffers(ThreadSwap);
      var write := CheckBackup();
      if write {
        WriteBackup();
        ResetBackup();
      }
    }

    /** What the log thread writes after its loop. */
    method FinalWrite()
      requires Valid() && s.phase == Idle
      modifies this`logFile, this`s
      ensures s == Apply(old(s), ThreadExit) && Known(s)
      ensures multiset(s.file) == multiset(Kept(old(s)))
      ensures logFile == Text(s.accepted, s.file)
    {
      hide Text, Inv;
      FinalWriteOrderedIff(s);
      SizeOfText(s.accepted, s.active);
      SizeOfText(s.accepted, s.backup);
      TextConcat(s.accepted, s.file, s.active);
      TextConcat(s.accepted, s.file + s.active, s.backup);
      if activeBuffer.size > 0 {
        WriteToFile(activeBuffer.buffer, activeBuffer.size);
      }
      if backupBuffer.size > 0 {
        WriteToFile(backupBuffer.buffer, backupBuffer.size);
      }
      s := Apply(s, ThreadExit);
    }
  }

  lemma NothingWrittenWhileIdle(s: State)
    requires Inv(s) && s.phase == Idle
    ensures Unwritten(s) == s.backup && Elements([]) == {}
  {
  }

  /** Lines are not empty, so a buffer's size is 0 exactly when it holds no line. */
  lemma SizeOfText(lines: seq<Line>, ids: seq<nat>)
    requires InRange(ids, |lines|)
    ensures |Text(lines, ids)| == 0 <==> ids == []
  {
    if ids != [] {
      var last := lines[ids[|ids| - 1]];
      assert last != [];
      assert Text(lines, ids) == Text(lines, ids[..|ids| - 1]) + last;
    }
  }
}
