/** The Airtrack linear actuator (airtrack/src/actuator/base.py): its physical
    state, its peek timing windows behind latching setters, and the BNC writes
    it issues to push, rest and pull. */
module Actuator {
  import opened Errors
  import opened Bpod

  datatype PhysicalState = AtRest | Pushing | Pulling

  // ---------------------------------------------------------------------------
  // Latching setters
  // ---------------------------------------------------------------------------

  /** A timing value behind a property setter; `Unset` is Python's `None`. */
  datatype Latch = Unset | Set(value: real)

  /** The setter of a start time or a timeout: `None` clears, any other value
      is stored only while nothing is stored. */
  function WriteOnce(l: Latch, w: Option<real>): (r: Latch)
    ensures w.None? ==> r == Unset
    ensures w.Some? ==> r.Set?
  {
    match w
    case None => Unset
    case Some(v) => if l.Unset? then Set(v) else l
  }

  /** The setter of an elapsed time: `None` clears, the first value is stored,
      and later a value is stored only if it is not zero. */
  function WriteSticky(l: Latch, w: Option<real>): (r: Latch)
    ensures w.None? ==> r == Unset
    ensures w.Some? ==> r.Set?
  {
    match w
    case None => Unset
    case Some(v) => if l.Unset? || v != 0.0 then Set(v) else l
  }

  /** The latch after the setter calls `ws`, in order, none of them `None`. */
  function ApplyWriteOnce(l: Latch, ws: seq<real>): Latch
  {
    if ws == [] then l else WriteOnce(ApplyWriteOnce(l, ws[..|ws| - 1]), Some(ws[|ws| - 1]))
  }

  function ApplyWriteSticky(l: Latch, ws: seq<real>): Latch
  {
    if ws == [] then l else WriteSticky(ApplyWriteSticky(l, ws[..|ws| - 1]), Some(ws[|ws| - 1]))
  }

  /** The last non-zero value of `ws`, if any. */
  function LastNonZero(ws: seq<real>): (r: Option<real>)
    ensures r.Some? ==> r.value != 0.0 && r.value in ws
    ensures r.Some? ==> exists i :: 0 <= i < |ws| && ws[i] == r.value && forall j :: i < j < |ws| ==> ws[j] == 0.0
    ensures r.None? ==> forall i | 0 <= i < |ws| :: ws[i] == 0.0
  {
    if ws == [] then None
    else if ws[|ws| - 1] != 0.0 then Some(ws[|ws| - 1])
    else LastNonZero(ws[..|ws| - 1])
  }

  /** Write-once: whatever is written afterwards, a stored value stays, and an
      empty latch keeps the first value written to it. */
  lemma {:induction false} WriteOnceKeepsFirst(l: Latch, ws: seq<real>)
    ensures ApplyWriteOnce(l, ws) == if l.Set? || ws == [] then l else Set(ws[0])
  {
    if ws != [] {
      WriteOnceKeepsFirst(l, ws[..|ws| - 1]);
    }
  }

  /** Sticky elapsed time: the latch holds the last non-zero value written;
      writes of zero never erase a stored value. */
  lemma {:induction false} WriteStickyKeepsLastNonZero(l: Latch, ws: seq<real>)
    ensures ApplyWriteSticky(l, ws) ==
      match LastNonZero(ws)
      case Some(v) => Set(v)
      case None => if l.Set? || ws == [] then l else Set(0.0)
  {
    if ws != [] {
      WriteStickyKeepsLastNonZero(l, ws[..|ws| - 1]);
    }
  }

  // ---------------------------------------------------------------------------
  // Peek timing windows
  // ---------------------------------------------------------------------------

  datatype Timing = Timing(
    pushStart: Latch, pushElapsed: Latch, pushTimeout: Latch,
    atRestStart: Latch, atRestElapsed: Latch, atRestTimeout: Latch)

  const ClearedTiming: Timing := Timing(Unset, Unset, Unset, Unset, Unset, Unset)

  /** Everything the actuator object holds besides its board. */
  datatype Snapshot = Snapshot(state: PhysicalState, peekEnabled: bool, timing: Timing)

  /** The two timeouts and the two elapsed times are all stored. */
  predicate Latched(t: Timing)
  {
    t.pushTimeout.Set? && t.pushElapsed.Set? && t.atRestTimeout.Set? && t.atRestElapsed.Set?
  }

  /** A window is timed out iff its elapsed time has reached its timeout. */
  predicate TimedOut(elapsed: Latch, timeout: Latch)
    requires elapsed.Set? && timeout.Set?
  {
    elapsed.value >= timeout.value
  }

  /** The first four setter calls of `peek`: latch the timeouts and give the
      elapsed times a zero baseline. */
  function Prelude(t: Timing, pushTimeout: real, atRestTimeout: real): (r: Timing)
    ensures Latched(r)
    ensures r.pushStart == t.pushStart && r.atRestStart == t.atRestStart
    ensures t.pushTimeout.Unset? ==> r.pushTimeout == Set(pushTimeout)
    ensures t.atRestTimeout.Unset? ==> r.atRestTimeout == Set(atRestTimeout)
    ensures t.pushElapsed.Unset? ==> r.pushElapsed == Set(0.0)
    ensures t.atRestElapsed.Unset? ==> r.atRestElapsed == Set(0.0)
    ensures t.pushTimeout.Set? ==> r.pushTimeout == t.pushTimeout
    ensures t.atRestTimeout.Set? ==> r.atRestTimeout == t.atRestTimeout
    ensures t.pushElapsed.Set? ==> r.pushElapsed == t.pushElapsed
    ensures t.atRestElapsed.Set? ==> r.atRestElapsed == t.atRestElapsed
  {
    t.(pushTimeout := WriteOnce(t.pushTimeout, Some(pushTimeout)),
       pushElapsed := WriteSticky(t.pushElapsed, Some(0.0)),
       atRestTimeout := WriteOnce(t.atRestTimeout, Some(atRestTimeout)),
       atRestElapsed := WriteSticky(t.atRestElapsed, Some(0.0)))
  }

  /** The one branch a `peek` call takes. */
  datatype Branch = PullBranch | RestBranch | PushBranch | NoBranch

  /** Branch priority: at-rest timed out, else push timed out, else enabled. */
  function Decide(t: Timing, enabled: bool): (b: Branch)
    requires Latched(t)
    ensures b == PullBranch <==> TimedOut(t.atRestElapsed, t.atRestTimeout)
    ensures b == RestBranch <==> !TimedOut(t.atRestElapsed, t.atRestTimeout) && TimedOut(t.pushElapsed, t.pushTimeout)
    ensures b == PushBranch <==> !TimedOut(t.atRestElapsed, t.atRestTimeout) && !TimedOut(t.pushElapsed, t.pushTimeout) && enabled
  {
    if TimedOut(t.atRestElapsed, t.atRestTimeout) then PullBranch
    else if TimedOut(t.pushElapsed, t.pushTimeout) then RestBranch
    else if enabled then PushBranch
    else NoBranch
  }

  function PeekBranch(s: Snapshot, pushTimeout: real, atRestTimeout: real): Branch
  {
    Decide(Prelude(s.timing, pushTimeout, atRestTimeout), s.peekEnabled)
  }

  // ---------------------------------------------------------------------------
  // BNC output patterns
  // ---------------------------------------------------------------------------

  /** The two writes `_trigger_rest`, `_trigger_push` and `_trigger_pull` issue. */
  function Pattern(s: PhysicalState): (p: seq<BncWrite>)
    ensures |p| == 2 && p[0].channel == 1 && p[1].channel == 2
    ensures !(p[0].value == HIGH && p[1].value == HIGH)
  {
    match s
    case AtRest => [BncWrite(1, LOW), BncWrite(2, LOW)]
    case Pushing => [BncWrite(1, HIGH), BncWrite(2, LOW)]
    case Pulling => [BncWrite(1, LOW), BncWrite(2, HIGH)]
  }

  /** The writes `_trigger(target)` issues from `current`. */
  function TriggerWrites(current: PhysicalState, target: PhysicalState): seq<BncWrite>
  {
    if current == target then [] else Pattern(target)
  }

  function RestWrites(s: PhysicalState): seq<BncWrite>
  {
    TriggerWrites(s, AtRest)
  }

  /** `push` rests first, then it is never already PUSHING. */
  function PushWrites(s: PhysicalState): seq<BncWrite>
  {
    RestWrites(s) + Pattern(Pushing)
  }

  function PullWrites(s: PhysicalState): seq<BncWrite>
  {
    RestWrites(s) + Pattern(Pulling)
  }

  /** A trigger the actuator may issue: a change of state that never goes from
      one direction of motion straight to the other. */
  predicate LegalTrigger(current: PhysicalState, target: PhysicalState)
  {
    current != target && (target == AtRest || current == AtRest)
  }

  lemma PushAndPullPassThroughRest(s: PhysicalState)
    ensures s != AtRest ==> PushWrites(s)[..2] == Pattern(AtRest) && PullWrites(s)[..2] == Pattern(AtRest)
    ensures s == AtRest ==> PushWrites(s) == Pattern(Pushing) && PullWrites(s) == Pattern(Pulling)
  {
  }

  // ---------------------------------------------------------------------------
  // Coherence of the recorded state with the board's outputs
  // ---------------------------------------------------------------------------

  predicate EndsWith(log: seq<BncWrite>, p: seq<BncWrite>)
  {
    |p| <= |log| && log[|log| - |p|..] == p
  }

  /** The last four writes are a push pattern followed directly by a pull
      pattern, or the reverse. */
  predicate Reversal(log: seq<BncWrite>)
  {
    |log| >= 4 &&
    (log[|log| - 4..] == Pattern(Pushing) + Pattern(Pulling) ||
     log[|log| - 4..] == Pattern(Pulling) + Pattern(Pushing))
  }

  /** No prefix of the log ends in a reversal. */
  predicate NoReversal(log: seq<BncWrite>)
    decreases |log|
  {
    log == [] || (!Reversal(log) && NoReversal(log[..|log| - 1]))
  }

  lemma NoReversalAfterWrite(log: seq<BncWrite>, w: BncWrite)
    ensures NoReversal(log + [w]) <==> !Reversal(log + [w]) && NoReversal(log)
  {
    assert (log + [w])[..|log|] == log;
  }

  /** What the actuator's recorded state guarantees about the board: the line
      of the opposite direction is not HIGH, and a complete push or pull
      pattern at the end of the log means the actuator is in that state. */
  predicate Coherent(s: PhysicalState, log: seq<BncWrite>)
  {
    && (if s == Pulling then Level(log, 1) != HIGH else Level(log, 2) != HIGH)
    && (EndsWith(log, Pattern(Pushing)) ==> s == Pushing)
    && (EndsWith(log, Pattern(Pulling)) ==> s == Pulling)
    && NoReversal(log)
  }

  lemma CoherentIsSafe(s: PhysicalState, log: seq<BncWrite>)
    requires Coherent(s, log)
    ensures !BothHigh(log)
  {
  }

  /** The first write of a legal trigger is safe and keeps the old state coherent. */
  lemma FirstWriteSafe(s: PhysicalState, target: PhysicalState, log: seq<BncWrite>)
    requires Coherent(s, log) && LegalTrigger(s, target)
    ensures !BothHigh(log + [Pattern(target)[0]])
    ensures Coherent(s, log + [Pattern(target)[0]])
  {
    var w := Pattern(target)[0];
    var log' := log + [w];
    LevelAfterWrite(log, w, 1);
    LevelAfterWrite(log, w, 2);
    NoReversalAfterWrite(log, w);
    assert log'[|log'| - 1] == w;
  }

  /** A complete pattern closes a reversal only if the log ended in the
      pattern of the opposite motion. */
  lemma ReversalAfterPattern(log: seq<BncWrite>, target: PhysicalState)
    ensures Reversal(log + Pattern(target)) <==>
      (target == Pushing && EndsWith(log, Pattern(Pulling))) ||
      (target == Pulling && EndsWith(log, Pattern(Pushing)))
  {
    var log2 := log + Pattern(target);
    if |log| >= 2 {
      var tail := log[|log| - 2..];
      assert log2[|log2| - 4..] == tail + Pattern(target);
      SplitConcat(tail, Pattern(target), Pattern(Pushing), Pattern(Pulling));
      SplitConcat(tail, Pattern(target), Pattern(Pulling), Pattern(Pushing));
    }
  }

  lemma SplitConcat<T>(a: seq<T>, b: seq<T>, c: seq<T>, d: seq<T>)
    requires |a| == |c|
    ensures a + b == c + d <==> a == c && b == d
  {
    if a + b == c + d {
      assert a == (a + b)[..|a|] && c == (c + d)[..|c|];
      assert b == (a + b)[|a|..] && d == (c + d)[|c|..];
    }
  }

  /** Both writes of a legal trigger are safe and leave the target coherent. */
  lemma SecondWriteSafe(s: PhysicalState, target: PhysicalState, log: seq<BncWrite>)
    requires Coherent(s, log) && LegalTrigger(s, target)
    ensures !BothHigh(log + Pattern(target))
    ensures Coherent(target, log + Pattern(target))
  {
    var p := Pattern(target);
    var log1 := log + [p[0]];
    var log2 := log + p;
    assert log2 == log1 + [p[1]];
    FirstWriteSafe(s, target, log);
    LevelAfterWrite(log1, p[1], 1);
    LevelAfterWrite(log1, p[1], 2);
    LevelAfterWrite(log, p[0], 1);
    NoReversalAfterWrite(log1, p[1]);
    ReversalAfterPattern(log, target);
    assert log2[|log2| - 2..] == p;
    if EndsWith(log2, Pattern(Pushing)) {
      assert p == Pattern(Pushing);
    }
    if EndsWith(log2, Pattern(Pulling)) {
      assert p == Pattern(Pulling);
    }
  }

  // ---------------------------------------------------------------------------
  // Specification of `peek`
  // ---------------------------------------------------------------------------

  /** Branch (b) before its rest: the at-rest window's start time is latched. */
  function StartAtRest(s: Snapshot, before: real): (m: Snapshot)
    ensures m.timing.atRestStart.Set?
  {
    s.(timing := s.timing.(atRestStart := WriteOnce(s.timing.atRestStart, Some(before))))
  }

  /** Branch (b) after its rest: the at-rest elapsed time is the time since
      the latched start. */
  function FinishAtRest(m: Snapshot, after: real): Snapshot
    requires m.timing.atRestStart.Set?
  {
    Snapshot(AtRest, m.peekEnabled,
      m.timing.(atRestElapsed := WriteSticky(m.timing.atRestElapsed, Some(after - m.timing.atRestStart.value))))
  }

  /** Branch (c) before its push: the push window's start time is latched. */
  function StartPush(s: Snapshot, before: real): (m: Snapshot)
    ensures m.timing.pushStart.Set?
  {
    s.(timing := s.timing.(pushStart := WriteOnce(s.timing.pushStart, Some(before))))
  }

  function FinishPush(m: Snapshot, after: real): Snapshot
    requires m.timing.pushStart.Set?
  {
    Snapshot(Pushing, m.peekEnabled,
      m.timing.(pushElapsed := WriteSticky(m.timing.pushElapsed, Some(after - m.timing.pushStart.value))))
  }

  /** The object once `peek` has latched its windows. */
  function PeekLatched(s: Snapshot, pushTimeout: real, atRestTimeout: real): Snapshot
  {
    s.(timing := Prelude(s.timing, pushTimeout, atRestTimeout))
  }

  /** The object once the chosen branch has done its setter calls and before
      its first BNC write; a failing write leaves it so, with the state the
      writes that got through produced. */
  function PeekStarted(s: Snapshot, pushTimeout: real, atRestTimeout: real, before: real): Snapshot
  {
    var p := PeekLatched(s, pushTimeout, atRestTimeout);
    match PeekBranch(s, pushTimeout, atRestTimeout)
    case PullBranch => Snapshot(s.state, true, ClearedTiming)
    case RestBranch => StartAtRest(p, before)
    case PushBranch => StartPush(p, before)
    case NoBranch => p
  }

  /** The object after a `peek` call whose writes all succeed; `before` and
      `after` are the two `time.time()` samples around the branch's action. */
  function PeekSpec(s: Snapshot, pushTimeout: real, atRestTimeout: real, before: real, after: real): Snapshot
  {
    var p := PeekLatched(s, pushTimeout, atRestTimeout);
    match PeekBranch(s, pushTimeout, atRestTimeout)
    case PullBranch => Snapshot(Pulling, false, ClearedTiming)
    case RestBranch => FinishAtRest(StartAtRest(p, before), after)
    case PushBranch => FinishPush(StartPush(p, before), after)
    case NoBranch => p
  }

  /** The BNC writes of a `peek` call whose writes all succeed. */
  function PeekWrites(s: Snapshot, pushTimeout: real, atRestTimeout: real): seq<BncWrite>
  {
    match PeekBranch(s, pushTimeout, atRestTimeout)
    case PullBranch => PullWrites(s.state)
    case RestBranch => RestWrites(s.state)
    case PushBranch => PushWrites(s.state)
    case NoBranch => []
  }

  // ---------------------------------------------------------------------------
  // The peek cycle: pushes, then rests, then one pull, then nothing
  // ---------------------------------------------------------------------------

  predicate PositiveOrUnset(l: Latch)
  {
    l.Set? ==> l.value > 0.0
  }

  predicate ZeroOrUnset(l: Latch)
  {
    l == Unset || l == Set(0.0)
  }

  /** Before the push window times out: pushing is enabled and the at-rest
      window has not started. */
  predicate PushPhase(s: Snapshot)
  {
    s.peekEnabled && ZeroOrUnset(s.timing.atRestElapsed) && PositiveOrUnset(s.timing.atRestTimeout)
  }

  /** The push window has timed out. */
  predicate RestPhase(s: Snapshot)
  {
    s.timing.pushElapsed.Set? && s.timing.pushTimeout.Set? &&
    TimedOut(s.timing.pushElapsed, s.timing.pushTimeout)
  }

  /** After the pull branch: pushing disabled and no window measured. */
  predicate Parked(s: Snapshot)
  {
    && !s.peekEnabled
    && ZeroOrUnset(s.timing.pushElapsed) && ZeroOrUnset(s.timing.atRestElapsed)
    && PositiveOrUnset(s.timing.pushTimeout) && PositiveOrUnset(s.timing.atRestTimeout)
  }

  /** The branches taken by successive `peek` calls whose writes succeed, with
      fixed timeouts and the clock samples of each call. */
  function PeekBranches(s: Snapshot, pushTimeout: real, atRestTimeout: real, clock: seq<(real, real)>): seq<Branch>
    decreases |clock|
  {
    if clock == [] then []
    else [PeekBranch(s, pushTimeout, atRestTimeout)] +
         PeekBranches(PeekSpec(s, pushTimeout, atRestTimeout, clock[0].0, clock[0].1), pushTimeout, atRestTimeout, clock[1..])
  }

  predicate AllIdle(bs: seq<Branch>)
  {
    forall i | 0 <= i < |bs| :: bs[i] == NoBranch
  }

  /** Rest* (Pull NoBranch*)? */
  predicate FromRest(bs: seq<Branch>)
    decreases |bs|
  {
    bs == [] ||
    (bs[0] == RestBranch && FromRest(bs[1..])) ||
    (bs[0] == PullBranch && AllIdle(bs[1..]))
  }

  /** Push* (Rest FromRest)? */
  predicate FromPush(bs: seq<Branch>)
    decreases |bs|
  {
    bs == [] ||
    (bs[0] == PushBranch && FromPush(bs[1..])) ||
    (bs[0] == RestBranch && FromRest(bs[1..]))
  }

  /** Once parked, `peek` with positive timeouts takes no branch, issues no
      write and stays parked. */
  lemma ParkedPeekIsIdle(s: Snapshot, pushTimeout: real, atRestTimeout: real, before: real, after: real)
    requires Parked(s) && pushTimeout > 0.0 && atRestTimeout > 0.0
    ensures PeekBranch(s, pushTimeout, atRestTimeout) == NoBranch
    ensures PeekWrites(s, pushTimeout, atRestTimeout) == []
    ensures PeekSpec(s, pushTimeout, atRestTimeout, before, after).state == s.state
    ensures Parked(PeekSpec(s, pushTimeout, atRestTimeout, before, after))
  {
  }

  lemma {:induction false} ParkedStaysIdle(s: Snapshot, pushTimeout: real, atRestTimeout: real, clock: seq<(real, real)>)
    requires Parked(s) && pushTimeout > 0.0 && atRestTimeout > 0.0
    ensures AllIdle(PeekBranches(s, pushTimeout, atRestTimeout, clock))
    decreases |clock|
  {
    if clock != [] {
      ParkedPeekIsIdle(s, pushTimeout, atRestTimeout, clock[0].0, clock[0].1);
      ParkedStaysIdle(PeekSpec(s, pushTimeout, atRestTimeout, clock[0].0, clock[0].1), pushTimeout, atRestTimeout, clock[1..]);
    }
  }

  lemma {:induction false} RestPhaseRun(s: Snapshot, pushTimeout: real, atRestTimeout: real, clock: seq<(real, real)>)
    requires RestPhase(s) && pushTimeout > 0.0 && atRestTimeout > 0.0
    ensures FromRest(PeekBranches(s, pushTimeout, atRestTimeout, clock))
    decreases |clock|
  {
    if clock != [] {
      var s' := PeekSpec(s, pushTimeout, atRestTimeout, clock[0].0, clock[0].1);
      if PeekBranch(s, pushTimeout, atRestTimeout) == PullBranch {
        ParkedStaysIdle(s', pushTimeout, atRestTimeout, clock[1..]);
      } else {
        RestPhaseRun(s', pushTimeout, atRestTimeout, clock[1..]);
      }
    }
  }

  lemma {:induction false} PushPhaseRun(s: Snapshot, pushTimeout: real, atRestTimeout: real, clock: seq<(real, real)>)
    requires PushPhase(s) && pushTimeout > 0.0 && atRestTimeout > 0.0
    ensures FromPush(PeekBranches(s, pushTimeout, atRestTimeout, clock))
    decreases |clock|
  {
    if clock != [] {
      var s' := PeekSpec(s, pushTimeout, atRestTimeout, clock[0].0, clock[0].1);
      if PeekBranch(s, pushTimeout, atRestTimeout) == PushBranch {
        PushPhaseRun(s', pushTimeout, atRestTimeout, clock[1..]);
      } else {
        RestPhaseRun(s', pushTimeout, atRestTimeout, clock[1..]);
      }
    }
  }

  /** From a new, pulled or reset actuator, successive peeks with positive
      timeouts push some times, then rest, then pull once, then do nothing:
      the branch sequence is a prefix of Push* Rest+ Pull NoBranch*. */
  lemma PeekCycle(s: Snapshot, pushTimeout: real, atRestTimeout: real, clock: seq<(real, real)>)
    requires s.peekEnabled && s.timing == ClearedTiming
    requires pushTimeout > 0.0 && atRestTimeout > 0.0
    ensures FromPush(PeekBranches(s, pushTimeout, atRestTimeout, clock))
  {
    PushPhaseRun(s, pushTimeout, atRestTimeout, clock);
  }

  /** With `at_rest_timeout` left at its default 0, the first `peek` of a
      new, pulled or reset actuator takes the pull branch at once. */
  lemma DefaultAtRestTimeoutPulls(s: Snapshot, pushTimeout: real)
    requires s.timing == ClearedTiming
    ensures PeekBranch(s, pushTimeout, 0.0) == PullBranch
    ensures PeekWrites(s, pushTimeout, 0.0) == PullWrites(s.state)
    ensures PeekSpec(s, pushTimeout, 0.0, 0.0, 0.0) == Snapshot(Pulling, false, ClearedTiming)
  {
  }

  /** Relation between the writes a failing call leaves and the writes it
      meant to issue: a strict prefix of `intended` got through, and the state
      is AT_REST exactly when the leading rest part got through. */
  predicate Interrupted(s0: PhysicalState, log0: seq<BncWrite>, s1: PhysicalState, log1: seq<BncWrite>, intended: seq<BncWrite>)
  {
    && |log0| <= |log1| < |log0| + |intended|
    && log1 == log0 + intended[..|log1| - |log0|]
    && s1 == (if |log1| - |log0| >= |RestWrites(s0)| then AtRest else s0)
  }

  /** A rest that fails interrupts the push or pull that began with it. */
  lemma RestInterrupted(s0: PhysicalState, log0: seq<BncWrite>, s1: PhysicalState, log1: seq<BncWrite>, target: PhysicalState)
    requires Interrupted(s0, log0, s1, log1, RestWrites(s0))
    ensures Interrupted(s0, log0, s1, log1, RestWrites(s0) + Pattern(target))
  {
    var k := |log1| - |log0|;
    assert (RestWrites(s0) + Pattern(target))[..k] == RestWrites(s0)[..k];
  }

  /** A rest that succeeds followed by a failing push or pull trigger. */
  lemma SecondTriggerInterrupted(s0: PhysicalState, log0: seq<BncWrite>, mid: seq<BncWrite>, log1: seq<BncWrite>, target: PhysicalState)
    requires target != AtRest
    requires mid == log0 + RestWrites(s0)
    requires |mid| <= |log1| < |mid| + 2 && log1 == mid + Pattern(target)[..|log1| - |mid|]
    ensures Interrupted(s0, log0, AtRest, log1, RestWrites(s0) + Pattern(target))
  {
    var w := RestWrites(s0) + Pattern(target);
    var k := |log1| - |log0|;
    assert w[..k] == RestWrites(s0) + Pattern(target)[..|log1| - |mid|];
  }

  // ---------------------------------------------------------------------------
  // The actuator object
  // ---------------------------------------------------------------------------

  class AirtrackActuator {
    const bpod: Board
    var currentState: PhysicalState
    var peekEnabled: bool
    var peekPushStartTime: Latch
    var peekPushElapsedTime: Latch
    var peekPushTimeout: Latch
    var peekAtRestStartTime: Latch
    var peekAtRestElapsedTime: Latch
    var peekAtRestTimeout: Latch

    ghost predicate Valid()
      reads this, bpod
    {
      Coherent(currentState, bpod.outputs)
    }

    function View(): Snapshot
      reads this
    {
      Snapshot(currentState, peekEnabled,
        Timing(peekPushStartTime, peekPushElapsedTime, peekPushTimeout,
               peekAtRestStartTime, peekAtRestElapsedTime, peekAtRestTimeout))
    }

    /** The object records AT_REST without writing, so the board must be in a
        position coherent with rest. */
    constructor (bpod: Board)
      requires Coherent(AtRest, bpod.outputs)
      ensures this.bpod == bpod && Valid()
      ensures View() == Snapshot(AtRest, true, ClearedTiming)
    {
      this.bpod := bpod;
      currentState := AtRest;
      peekEnabled := true;
      peekPushStartTime, peekPushElapsedTime, peekPushTimeout := Unset, Unset, Unset;
      peekAtRestStartTime, peekAtRestElapsedTime, peekAtRestTimeout := Unset, Unset, Unset;
    }

    method ResetPeekTimes()
      modifies this
      ensures View() == old(View()).(timing := ClearedTiming)
    {
      peekPushStartTime, peekPushElapsedTime, peekPushTimeout := Unset, Unset, Unset;
      peekAtRestStartTime, peekAtRestElapsedTime, peekAtRestTimeout := Unset, Unset, Unset;
    }

    predicate PeekPushTimedOut()
      reads this
      requires peekPushElapsedTime.Set? && peekPushTimeout.Set?
    {
      TimedOut(peekPushElapsedTime, peekPushTimeout)
    }

    predicate PeekAtRestTimedOut()
      reads this
      requires peekAtRestElapsedTime.Set? && peekAtRestTimeout.Set?
    {
      TimedOut(peekAtRestElapsedTime, peekAtRestTimeout)
    }

    method TriggerBncOutput(channel: nat, value: int) returns (r: Outcome)
      requires !BothHigh(bpod.outputs + [BncWrite(channel, value)])
      modifies bpod
      ensures bpod.events == old(bpod.events)
      ensures bpod.outputs == if r.Pass? then old(bpod.outputs) + [BncWrite(channel, value)] else old(bpod.outputs)
      ensures r.Fail? ==> r.error == ActuatorError
    {
      var ok := bpod.ManualOverride(channel, value);
      r := if ok then Pass else Fail(ActuatorError);
    }

    predicate TriggerOk(state: PhysicalState, desiredState: PhysicalState)
      reads this
    {
      state == desiredState && currentState != desiredState
    }

    /** `_trigger_rest`, `_trigger_push` and `_trigger_pull`: the two writes of
        the target's pattern, channel 1 first; a failing write ends the call. */
    method WritePattern(target: PhysicalState) returns (r: Outcome)
      requires Valid() && LegalTrigger(currentState, target)
      modifies bpod
      ensures bpod.events == old(bpod.events)
      ensures r.Pass? ==> bpod.outputs == old(bpod.outputs) + Pattern(target) && Coherent(target, bpod.outputs)
      ensures r.Fail? ==> r.error == ActuatorError && Valid()
      ensures r.Fail? ==> |old(bpod.outputs)| <= |bpod.outputs| < |old(bpod.outputs)| + 2
      ensures r.Fail? ==> bpod.outputs == old(bpod.outputs) + Pattern(target)[..|bpod.outputs| - |old(bpod.outputs)|]
    {
      var p := Pattern(target);
      ghost var log := bpod.outputs;
      ghost var s := currentState;
      assert !BothHigh(log + [p[0]]) && Coherent(s, log + [p[0]]) by {
        FirstWriteSafe(s, target, log);
      }
      assert !BothHigh(log + p) && Coherent(target, log + p) by {
        SecondWriteSafe(s, target, log);
      }
      assert log + [p[0]] + [p[1]] == log + p;
      r := TriggerBncOutput(p[0].channel, p[0].value);
      if r.Pass? {
        r := TriggerBncOutput(p[1].channel, p[1].value);
        if r.Fail? {
          assert bpod.outputs == log + p[..1];
        }
      } else {
        assert bpod.outputs == log + p[..0];
      }
    }

    /** `_trigger(state)`: writes and changes state only when `state` differs
        from the current state; the state is assigned after both writes. Its
        callers rest first, so it never goes straight from one motion to the
        other. */
    method Trigger(state: PhysicalState) returns (r: Outcome)
      requires Valid()
      requires state == AtRest || currentState == AtRest || currentState == state
      modifies this, bpod
      ensures Valid() && bpod.events == old(bpod.events)
      ensures peekEnabled == old(peekEnabled) && View().timing == old(View().timing)
      ensures old(currentState) == state ==> r == Pass && currentState == state && bpod.outputs == old(bpod.outputs)
      ensures r.Pass? ==> currentState == state && bpod.outputs == old(bpod.outputs) + TriggerWrites(old(currentState), state)
      ensures r.Fail? ==> r.error == ActuatorError && currentState == old(currentState)
      ensures r.Fail? ==> |old(bpod.outputs)| <= |bpod.outputs| < |old(bpod.outputs)| + 2
      ensures r.Fail? ==> bpod.outputs == old(bpod.outputs) + Pattern(state)[..|bpod.outputs| - |old(bpod.outputs)|]
    {
      if TriggerOk(state, AtRest) {
        r := WritePattern(AtRest);
        if r.Pass? {
          currentState := AtRest;
        }
      } else if TriggerOk(state, Pushing) {
        r := WritePattern(Pushing);
        if r.Pass? {
          currentState := Pushing;
        }
      } else if TriggerOk(state, Pulling) {
        r := WritePattern(Pulling);
        if r.Pass? {
          currentState := Pulling;
        }
      } else {
        r := Pass;
      }
    }

    method Rest() returns (r: Outcome)
      requires Valid()
      modifies this, bpod
      ensures Valid() && bpod.events == old(bpod.events)
      ensures peekEnabled == old(peekEnabled) && View().timing == old(View().timing)
      ensures r.Pass? ==> currentState == AtRest && bpod.outputs == old(bpod.outputs) + RestWrites(old(currentState))
      ensures r.Fail? ==> r.error == ActuatorError
      ensures r.Fail? ==> Interrupted(old(currentState), old(bpod.outputs), currentState, bpod.outputs, RestWrites(old(currentState)))
    {
      r := Trigger(AtRest);
    }

    method Push() returns (r: Outcome)
      requires Valid()
      modifies this, bpod
      ensures Valid() && bpod.events == old(bpod.events)
      ensures peekEnabled == old(peekEnabled) && View().timing == old(View().timing)
      ensures r.Pass? ==> currentState == Pushing && bpod.outputs == old(bpod.outputs) + PushWrites(old(currentState))
      ensures r.Fail? ==> r.error == ActuatorError
      ensures r.Fail? ==> Interrupted(old(currentState), old(bpod.outputs), currentState, bpod.outputs, PushWrites(old(currentState)))
    {
      ghost var log := bpod.outputs;
      ghost var s0 := currentState;
      r := Rest();
      if r.Pass? {
        ghost var mid := bpod.outputs;
        r := Trigger(Pushing);
        if r.Fail? {
          SecondTriggerInterrupted(s0, log, mid, bpod.outputs, Pushing);
        }
      } else {
        RestInterrupted(s0, log, currentState, bpod.outputs, Pushing);
      }
    }

    method Pull() returns (r: Outcome)
      requires Valid()
      modifies this, bpod
      ensures Valid() && bpod.events == old(bpod.events)
      ensures peekEnabled && View().timing == ClearedTiming
      ensures r.Pass? ==> currentState == Pulling && bpod.outputs == old(bpod.outputs) + PullWrites(old(currentState))
      ensures r.Fail? ==> r.error == ActuatorError
      ensures r.Fail? ==> Interrupted(old(currentState), old(bpod.outputs), currentState, bpod.outputs, PullWrites(old(currentState)))
    {
      ghost var log := bpod.outputs;
      ghost var s0 := currentState;
      ResetPeekTimes();
      peekEnabled := true;
      r := Rest();
      if r.Pass? {
        ghost var mid := bpod.outputs;
        r := Trigger(Pulling);
        if r.Fail? {
          SecondTriggerInterrupted(s0, log, mid, bpod.outputs, Pulling);
        } else {
          assert bpod.outputs == log + RestWrites(s0) + Pattern(Pulling);
        }
      } else {
        RestInterrupted(s0, log, currentState, bpod.outputs, Pulling);
      }
    }

    /** Branch (a) of `peek`: pull, then disable pushing. */
    method PeekPullBranch() returns (r: Outcome)
      requires Valid()
      modifies this, bpod
      ensures Valid() && bpod.events == old(bpod.events)
      ensures r.Pass? ==> View() == Snapshot(Pulling, false, ClearedTiming)
      ensures r.Pass? ==> bpod.outputs == old(bpod.outputs) + PullWrites(old(currentState))
      ensures r.Fail? ==> r.error == ActuatorError && View() == Snapshot(currentState, true, ClearedTiming)
      ensures r.Fail? ==> Interrupted(old(currentState), old(bpod.outputs), currentState, bpod.outputs, PullWrites(old(currentState)))
    {
      r := Pull();
      if r.Pass? {
        peekEnabled := false;
      }
    }

    /** Branch (b) of `peek`: latch the at-rest start, rest, record the elapsed time. */
    method PeekRestBranch(before: real, after: real) returns (r: Outcome)
      requires Valid()
      modifies this, bpod
      ensures Valid() && bpod.events == old(bpod.events)
      ensures r.Pass? ==> View() == FinishAtRest(StartAtRest(old(View()), before), after)
      ensures r.Pass? ==> bpod.outputs == old(bpod.outputs) + RestWrites(old(currentState))
      ensures r.Fail? ==> r.error == ActuatorError && View() == StartAtRest(old(View()), before).(state := currentState)
      ensures r.Fail? ==> Interrupted(old(currentState), old(bpod.outputs), currentState, bpod.outputs, RestWrites(old(currentState)))
    {
      peekAtRestStartTime := WriteOnce(peekAtRestStartTime, Some(before));
      r := Rest();
      if r.Pass? {
        peekAtRestElapsedTime := WriteSticky(peekAtRestElapsedTime, Some(after - peekAtRestStartTime.value));
      }
    }

    /** Branch (c) of `peek`: latch the push start, push, record the elapsed time. */
    method PeekPushBranch(before: real, after: real) returns (r: Outcome)
      requires Valid()
      modifies this, bpod
      ensures Valid() && bpod.events == old(bpod.events)
      ensures r.Pass? ==> View() == FinishPush(StartPush(old(View()), before), after)
      ensures r.Pass? ==> bpod.outputs == old(bpod.outputs) + PushWrites(old(currentState))
      ensures r.Fail? ==> r.error == ActuatorError && View() == StartPush(old(View()), before).(state := currentState)
      ensures r.Fail? ==> Interrupted(old(currentState), old(bpod.outputs), currentState, bpod.outputs, PushWrites(old(currentState)))
    {
      peekPushStartTime := WriteOnce(peekPushStartTime, Some(before));
      r := Push();
      if r.Pass? {
        peekPushElapsedTime := WriteSticky(peekPushElapsedTime, Some(after - peekPushStartTime.value));
      }
    }

    /** One step of the peek cycle; `before` and `after` are the clock samples
        the source takes with `time.time()` around the branch's action. */
    method Peek(pushTimeout: real, atRestTimeout: real, before: real, after: real) returns (r: Outcome)
      requires Valid()
      modifies this, bpod
      ensures Valid() && bpod.events == old(bpod.events)
      ensures r.Pass? ==> View() == PeekSpec(old(View()), pushTimeout, atRestTimeout, before, after)
      ensures r.Pass? ==> bpod.outputs == old(bpod.outputs) + PeekWrites(old(View()), pushTimeout, atRestTimeout)
      ensures r.Fail? ==> r.error == ActuatorError
      ensures r.Fail? ==> View() == PeekStarted(old(View()), pushTimeout, atRestTimeout, before).(state := currentState)
      ensures r.Fail? ==> Interrupted(old(currentState), old(bpod.outputs), currentState, bpod.outputs,
                                      PeekWrites(old(View()), pushTimeout, atRestTimeout))
      ensures PeekBranch(old(View()), pushTimeout, atRestTimeout) == NoBranch ==> r == Pass
    {
      peekPushTimeout := WriteOnce(peekPushTimeout, Some(pushTimeout));
      peekPushElapsedTime := WriteSticky(peekPushElapsedTime, Some(0.0));
      peekAtRestTimeout := WriteOnce(peekAtRestTimeout, Some(atRestTimeout));
      peekAtRestElapsedTime := WriteSticky(peekAtRestElapsedTime, Some(0.0));
      assert View() == PeekLatched(old(View()), pushTimeout, atRestTimeout);
      var pushTimedOut := PeekPushTimedOut();
      var atRestTimedOut := PeekAtRestTimedOut();
      if atRestTimedOut {
        r := PeekPullBranch();
      } else if pushTimedOut {
        r := PeekRestBranch(before, after);
      } else if peekEnabled {
        r := PeekPushBranch(before, after);
      } else {
        r := Pass;
      }
    }

    method Reset() returns (r: Outcome)
      requires Valid()
      modifies this, bpod
      ensures Valid() && bpod.events == old(bpod.events)
      ensures peekEnabled && View().timing == ClearedTiming
      ensures r.Pass? ==> currentState == Pulling && bpod.outputs == old(bpod.outputs) + PullWrites(old(currentState))
      ensures r.Fail? ==> r.error == ActuatorError
      ensures r.Fail? ==> Interrupted(old(currentState), old(bpod.outputs), currentState, bpod.outputs, PullWrites(old(currentState)))
    {
      r := Pull();
    }
  }
}
