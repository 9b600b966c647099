/** The earlier, hard-coded lane state machine of state_machine.py: four Bpod
    states with fixed timers, transitions and BNC output actions, and a callback
    that reports the subject's location to the board as a serial event. */
module LegacyLaneMachine {
  import opened Errors
  import opened Bpod

  datatype LegacyState = Initiate | ResetSubjectLocation | EnterLane | ExitLane

  const SERIAL1_1: string := "Serial1_1"
  const SERIAL1_2: string := "Serial1_2"
  const STATE_TIMER: real := 0.1

  /** The methods `callback` entered in CALLBACK_MAP. */
  datatype LegacyCallback = ResetCallback | EnterCallback | ExitCallback

  /** The arguments of one `add_state` call in `setup`. */
  datatype LegacyRegistration = LegacyRegistration(
    state: LegacyState, stateTimer: real, callback: Option<LegacyCallback>,
    conditions: map<string, LegacyState>, outputs: seq<BncWrite>)

  /** `self.callbacks.get(state)`: INITIATE has no callback. */
  function CallbackOf(s: LegacyState): (r: Option<LegacyCallback>)
    ensures r.None? <==> s == Initiate
  {
    match s
    case Initiate => None
    case ResetSubjectLocation => Some(ResetCallback)
    case EnterLane => Some(EnterCallback)
    case ExitLane => Some(ExitCallback)
  }

  /** The four registrations of `setup`, in call order. */
  const SETUP_TABLE: seq<LegacyRegistration> := [
    LegacyRegistration(Initiate, STATE_TIMER, CallbackOf(Initiate),
                       map[TUP := ResetSubjectLocation], []),
    LegacyRegistration(ResetSubjectLocation, STATE_TIMER, CallbackOf(ResetSubjectLocation),
                       map[SERIAL1_1 := EnterLane, SERIAL1_2 := ExitLane], []),
    LegacyRegistration(EnterLane, STATE_TIMER, CallbackOf(EnterLane),
                       map[TUP := ResetSubjectLocation], [BncWrite(1, HIGH), BncWrite(2, LOW)]),
    LegacyRegistration(ExitLane, STATE_TIMER, CallbackOf(ExitLane),
                       map[TUP := ResetSubjectLocation], [BncWrite(1, LOW), BncWrite(2, HIGH)])
  ]

  /** The lane state machine as a transition function. */
  function Step(s: LegacyState, event: string): Option<LegacyState>
  {
    match s
    case Initiate => if event == TUP then Some(ResetSubjectLocation) else None
    case ResetSubjectLocation =>
      if event == SERIAL1_1 then Some(EnterLane)
      else if event == SERIAL1_2 then Some(ExitLane)
      else None
    case EnterLane => if event == TUP then Some(ResetSubjectLocation) else None
    case ExitLane => if event == TUP then Some(ResetSubjectLocation) else None
  }

  /** The event `_reset_subject_location` sends for a reading. */
  function RoutingEvent(inside: bool): string
  {
    if inside then SERIAL1_1 else SERIAL1_2
  }

  function LaneFor(inside: bool): LegacyState
  {
    if inside then EnterLane else ExitLane
  }

  // ---------------------------------------------------------------------------
  // Properties of the fixed table
  // ---------------------------------------------------------------------------

  /** `setup` registers each state once, every one with the 0.1 s timer and the
      callback CALLBACK_MAP holds for it, and its conditions are exactly
      `Step`'s transitions out of it. */
  lemma TableIsStep()
    ensures |SETUP_TABLE| == 4
    ensures forall i, j :: 0 <= i < j < |SETUP_TABLE| ==> SETUP_TABLE[i].state != SETUP_TABLE[j].state
    ensures forall i :: 0 <= i < |SETUP_TABLE| ==>
              SETUP_TABLE[i].stateTimer == STATE_TIMER && SETUP_TABLE[i].callback == CallbackOf(SETUP_TABLE[i].state)
    ensures forall i, e :: 0 <= i < |SETUP_TABLE| ==>
              (e in SETUP_TABLE[i].conditions <==> Step(SETUP_TABLE[i].state, e).Some?)
    ensures forall i, e :: 0 <= i < |SETUP_TABLE| && e in SETUP_TABLE[i].conditions ==>
              SETUP_TABLE[i].conditions[e] == Step(SETUP_TABLE[i].state, e).value
  {
  }

  /** Only the two lane states carry output actions, and after either one's
      writes the two direction lines are not both HIGH, whatever came before. */
  lemma LaneOutputsNeverBothHigh(log: seq<BncWrite>)
    ensures forall i :: 0 <= i < |SETUP_TABLE| ==>
              (SETUP_TABLE[i].outputs != [] <==> SETUP_TABLE[i].state in {EnterLane, ExitLane})
    ensures forall i :: 0 <= i < |SETUP_TABLE| && SETUP_TABLE[i].outputs != [] ==>
              !BothHigh(log + SETUP_TABLE[i].outputs)
  {
    LaneLevels(log);
    forall i | 0 <= i < |SETUP_TABLE| && SETUP_TABLE[i].outputs != []
      ensures !BothHigh(log + SETUP_TABLE[i].outputs)
    {
      assert i == 2 || i == 3;
    }
  }

  /** The lane states' writes set channel 1 and channel 2 to opposite levels. */
  lemma LaneLevels(log: seq<BncWrite>)
    ensures Level(log + SETUP_TABLE[2].outputs, 1) == HIGH && Level(log + SETUP_TABLE[2].outputs, 2) == LOW
    ensures Level(log + SETUP_TABLE[3].outputs, 1) == LOW && Level(log + SETUP_TABLE[3].outputs, 2) == HIGH
  {
    var enter, exit := SETUP_TABLE[2].outputs, SETUP_TABLE[3].outputs;
    assert log + enter == log + [enter[0]] + [enter[1]];
    assert log + exit == log + [exit[0]] + [exit[1]];
    LevelAfterWrite(log + [enter[0]], enter[1], 1);
    LevelAfterWrite(log + [enter[0]], enter[1], 2);
    LevelAfterWrite(log, enter[0], 1);
    LevelAfterWrite(log + [exit[0]], exit[1], 1);
    LevelAfterWrite(log + [exit[0]], exit[1], 2);
    LevelAfterWrite(log, exit[0], 2);
  }

  /** Routing determinism: from RESET_SUBJECT_LOCATION the event sent for an
      inside reading leads to ENTER_LANE and the one for an outside reading to
      EXIT_LANE, in one step. */
  lemma Routing(inside: bool)
    ensures Step(ResetSubjectLocation, RoutingEvent(inside)) == Some(LaneFor(inside))
    ensures RoutingEvent(true) != RoutingEvent(false)
  {
  }

  // ---------------------------------------------------------------------------
  // Closed-loop runs
  // ---------------------------------------------------------------------------

  /** The states visited by feeding `events` to `Step`, or None when an event
      has no transition. */
  function Run(s: LegacyState, events: seq<string>): Option<seq<LegacyState>>
    decreases |events|
  {
    if events == [] then Some([])
    else match Step(s, events[0])
      case None => None
      case Some(next) =>
        match Run(next, events[1..])
        case None => None
        case Some(rest) => Some([next] + rest)
  }

  /** One trial per reading: the serial event for the reading, then the lane
      state's timer. */
  function TrialEvents(readings: seq<bool>): seq<string>
  {
    if readings == [] then []
    else [RoutingEvent(readings[0]), TUP] + TrialEvents(readings[1..])
  }

  function TrialStates(readings: seq<bool>): seq<LegacyState>
  {
    if readings == [] then []
    else [LaneFor(readings[0]), ResetSubjectLocation] + TrialStates(readings[1..])
  }

  /** Every run from RESET_SUBJECT_LOCATION that follows the readings enters
      the lane each reading selects and comes back, and the machine never
      gets stuck. */
  lemma {:induction false} ClosedLoop(readings: seq<bool>)
    ensures Run(ResetSubjectLocation, TrialEvents(readings)) == Some(TrialStates(readings))
  {
    if readings != [] {
      ClosedLoop(readings[1..]);
      var evs := TrialEvents(readings);
      assert evs[1..][1..] == TrialEvents(readings[1..]);
      assert Step(ResetSubjectLocation, evs[0]) == Some(LaneFor(readings[0]));
      assert Step(LaneFor(readings[0]), evs[1..][0]) == Some(ResetSubjectLocation);
      assert Run(LaneFor(readings[0]), evs[1..]) == Some([ResetSubjectLocation] + TrialStates(readings[1..]));
      assert TrialStates(readings) == [LaneFor(readings[0])] + ([ResetSubjectLocation] + TrialStates(readings[1..]));
    }
  }

  /** From INITIATE the first timer leads into the loop. */
  lemma StartThenLoop(readings: seq<bool>)
    ensures Run(Initiate, [TUP] + TrialEvents(readings)) == Some([ResetSubjectLocation] + TrialStates(readings))
  {
    ClosedLoop(readings);
    assert ([TUP] + TrialEvents(readings))[1..] == TrialEvents(readings);
  }

  // ---------------------------------------------------------------------------
  // The state machine object
  // ---------------------------------------------------------------------------

  class LegacyStateMachine {
    const bpod: Board
    /** The `add_state` calls made so far. */
    var registered: seq<LegacyRegistration>

    constructor (bpod: Board)
      ensures this.bpod == bpod && registered == []
    {
      this.bpod := bpod;
      registered := [];
    }

    /** `setup`: the four fixed registrations. */
    method Setup()
      modifies this
      ensures registered == old(registered) + SETUP_TABLE
    {
      registered := registered + SETUP_TABLE;
    }

    /** `_reset_subject_location`. `inside` is the subject's reading, None when
        the query raised; errors propagate unwrapped. */
    method ResetSubjectLocationCallback(inside: Option<bool>) returns (r: Outcome)
      modifies bpod
      ensures bpod.outputs == old(bpod.outputs)
      ensures r.Pass? <==> inside.Some? && bpod.events == old(bpod.events) + [EventTrigger(RoutingEvent(inside.value), 255)]
      ensures r.Fail? ==> bpod.events == old(bpod.events)
      ensures r.Fail? ==> (r.error == SubjectError <==> inside.None?)
      ensures r.Fail? ==> r.error in {SubjectError, BpodError}
    {
      if inside.None? {
        return Fail(SubjectError);
      }
      var event := if inside.value then SERIAL1_1 else SERIAL1_2;
      var ok := bpod.TriggerEventByName(event, 255);
      r := if ok then Pass else Fail(BpodError);
    }
  }
}
