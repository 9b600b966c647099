/** The supervisory state machine of airtrack/src/sma/base.py: it registers one
    Bpod state per member of the state enum, built from that state's bpodified
    transitions, and binds the callbacks that query the subject and drive the
    actuator. `add_state` is modelled as appending a registration record. */
module LaneMachine {
  import opened Errors
  import opened Bpod
  import opened Actuator
  import opened TransitionTable

  /** The members of `AirtrackState`, in enum order. */
  datatype LaneState = Initiate | QuerySubjectLocation | EnterLane | ExitLane

  const LANE_STATES: seq<LaneState> := [Initiate, QuerySubjectLocation, EnterLane, ExitLane]

  function StateName(s: LaneState): string
  {
    match s
    case Initiate => "INITIATE"
    case QuerySubjectLocation => "QUERY_SUBJECT_LOCATION"
    case EnterLane => "ENTER_LANE"
    case ExitLane => "EXIT_LANE"
  }

  /** The bound callbacks; `@callback` decorates three of the four states. */
  datatype Callback = QueryCallback | EnterLaneCallback | ExitLaneCallback

  function CallbackOf(s: LaneState): (r: Option<Callback>)
    ensures r.None? <==> s == Initiate
  {
    match s
    case Initiate => None
    case QuerySubjectLocation => Some(QueryCallback)
    case EnterLane => Some(EnterLaneCallback)
    case ExitLane => Some(ExitLaneCallback)
  }

  /** The arguments of one `add_state` call. */
  datatype Registration = Registration(name: string, stateTimer: real, callback: Option<Callback>,
                                       conditions: map<string, string>)

  const DEFAULT_TRANSITION_TIMER: real := 0.1

  /** The condition key of an event: its name, or `Tup` for a timer. */
  function ConditionKey(e: TransitionEvent): string
  {
    match e
    case Named(name) => name
    case Timer(_) => TUP
  }

  /** The dictionary comprehension of `setup`: a later transition with the same
      key overwrites an earlier one. */
  function Conditions(ts: BpodTransitions): map<string, string>
  {
    if ts == [] then map[]
    else Conditions(ts[..|ts| - 1])[ConditionKey(ts[|ts| - 1].1) := ts[|ts| - 1].0]
  }

  /** `state_timer or DEFAULT_TRANSITION_TIMER`: None and 0 are false. */
  function EffectiveTimer(t: Option<real>): (r: real)
    ensures r != 0.0
    ensures t.Some? && t.value != 0.0 ==> r == t.value
    ensures t.None? || t.value == 0.0 ==> r == DEFAULT_TRANSITION_TIMER
  {
    if t.None? || t.value == 0.0 then DEFAULT_TRANSITION_TIMER else t.value
  }

  /** What `setup` passes to `add_state` for one state. */
  function RegistrationFor(s: LaneState, ts: BpodTransitions): (r: Registration)
    ensures r.name == StateName(s) && r.callback == CallbackOf(s) && r.stateTimer != 0.0
    ensures |ts| != 1 ==> r.stateTimer == DEFAULT_TRANSITION_TIMER && r.conditions == Conditions(ts)
  {
    if |ts| == 1 then
      var dest, e := ts[0].0, ts[0].1;
      var timer := if e.Timer? then Some(e.seconds) else None;
      Registration(StateName(s), EffectiveTimer(timer), CallbackOf(s), map[ConditionKey(e) := dest])
    else
      Registration(StateName(s), EffectiveTimer(None), CallbackOf(s), Conditions(ts))
  }

  predicate Registrable(transitions: map<LaneState, BpodTransitions>, states: seq<LaneState>)
  {
    forall i :: 0 <= i < |states| ==> states[i] in transitions
  }

  function RegistrationsOf(states: seq<LaneState>, transitions: map<LaneState, BpodTransitions>): (r: seq<Registration>)
    requires Registrable(transitions, states)
    ensures |r| == |states|
    ensures forall i :: 0 <= i < |states| ==> r[i] == RegistrationFor(states[i], transitions[states[i]])
  {
    if states == [] then []
    else RegistrationsOf(states[..|states| - 1], transitions)
           + [RegistrationFor(states[|states| - 1], transitions[states[|states| - 1]])]
  }

  // ---------------------------------------------------------------------------
  // Properties of the registration
  // ---------------------------------------------------------------------------

  /** One numeric transition: its value is the timer (the default when it is
      0) and `Tup` leads to its destination. */
  lemma SingleTimerRegistration(s: LaneState, dest: string, seconds: real)
    ensures var r := RegistrationFor(s, [(dest, Timer(seconds))]);
            r.conditions == map[TUP := dest] &&
            r.stateTimer == (if seconds == 0.0 then DEFAULT_TRANSITION_TIMER else seconds) &&
            r.name == StateName(s) && r.callback == CallbackOf(s)
  {
  }

  /** One named transition: its event leads to its destination and the
      timer is the default. */
  lemma SingleEventRegistration(s: LaneState, dest: string, event: string)
    ensures var r := RegistrationFor(s, [(dest, Named(event))]);
            r.conditions == map[event := dest] && r.stateTimer == DEFAULT_TRANSITION_TIMER
  {
  }

  /** The key of the last transition whose condition key is `key`. */
  predicate IsLastWithKey(ts: BpodTransitions, i: int, key: string)
  {
    0 <= i < |ts| && ConditionKey(ts[i].1) == key
    && forall j :: i < j < |ts| ==> ConditionKey(ts[j].1) != key
  }

  /** The comprehension has a key for each event (`Tup` for timers), mapped to
      the destination of the last transition with that key. */
  lemma {:induction false} ConditionsLastWins(ts: BpodTransitions)
    ensures forall key :: key in Conditions(ts) <==> exists i :: 0 <= i < |ts| && ConditionKey(ts[i].1) == key
    ensures forall i, key :: IsLastWithKey(ts, i, key) ==> key in Conditions(ts) && Conditions(ts)[key] == ts[i].0
  {
    if ts != [] {
      var front := ts[..|ts| - 1];
      var last := ts[|ts| - 1];
      ConditionsLastWins(front);
      assert Conditions(ts) == Conditions(front)[ConditionKey(last.1) := last.0];
      assert forall i :: 0 <= i < |front| ==> front[i] == ts[i];
      forall i, key | IsLastWithKey(ts, i, key)
        ensures key in Conditions(ts) && Conditions(ts)[key] == ts[i].0
      {
        if i < |ts| - 1 {
          assert ConditionKey(last.1) != key;
          assert IsLastWithKey(front, i, key);
        }
      }
    }
  }

  /** With one transition the special case builds the same conditions as
      the comprehension would. */
  lemma SingleCaseIsComprehension(s: LaneState, ts: BpodTransitions)
    requires |ts| == 1
    ensures RegistrationFor(s, ts).conditions == Conditions(ts)
  {
    assert ts[..0] == [];
  }

  /** The registered timer is never 0: it is the default unless exactly one
      transition carries a non-zero timer. */
  lemma RegisteredTimer(s: LaneState, ts: BpodTransitions)
    ensures RegistrationFor(s, ts).stateTimer != 0.0
    ensures RegistrationFor(s, ts).stateTimer == DEFAULT_TRANSITION_TIMER
              <== !(|ts| == 1 && ts[0].1.Timer? && ts[0].1.seconds != 0.0)
  {
  }

  /** `setup` registers every member of the enum once, in enum order. */
  lemma SetupRegistersEachStateOnce(transitions: map<LaneState, BpodTransitions>)
    requires Registrable(transitions, LANE_STATES)
    ensures var regs := RegistrationsOf(LANE_STATES, transitions);
            |regs| == 4 &&
            (forall i :: 0 <= i < 4 ==> regs[i].name == StateName(LANE_STATES[i])) &&
            (forall i, j :: 0 <= i < j < 4 ==> regs[i].name != regs[j].name)
  {
    var regs := RegistrationsOf(LANE_STATES, transitions);
    forall i, j | 0 <= i < j < 4 ensures regs[i].name != regs[j].name {
      assert StateName(LANE_STATES[i])[0] != StateName(LANE_STATES[j])[0]
          || |StateName(LANE_STATES[i])| != |StateName(LANE_STATES[j])|;
    }
  }

  // ---------------------------------------------------------------------------
  // Routing of _query_subject_location
  // ---------------------------------------------------------------------------

  /** `State.ENTER_LANE.name` when the subject is inside, else `State.EXIT_LANE.name`. */
  function DestinationFor(inside: bool): (r: string)
    ensures r == StateName(if inside then EnterLane else ExitLane)
  {
    if inside then StateName(EnterLane) else StateName(ExitLane)
  }

  /** `state.transitions[dest_state_name]` for the query state, when it is an
      event name. */
  function QueryEvent(transitions: map<LaneState, BpodTransitions>, inside: bool): Option<string>
  {
    if QuerySubjectLocation !in transitions then None
    else
      match Lookup(transitions[QuerySubjectLocation], DestinationFor(inside))
      case Some(Named(name)) => Some(name)
      case _ => None
  }

  lemma {:induction false} LookupFindsFirst(ts: BpodTransitions, dest: string)
    ensures Lookup(ts, dest).Some? ==>
              exists i :: 0 <= i < |ts| && ts[i].0 == dest && ts[i].1 == Lookup(ts, dest).value
  {
    if ts != [] && ts[0].0 != dest {
      LookupFindsFirst(ts[1..], dest);
      if Lookup(ts, dest).Some? {
        var i :| 0 <= i < |ts[1..]| && ts[1..][i].0 == dest && ts[1..][i].1 == Lookup(ts, dest).value;
        assert ts[i + 1] == ts[1..][i];
      }
    }
  }

  /** Distinct condition keys: no two transitions share an event. */
  predicate DistinctKeys(ts: BpodTransitions)
  {
    forall i, j :: 0 <= i < j < |ts| ==> ConditionKey(ts[i].1) != ConditionKey(ts[j].1)
  }

  /** The event the query callback triggers is the one the registered query
      state follows to the chosen lane: inside leads to ENTER_LANE and outside
      to EXIT_LANE. */
  lemma QueryRoutesToLane(transitions: map<LaneState, BpodTransitions>, inside: bool)
    requires QuerySubjectLocation in transitions && DistinctKeys(transitions[QuerySubjectLocation])
    requires QueryEvent(transitions, inside).Some?
    ensures var r := RegistrationFor(QuerySubjectLocation, transitions[QuerySubjectLocation]);
            var e := QueryEvent(transitions, inside).value;
            e in r.conditions && r.conditions[e] == StateName(if inside then EnterLane else ExitLane)
  {
    var ts := transitions[QuerySubjectLocation];
    var dest := DestinationFor(inside);
    LookupFindsFirst(ts, dest);
    var i :| 0 <= i < |ts| && ts[i].0 == dest && ts[i].1 == Lookup(ts, dest).value;
    var e := QueryEvent(transitions, inside).value;
    assert ConditionKey(ts[i].1) == e;
    if |ts| == 1 {
      SingleCaseIsComprehension(QuerySubjectLocation, ts);
    }
    ConditionsLastWins(ts);
    assert IsLastWithKey(ts, i, e);
  }

  // ---------------------------------------------------------------------------
  // The state machine object
  // ---------------------------------------------------------------------------

  class AirtrackStateMachine {
    const bpod: Board
    const actuator: AirtrackActuator
    /** `state.transitions` of each enum member, as bpodified. */
    const transitions: map<LaneState, BpodTransitions>
    /** The `add_state` calls made so far. */
    var registered: seq<Registration>

    ghost predicate Valid()
      reads this, actuator, bpod
    {
      actuator.bpod == bpod && actuator.Valid()
    }

    constructor (bpod: Board, transitions: map<LaneState, BpodTransitions>)
      requires Coherent(AtRest, bpod.outputs)
      ensures Valid() && fresh(actuator)
      ensures this.bpod == bpod && this.transitions == transitions && registered == []
      ensures actuator.View() == Snapshot(AtRest, true, ClearedTiming)
    {
      this.bpod := bpod;
      this.transitions := transitions;
      actuator := new AirtrackActuator(bpod);
      registered := [];
    }

    /** `setup`: one `add_state` per enum member; a member without
        transitions raises, after the earlier members are registered. */
    method Setup() returns (r: Outcome)
      modifies this
      ensures r.Pass? <==> Registrable(transitions, LANE_STATES)
      ensures r.Pass? ==> registered == old(registered) + RegistrationsOf(LANE_STATES, transitions)
      ensures r.Fail? ==> r.error == StateMachineError
      ensures r.Fail? ==> exists i :: 0 <= i < |LANE_STATES| && LANE_STATES[i] !in transitions
                            && Registrable(transitions, LANE_STATES[..i])
                            && registered == old(registered) + RegistrationsOf(LANE_STATES[..i], transitions)
    {
      var i := 0;
      while i < |LANE_STATES|
        invariant 0 <= i <= |LANE_STATES|
        invariant Registrable(transitions, LANE_STATES[..i])
        invariant registered == old(registered) + RegistrationsOf(LANE_STATES[..i], transitions)
      {
        var s := LANE_STATES[i];
        if s !in transitions {
          return Fail(StateMachineError);
        }
        assert LANE_STATES[..i + 1][..i] == LANE_STATES[..i];
        registered := registered + [RegistrationFor(s, transitions[s])];
        i := i + 1;
      }
      assert LANE_STATES[..|LANE_STATES|] == LANE_STATES;
      r := Pass;
    }

    /** `_trigger_event_by_name`: any failure of the board is re-raised. */
    method TriggerEvent(name: string) returns (r: Outcome)
      modifies bpod
      ensures bpod.outputs == old(bpod.outputs)
      ensures bpod.events == if r.Pass? then old(bpod.events) + [EventTrigger(name, 255)] else old(bpod.events)
      ensures r.Fail? ==> r.error == StateMachineError
    {
      var ok := bpod.TriggerEventByName(name, 255);
      r := if ok then Pass else Fail(StateMachineError);
    }

    /** `_query_subject_location`. `inside` is the subject's answer, None when
        the camera query raised. */
    method QuerySubject(inside: Option<bool>) returns (r: Outcome)
      modifies bpod
      ensures bpod.outputs == old(bpod.outputs)
      ensures r.Pass? ==> inside.Some? && QueryEvent(transitions, inside.value).Some?
      ensures r.Pass? ==> bpod.events == old(bpod.events) + [EventTrigger(QueryEvent(transitions, inside.value).value, 255)]
      ensures r.Fail? ==> r.error == StateMachineError && bpod.events == old(bpod.events)
    {
      if inside.None? {
        return Fail(StateMachineError);
      }
      if QuerySubjectLocation !in transitions {
        return Fail(StateMachineError);
      }
      var dest := DestinationFor(inside.value);
      var event := Lookup(transitions[QuerySubjectLocation], dest);
      if event.None? {
        // KeyError
        return Fail(StateMachineError);
      }
      if event.value.Timer? {
        // a number is not an event name of the board
        return Fail(StateMachineError);
      }
      r := TriggerEvent(event.value.name);
    }

    /** `_enter_lane` calls `peek()` without its required `push_timeout`, so
        the call raises TypeError before anything happens. */
    method EnterLaneCallback() returns (r: Outcome)
      ensures r == Fail(StateMachineError)
    {
      r := Fail(StateMachineError);
    }

    /** `_exit_lane`: `pull()` returns None, so no exit event is triggered. */
    method ExitLaneCallback() returns (r: Outcome)
      requires Valid()
      modifies actuator, bpod
      ensures Valid() && bpod.events == old(bpod.events)
      ensures actuator.peekEnabled && actuator.View().timing == ClearedTiming
      ensures r.Pass? ==> actuator.currentState == Pulling
                          && bpod.outputs == old(bpod.outputs) + PullWrites(old(actuator.currentState))
      ensures r.Fail? ==> r.error == StateMachineError
    {
      var pulled := actuator.Pull();
      r := Wrap(pulled, StateMachineError);
    }

    /** `clean_up`: resets the actuator. */
    method CleanUp() returns (r: Outcome)
      requires Valid()
      modifies actuator, bpod
      ensures Valid() && bpod.events == old(bpod.events)
      ensures actuator.peekEnabled && actuator.View().timing == ClearedTiming
      ensures r.Pass? ==> actuator.currentState == Pulling
                          && bpod.outputs == old(bpod.outputs) + PullWrites(old(actuator.currentState))
      ensures r.Fail? ==> r.error == StateMachineError
    {
      var reset := actuator.Reset();
      r := Wrap(reset, StateMachineError);
    }
  }
}
