# Airtrack core in Dafny

A model of the control core of Airtrack, a head-fixed rodent set-up in which a
linear actuator moves an air-floated lane under Bpod control. Four pieces are
modelled:

- the actuator controller `AirtrackActuator`, in `actuator.dfy`. It holds a
  physical state (AT_REST, PUSHING, PULLING), a peek-enabled flag and six peek
  timing values behind latching property setters. It drives the motor through
  two BNC outputs of the Bpod board. `peek` runs one step of a
  push / rest / pull cycle.
- the supervisory state machine `AirtrackStateMachine` of
  `airtrack/src/sma/base.py`, in `sma.dfy`. `setup` registers one Bpod state
  per enum member, built from its bpodified transitions. The callbacks query
  the subject, drive the actuator and report back to the board by events.
- the earlier hard-coded lane state machine of `state_machine.py`, in
  `legacy_state_machine.dfy`.
- the transition-table rewrite `bpodify_state_transition_table` of
  `airtrack/data/utils.py`, in `transition_table.dfy`.

Two small modules support them:

- `bpod.dfy` models the Bpod board, an external collaborator. The board keeps
  the log of BNC writes and the log of triggered events. Any call it receives
  may fail; failure is a nondeterministic choice, so every proof covers every
  failure point. The board itself accepts any write. The model places a safety
  obligation on every caller of `ManualOverride`: no write may leave both
  motor lines HIGH. Every caller proves that it meets it.
- `errors.dfy` holds the error kinds. Each component re-raises a
  collaborator's failure as its own kind (`on_error_raise`), which `Wrap`
  models.

The actuator is a class whose methods update its fields and the board's logs.
`Valid()` is the invariant "the recorded state is coherent with the board's
outputs". It implies that the two lines are never both HIGH and that the log
never shows a push pattern directly followed by a pull pattern, or the
reverse. Each method states its whole new state in terms of pure
specification functions (`PeekSpec`, `PeekWrites`, `PullWrites`, ...). The
properties of the peek cycle are proved as lemmas about those functions.

The bpodifier is specified by `BpodifySpec`, a function of the attributes of
`Bpod.Events` and the parsed table. The method `Bpodify`, which has the
source's loops, is proved equal to it. Its entry-by-entry behaviour is proved
as lemmas: `Position` counts the serial events handed out before an entry.

Time samples (`time.time()`), the subject's answer and the board's success or
failure are parameters or nondeterministic choices. Nothing of the camera, the
CSV reader or pybpodapi is modelled beyond that.

Two behaviours of the code worth noting:

- `push()` while already PUSHING rests first and then pushes again, so it
  issues four writes, not zero. The same holds for `pull()` while PULLING.
- `clean_up()` only resets the actuator. It leaves it PULLING, not AT_REST,
  and it does not release the subject.

## Model

| member | source | states |
|---|---|---|
| Errors.Wrap | airtrack/src/errors.py:34-42 | a wrapped call succeeds iff the inner call does; any failure becomes the wrapper's error kind |
| Bpod.LevelAfterWrite | airtrack/src/actuator/base.py:157-163 | after a `manual_override` a BNC output reads the value just written to it, and every other output keeps its level |
| Bpod.Board.ManualOverride | airtrack/src/actuator/base.py:157-163 | a write either is appended to the output log or fails and changes nothing; its callers are obliged never to leave both motor lines HIGH |
| Bpod.Board.TriggerEventByName | airtrack/src/sma/base.py:93-94 | a trigger is appended to the event log with its strength, or fails and changes nothing; the outputs are untouched |
| Actuator.WriteOnce | airtrack/src/actuator/base.py:76-81 | writing None clears a start time or timeout; writing a value leaves it set |
| Actuator.WriteSticky | airtrack/src/actuator/base.py:87-94 | writing None clears an elapsed time; writing a value leaves it set |
| Actuator.LastNonZero | airtrack/src/actuator/base.py:87-94 | the last non-zero value written, which is one of the writes, or None when every write was 0 |
| Actuator.WriteOnceKeepsFirst | airtrack/src/actuator/base.py:76-81 | after any number of writes a set latch keeps its value, and an empty latch holds the first value written |
| Actuator.WriteStickyKeepsLastNonZero | airtrack/src/actuator/base.py:87-94 | after any number of writes an elapsed time holds the last non-zero value; zeros never erase a stored value; the first write is stored even when it is 0 |
| Actuator.Prelude | airtrack/src/actuator/base.py:227-230 | the four setter calls at the start of `peek` latch both timeouts and both elapsed times, keep every value already stored and leave the start times alone |
| Actuator.Decide | airtrack/src/actuator/base.py:231-245 | `peek` pulls iff the at-rest window timed out; else it rests iff the push window timed out; else it pushes iff pushing is enabled (elapsed >= timeout is the test) |
| Actuator.PeekBranch | airtrack/src/actuator/base.py:227-245 | the branch one `peek` takes: `Decide` on the timing after the four setter calls |
| Actuator.Pattern | airtrack/src/actuator/base.py:168-178 | each trigger writes channel 1 then channel 2, and no pattern sets both HIGH |
| Actuator.PushAndPullPassThroughRest | airtrack/src/actuator/base.py:195-205 | `push` and `pull` from a moving state start with the rest pattern; from AT_REST they write only their own pattern |
| Actuator.NoReversalAfterWrite | airtrack/src/actuator/base.py:195-205 | extending the write log keeps "no push pattern directly followed by a pull pattern, or the reverse" iff the new end is not such a reversal |
| Actuator.CoherentIsSafe | airtrack/src/actuator/base.py:168-189 | a board coherent with the recorded state never has both motor lines HIGH |
| Actuator.FirstWriteSafe | airtrack/src/actuator/base.py:180-189 | the first write of a trigger that changes state, to or from rest, is safe and keeps the old state coherent |
| Actuator.SecondWriteSafe | airtrack/src/actuator/base.py:180-189 | both writes of such a trigger are safe and leave the board coherent with the target state |
| Actuator.ReversalAfterPattern | airtrack/src/actuator/base.py:195-205 | a complete pattern closes a reversal iff the log ended in the pattern of the opposite motion |
| Actuator.ParkedPeekIsIdle | airtrack/src/actuator/base.py:233-245 | after the pull branch, a `peek` with positive timeouts takes no branch, issues no write and keeps the state |
| Actuator.ParkedStaysIdle | airtrack/src/actuator/base.py:233-245 | after the pull branch, any number of such peeks take no branch |
| Actuator.RestPhaseRun | airtrack/src/actuator/base.py:231-245 | once the push window has timed out, successive peeks rest some times, then pull at most once, then do nothing |
| Actuator.PushPhaseRun | airtrack/src/actuator/base.py:231-245 | while the at-rest window has not started, successive peeks push some times, then continue as in the rest phase |
| Actuator.PeekCycle | airtrack/src/actuator/base.py:207-249 | from a new, pulled or reset actuator, successive peeks with positive timeouts follow Push* Rest+ Pull NoBranch*, cut off anywhere |
| Actuator.RestInterrupted | airtrack/src/actuator/base.py:195-205 | a failing rest interrupts the push or pull it began: the writes that got through are a strict prefix of what the call meant to write |
| Actuator.SecondTriggerInterrupted | airtrack/src/actuator/base.py:180-205 | a failing push or pull trigger after a good rest leaves the actuator AT_REST with a strict prefix of the intended writes |
| Actuator.PeekSpec | airtrack/src/actuator/base.py:207-245 | the object after a `peek` whose writes all succeed: pull branch PULLING with peek disabled and the timing cleared; rest and push branches latch their start time, move, and store the elapsed time from the latched start; otherwise only the setter calls |
| Actuator.PeekWrites | airtrack/src/actuator/base.py:231-245 | the BNC writes of such a `peek`: those of `pull`, `rest` or `push` for the branch taken, none when no branch is taken |
| Actuator.DefaultAtRestTimeoutPulls | airtrack/src/actuator/base.py:207-235 | with `at_rest_timeout` at its default 0, the first `peek` of a new, pulled or reset actuator pulls at once and disables peek |
| Actuator.AirtrackActuator.constructor | airtrack/src/actuator/base.py:57-70 | a new actuator is AT_REST with peek enabled and all six timing values unset |
| Actuator.AirtrackActuator.ResetPeekTimes | airtrack/src/actuator/base.py:142-148 | clears all six timing values and nothing else |
| Actuator.AirtrackActuator.PeekPushTimedOut | airtrack/src/actuator/base.py:150-151 | the push window is timed out iff its elapsed time has reached its timeout (`TimedOut`, which `Decide` uses) |
| Actuator.AirtrackActuator.PeekAtRestTimedOut | airtrack/src/actuator/base.py:153-154 | the at-rest window is timed out iff its elapsed time has reached its timeout |
| Actuator.AirtrackActuator.TriggerBncOutput | airtrack/src/actuator/base.py:156-163 | one BNC write through the board; its failure becomes an actuator error |
| Actuator.AirtrackActuator.TriggerOk | airtrack/src/actuator/base.py:165-166 | a trigger to `desired_state` applies iff it is the requested state and not the current one; `Trigger` writes only then |
| Actuator.AirtrackActuator.WritePattern | airtrack/src/actuator/base.py:168-178 | writes the target's two-write pattern and leaves the board coherent with the target; a failure leaves a strict prefix of it, still coherent with the old state |
| Actuator.AirtrackActuator.Trigger | airtrack/src/actuator/base.py:165-189 | writes and changes state only when the requested state differs from the current one; a request for the current state writes nothing; a failure keeps the old state, because the assignment follows the writes |
| Actuator.AirtrackActuator.Rest | airtrack/src/actuator/base.py:191-193 | ends AT_REST having written the rest pattern unless already at rest; the peek fields are unchanged |
| Actuator.AirtrackActuator.Push | airtrack/src/actuator/base.py:195-198 | rests first, then pushes: ends PUSHING with the rest writes (if any) followed by the push pattern; a failure leaves a strict prefix |
| Actuator.AirtrackActuator.Pull | airtrack/src/actuator/base.py:200-205 | clears the six timing values, enables peek even when a write fails, rests and then pulls: ends PULLING with the rest writes followed by the pull pattern |
| Actuator.AirtrackActuator.PeekPullBranch | airtrack/src/actuator/base.py:233-235 | pulls, then disables peek; when the pull fails, peek stays enabled |
| Actuator.AirtrackActuator.PeekRestBranch | airtrack/src/actuator/base.py:236-240 | latches the at-rest start time, rests, then stores the elapsed time since the latched start |
| Actuator.AirtrackActuator.PeekPushBranch | airtrack/src/actuator/base.py:241-245 | latches the push start time, pushes, then stores the elapsed time since the latched start |
| Actuator.AirtrackActuator.Peek | airtrack/src/actuator/base.py:207-245 | the object and the writes after one `peek` are `PeekSpec` and `PeekWrites` of the old object; a failure leaves the setter calls made so far and a strict prefix of the writes; taking no branch always succeeds |
| Actuator.AirtrackActuator.Reset | airtrack/src/actuator/base.py:247-249 | the same as `pull`: ends PULLING with peek enabled and the timing values cleared |
| TransitionTable.ListBpodEvents | airtrack/data/utils.py:15-17 | a name is listed iff it is an attribute of `Bpod.Events` that starts with an upper-case letter and is not callable |
| TransitionTable.ListBpodEventsDistinct | airtrack/data/utils.py:15-17 | each attribute is listed at most once |
| TransitionTable.ListBpodSerialEvents | airtrack/data/utils.py:20-22 | a name is listed iff it is a Bpod event that starts with "Serial" and is not blacklisted; distinctness is kept |
| TransitionTable.TransitionEvents | airtrack/data/utils.py:49-50 | the blacklist holds every event that any transition of the table uses |
| TransitionTable.Field | airtrack/data/utils.py:54 | `e.split('_')[0]`: the longest prefix without '_' |
| TransitionTable.AfterField | airtrack/data/utils.py:54 | the text after the first '_', None exactly when there is no '_' (where `split('_')[1]` raises) |
| TransitionTable.SerialKeyOf | airtrack/data/utils.py:53-54 | the key of "<port><d>_<n>" is the number written by the last character before the '_' followed by the field after it, and there is no key when that text is not a numeral |
| TransitionTable.DigitsOf | airtrack/data/utils.py:54 | appending a digit to a numeral multiplies its value by ten and adds the digit, as `int` reads it |
| TransitionTable.SerialKey | airtrack/data/utils.py:53-54 | the sort key of a name, absent where the key lambda raises: a name with a key has a '_' and a non-empty first field; its value is given by `SerialKeyOf` |
| TransitionTable.Insert | airtrack/data/utils.py:53-54 | inserting a name adds exactly that name to the multiset |
| TransitionTable.InsertSorted | airtrack/data/utils.py:53-54 | inserting into a list sorted by key keeps it sorted |
| TransitionTable.InsertDistinct | airtrack/data/utils.py:53-54 | inserting a new name into a list without duplicates keeps it without duplicates |
| TransitionTable.SortedCons | airtrack/data/utils.py:53-54 | a name no larger than every element of a sorted list can go in front |
| TransitionTable.SortedTail | airtrack/data/utils.py:53-54 | the tail of a sorted list is sorted, and its head is its least element |
| TransitionTable.SortByKey | airtrack/data/utils.py:53-54 | the sorted pool is a permutation of the free serial events, ordered by key, without duplicates when the input has none |
| TransitionTable.Words | airtrack/data/utils.py:62 | `str.split()`: every word is non-empty and has no whitespace; `WordsCons`, `LeadingSpace` and `WordsOfWord` fix which words they are |
| TransitionTable.TimerOf | airtrack/data/utils.py:60-64 | the timer a parenthesised event sets: the value of its last numeric word, as `LastNumericIsLast` proves, or none |
| TransitionTable.LastNumericIsLast | airtrack/data/utils.py:62-64 | no timer iff no word is numeric; otherwise the timer is the value of the last numeric word, because each overwrites the one before |
| TransitionTable.LeadingSpace | airtrack/data/utils.py:62 | `split()` ignores leading whitespace |
| TransitionTable.WordsCons | airtrack/data/utils.py:62 | a run of non-whitespace followed by whitespace or the end is the first word of `split()` |
| TransitionTable.WordAtWhole | airtrack/data/utils.py:62 | a word ends at the first whitespace |
| TransitionTable.WordsOfWord | airtrack/data/utils.py:62 | a string without whitespace splits into itself |
| TransitionTable.GluedEventSetsNoTimer | airtrack/data/utils.py:60-64 | a parenthesised event without whitespace, such as "(3)", sets no timer: its only word starts with '(' |
| TransitionTable.BpodifySpec | airtrack/data/utils.py:40-68 | on success the new table has the source states of the input, in order |
| TransitionTable.RewriteTransitions | airtrack/data/utils.py:56-67 | one state's rewrite with its pool: Bpod events copied, timers parsed, other events given the pool's first event, None where `pop(0)` meets an empty pool; characterised by `RewriteTransitionsSucceeds` and `RewriteTransitionsEntry` |
| TransitionTable.RewriteTable | airtrack/data/utils.py:55-67 | the whole table rewritten with the pool threaded from state to state; characterised by `RewriteTableSucceeds` and `RewriteTableAt` |
| TransitionTable.SerialPool | airtrack/data/utils.py:48-54 | the free serial events sorted by key, the pool the rewrite pops from; `SortByKey` gives its properties |
| TransitionTable.ExpectedShift | airtrack/data/utils.py:67 | the n-th event of the pool after m pops is the (m+n)-th of the original pool |
| TransitionTable.RewriteTransitionsSucceeds | airtrack/data/utils.py:57-67 | one state's rewrite succeeds iff the pool holds at least as many events as the state needs, and leaves the pool without its first that many |
| TransitionTable.RewriteTableSucceeds | airtrack/data/utils.py:55-67 | the table rewrite succeeds iff the pool holds at least as many events as the whole table needs, and consumes exactly those |
| TransitionTable.RewriteTransitionsStep | airtrack/data/utils.py:57-67 | the rewrite of a state's transitions is the entry of the first transition, if any, followed by the rewrite of the rest with the remaining pool |
| TransitionTable.RewriteTransitionsEntry | airtrack/data/utils.py:57-67 | each destination gets the entry `Expected` gives its event after the serial events handed out before it in the state |
| TransitionTable.RewriteTransitionsKeys | airtrack/data/utils.py:57-67 | the new transitions have entries only for the state's own destinations |
| TransitionTable.RewriteTableShape | airtrack/data/utils.py:55-67 | each new state is the rewrite of its transitions, starting where the earlier states left the pool |
| TransitionTable.RewriteTableLength | airtrack/data/utils.py:55-56 | the new table has one entry per source state |
| TransitionTable.RewriteTableStep | airtrack/data/utils.py:55-67 | the table rewrite is the first state's rewrite followed by the rewrite of the other states with the remaining pool |
| TransitionTable.RewriteTableAt | airtrack/data/utils.py:55-67 | state `i` of the new table has its source name and is rewritten from the pool left by states before `i` |
| TransitionTable.NeedAppend | airtrack/data/utils.py:65-67 | the pops of two runs of transitions add up |
| TransitionTable.NeedTableAppend | airtrack/data/utils.py:55-67 | the pops of two runs of states add up |
| TransitionTable.NeedPrefixMonotone | airtrack/data/utils.py:57-67 | a longer prefix of a state's transitions pops at least as many events |
| TransitionTable.NeedTablePrefixMonotone | airtrack/data/utils.py:55-67 | a longer prefix of the table pops at least as many events |
| TransitionTable.PositionBelowNextState | airtrack/data/utils.py:55-67 | an event that takes a serial event is served before its state ends |
| TransitionTable.PositionOrder | airtrack/data/utils.py:55-67 | events are served in the order the two loops visit them |
| TransitionTable.PositionBound | airtrack/data/utils.py:55-67 | every event that takes a serial event is served from within the table's total need |
| TransitionTable.BpodifyFailures | airtrack/data/utils.py:51-67 | it raises BadSerialEventName iff a free serial event has no sort key, and NoSerialEventLeft iff all have keys but fewer are free than the table needs |
| TransitionTable.BpodifyKeepsDestinations | airtrack/data/utils.py:55-67 | every destination in the output is a destination of the same state in the input |
| TransitionTable.RewriteTableEntry | airtrack/data/utils.py:55-67 | the entry of the k-th destination of state i is `Expected` of its event at `Position(i, k)` |
| TransitionTable.BpodifyEntry | airtrack/data/utils.py:40-68 | the same for the whole function, whose pool is the sorted free serial events |
| TransitionTable.BpodifyRewritesEachEvent | airtrack/data/utils.py:57-67 | a Bpod event is copied; a parenthesised event has an entry iff it has a numeric word, the value of the last one as a float; any other event becomes pool[Position], which exists |
| TransitionTable.ReplacementIsFresh | airtrack/data/utils.py:48-52 | a replacement is a Bpod event starting with "Serial" that no transition of the input table uses |
| TransitionTable.ReplacementsDistinctAndOrdered | airtrack/data/utils.py:53-67 | two replaced events get different serial events, the earlier one in loop order the one with the smaller or equal key |
| TransitionTable.ExtendExtend | airtrack/data/utils.py:56-67 | appending to the output in two steps is appending once |
| TransitionTable.ParseTimer | airtrack/data/utils.py:62-64 | the inner loop over `event.split()` returns the value of the last numeric word |
| TransitionTable.RewriteState | airtrack/data/utils.py:56-67 | the loop over one state's transitions fails iff the specification does, and otherwise returns its new transitions and remaining pool |
| TransitionTable.AllKeyed | airtrack/data/utils.py:53-54 | the sort raises iff some free serial event has no key |
| TransitionTable.Bpodify | airtrack/data/utils.py:40-68 | the function with its loops returns exactly `BpodifySpec` |
| LaneMachine.CallbackOf | airtrack/src/sma/base.py:39-46 | the query, enter-lane and exit-lane states have callbacks; INITIATE has none |
| LaneMachine.RegistrationsOf | airtrack/src/sma/base.py:99-119 | one registration per state, in order, each the one `setup` builds for that state |
| LaneMachine.Conditions | airtrack/src/sma/base.py:110-114 | the dictionary comprehension of `setup`, a later transition with the same key overwriting an earlier one; `ConditionsLastWins` characterises it |
| LaneMachine.EffectiveTimer | airtrack/src/sma/base.py:117 | `state_timer or DEFAULT_TRANSITION_TIMER`: never 0, the timer itself when it is set and non-zero, else 0.1 |
| LaneMachine.RegistrationFor | airtrack/src/sma/base.py:100-119 | the `add_state` arguments for one state: its name, its callback and a non-zero timer; with other than one transition, the 0.1 s timer and the comprehension's conditions |
| LaneMachine.SingleTimerRegistration | airtrack/src/sma/base.py:102-109 | a lone numeric transition gives the condition `{Tup: dest}` and its value as the timer, or 0.1 when it is 0 |
| LaneMachine.SingleEventRegistration | airtrack/src/sma/base.py:102-109 | a lone named transition gives `{event: dest}` and the 0.1 s timer |
| LaneMachine.ConditionsLastWins | airtrack/src/sma/base.py:110-114 | the comprehension has a key for each event name, `Tup` for every timer, mapped to the destination of the last transition with that key |
| LaneMachine.SingleCaseIsComprehension | airtrack/src/sma/base.py:102-114 | with one transition the special case builds the same conditions as the comprehension |
| LaneMachine.RegisteredTimer | airtrack/src/sma/base.py:51 | the registered timer is never 0, and it is 0.1 unless the state has a single non-zero numeric transition |
| LaneMachine.SetupRegistersEachStateOnce | airtrack/src/sma/base.py:99-119 | `setup` registers the four members of the state enum once each, in enum order |
| LaneMachine.DestinationFor | airtrack/src/sma/base.py:69-72 | the destination is ENTER_LANE when the subject is inside and EXIT_LANE otherwise |
| LaneMachine.QueryEvent | airtrack/src/sma/base.py:68-74 | the event name the query state's transitions give the chosen lane, none when the state or the entry is missing or the entry is a timer; `QueryRoutesToLane` ties it to the registration |
| LaneMachine.LookupFindsFirst | airtrack/src/sma/base.py:73 | a destination that is found has that event in the state's transitions |
| LaneMachine.QueryRoutesToLane | airtrack/src/sma/base.py:68-74 | the event the query callback triggers is the one the registered query state follows to the lane the subject's position selects |
| LaneMachine.AirtrackStateMachine.constructor | airtrack/src/sma/base.py:53-57 | a new machine owns a new actuator on its board, AT_REST with peek enabled and no timing values, and has registered nothing |
| LaneMachine.AirtrackStateMachine.Setup | airtrack/src/sma/base.py:96-119 | registers the states in enum order; it fails iff some state is missing from the transitions map, and then the states before it are already registered |
| LaneMachine.AirtrackStateMachine.TriggerEvent | airtrack/src/sma/base.py:92-94 | triggers the event with strength 255; a board failure becomes a state-machine error |
| LaneMachine.AirtrackStateMachine.QuerySubject | airtrack/src/sma/base.py:66-74 | on success the event of the chosen lane was triggered with strength 255; a subject fault, a missing destination, a numeric event or a board failure is a state-machine error that triggers nothing |
| LaneMachine.AirtrackStateMachine.EnterLaneCallback | airtrack/src/sma/base.py:76-82 | always a state-machine error: `peek()` is called without its required `push_timeout` |
| LaneMachine.AirtrackStateMachine.ExitLaneCallback | airtrack/src/sma/base.py:84-90 | pulls; since `pull()` returns None no event is triggered; an actuator failure becomes a state-machine error |
| LaneMachine.AirtrackStateMachine.CleanUp | airtrack/src/sma/base.py:121-124 | afterwards the actuator is PULLING with peek enabled and the timing values cleared, or the call failed with a state-machine error |
| LegacyLaneMachine.CallbackOf | state_machine.py:43-46 | every state but INITIATE has a registered callback |
| LegacyLaneMachine.Step | state_machine.py:64-99 | the transitions of the four registered states as a function: Tup out of INITIATE and the lane states to RESET_SUBJECT_LOCATION, Serial1_1 and Serial1_2 out of it to the two lanes; `TableIsStep` proves it equals the registered conditions |
| LegacyLaneMachine.TableIsStep | state_machine.py:64-99 | `setup` registers each of the four states once, each with the 0.1 s timer, and each state's conditions are exactly the transitions of `Step` out of it |
| LegacyLaneMachine.LaneOutputsNeverBothHigh | state_machine.py:80-99 | only the two lane states have output actions, and after either one's writes the two lines are not both HIGH |
| LegacyLaneMachine.LaneLevels | state_machine.py:86-89 | ENTER_LANE sets BNC1 HIGH and BNC2 LOW; EXIT_LANE sets BNC1 LOW and BNC2 HIGH |
| LegacyLaneMachine.Routing | state_machine.py:49-54 | from RESET_SUBJECT_LOCATION, the event sent for an inside reading leads to ENTER_LANE in one step and the one for an outside reading to EXIT_LANE; the two events differ |
| LegacyLaneMachine.ClosedLoop | state_machine.py:72-99 | a run from RESET_SUBJECT_LOCATION that follows the readings enters the selected lane and returns on its timer each time, and never gets stuck |
| LegacyLaneMachine.StartThenLoop | state_machine.py:65-71 | INITIATE's timer leads into that loop |
| LegacyLaneMachine.LegacyStateMachine.constructor | state_machine.py:38-46 | a new machine has registered nothing |
| LegacyLaneMachine.LegacyStateMachine.Setup | state_machine.py:64-99 | appends the four fixed registrations in order |
| LegacyLaneMachine.LegacyStateMachine.ResetSubjectLocationCallback | state_machine.py:48-54 | triggers Serial1_1 for inside and Serial1_2 for outside, with strength 255; a subject fault or board failure propagates unwrapped and triggers nothing |

## Left out

- I/O: the CSV and state-diagram handling of `read_state_transition_table`, logging, `print` in the legacy callbacks and the camera behind the subject query. The parsed table, the attribute list of `Bpod.Events` and the subject's answer are parameters.
- The clock: the `time.time()` samples in `peek` are parameters `before` and `after`.
- Hardware and pybpodapi: the board is a log of writes and events whose calls may fail. How pybpodapi validates `add_state` arguments, and how it runs the registered states, are outside the model. The `Step` function of the legacy machine stands in for that run.
- The `callback` decorator's binding of `self` through `functools.partial`: the model records which callback each state has.
- `Bpod.Events` as a Python object: `dir` becomes a list of names with a callable flag.
- Unicode: `isupper`, `isnumeric` and `split()` are modelled on ASCII letters, digits and whitespace.
- Python's `int()` accepts a sign, surrounding whitespace and underscores between digits in the sort-key string. The model takes only plain digit runs as keys; a key with those extras is modelled as a name without a key.
- `float(c)` of a numeral is modelled as the numeral's exact value; floating-point rounding of very long numerals is not modelled.
- TransitionTable.SortByKey: does not prove that the sort is stable, though the insertion sort is.
- TransitionTable.Bpodify: the in-place `sort` and the `pop(0)` on the pool, and the dictionary the loop fills, are modelled on values, not on mutable lists and dictionaries.
- LaneMachine.AirtrackStateMachine.TriggerEvent: the board's refusal of an unknown event name is not told apart from its other failures; all are the board's nondeterministic failure.
- LaneMachine.AirtrackStateMachine.QuerySubject: when the lane's entry is a timer, the code passes a number to the board as an event name. The model treats that as a failure before the board is called.
- LaneMachine.AirtrackStateMachine.constructor: does not model `super().__init__` of pybpodapi's `StateMachine` nor the subject object. The subject is the `inside` parameter of `QuerySubject`.
- Actuator.AirtrackActuator.constructor: assumes the board powered up with both motor lines LOW (every output is LOW on an empty log) and requires the actuator to be built on a board coherent with rest. The code records AT_REST without writing or reading the outputs, so on a board whose BNC2 is already HIGH the first `push` would drive both lines HIGH; the model does not cover that board. The one caller builds the actuator on a fresh board.
- LaneMachine.AirtrackStateMachine.constructor: inherits the same assumption about the board.
- Actuator.AirtrackActuator.Peek: `at_rest_timeout` has no default; the code's default 0 is written as an explicit 0.0. With it the first `peek` pulls at once (`DefaultAtRestTimeoutPulls`), a case `PeekCycle`, which assumes positive timeouts, does not cover.
- `Airtrack.__init__` (airtrack/src/base.py) builds the state machine with one argument where its constructor takes two. That wiring is not part of this model.
- The `transitions` attribute of each state is never assigned in the files modelled. The model takes it as a parameter of the machine; a missing state makes `setup` fail.
- The actuator of the legacy machine (`actuator.py`) and its subject (`subject.py`) are not part of this model.
