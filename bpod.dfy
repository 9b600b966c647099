/** The Bpod board, an external collaborator: it records the BNC output writes
    and the event triggers it is sent, and it may fail any call. */
module Bpod {

  /** The two BNC output values the system writes. */
  const LOW: int := 0
  const HIGH: int := 255

  /** The name of the Bpod state-timer event. */
  const TUP: string := "Tup"

  datatype BncWrite = BncWrite(channel: nat, value: int)

  datatype EventTrigger = EventTrigger(name: string, strength: nat)

  /** The level of BNC output `channel` after the writes in `log`; every
      output is LOW at power-up. */
  function Level(log: seq<BncWrite>, channel: nat): int
  {
    if log == [] then LOW
    else if log[|log| - 1].channel == channel then log[|log| - 1].value
    else Level(log[..|log| - 1], channel)
  }

  /** Both actuator direction lines are energised. */
  predicate BothHigh(log: seq<BncWrite>)
  {
    Level(log, 1) == HIGH && Level(log, 2) == HIGH
  }

  lemma LevelAfterWrite(log: seq<BncWrite>, w: BncWrite, channel: nat)
    ensures Level(log + [w], channel) == if w.channel == channel then w.value else Level(log, channel)
  {
    assert (log + [w])[..|log|] == log;
  }

  class Board {
    var outputs: seq<BncWrite>
    var events: seq<EventTrigger>

    constructor ()
      ensures outputs == [] && events == []
    {
      outputs, events := [], [];
    }

    /** `manual_override` of a BNC output. The transport may fail, in which
        case nothing is written. The board itself accepts any write; the
        precondition is a safety obligation the model places on every caller:
        no write may leave both direction lines HIGH. */
    method ManualOverride(channel: nat, value: int) returns (ok: bool)
      requires !BothHigh(outputs + [BncWrite(channel, value)])
      modifies this
      ensures events == old(events)
      ensures outputs == if ok then old(outputs) + [BncWrite(channel, value)] else old(outputs)
    {
      ok :| true;
      if ok {
        outputs := outputs + [BncWrite(channel, value)];
      }
    }

    /** `trigger_event_by_name`; may fail like any call to the board. */
    method TriggerEventByName(name: string, strength: nat) returns (ok: bool)
      modifies this
      ensures outputs == old(outputs)
      ensures events == if ok then old(events) + [EventTrigger(name, strength)] else old(events)
    {
      ok :| true;
      if ok {
        events := events + [EventTrigger(name, strength)];
      }
    }
  }
}
