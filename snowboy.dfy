/**
 * The hotword detector of snowboy.py. A hotword opens an episode
 * (`DETECT_START`) and opens the recording gate; the episode ends in
 * `DETECT_STOP` once voice activity was seen and then silence follows, or
 * in `DETECT_ABORT` when the timeout fires with no activity; either way the
 * detector returns to `LISTENING` with the gate closed again.
 *
 * The audio pipeline is reduced to the element properties the resource
 * sets (`listen` on the hotword element; `gate`, `silent` and
 * `minimum-silence-time` on the level element) and the timer to whether one
 * is armed.
 */
module Snowboy {
  import opened Values
  import opened Strings
  import opened Service

  const STATES: seq<string> := ["LISTENING", "DETECT_START", "DETECT_ABORT", "DETECT_STOP"]

  /** Why `_stop_recording` was called. */
  datatype Cause = Timeout | Silence

  /** The state this resource broadcasts: `{'state': name}`. */
  function Snapshot(name: string): Value
  {
    VDict(map["state" := VStr(name)])
  }

  lemma StatesAreUpper()
    ensures forall s :: s in STATES ==> Upper(s) == s
  {
    forall s | s in STATES
      ensures Upper(s) == s
    {
      UpperIsCanonical(s);
    }
  }

  class Detector {
    const path: string
    const machine: StateMachine
    /** `_activity_detected`. */
    var activity: bool
    /** `_timeout` is set: a timeout is armed. */
    var timeout: bool
    /** The `listen` property of the hotword element. */
    var listen: bool
    /** The `gate`, `silent` and `minimum-silence-time` properties of the
        level element. */
    var gate: bool
    var silent: bool
    var minSilence: int
    /** The states passed to `notify(path, ...)` so far, oldest first. */
    var broadcasts: seq<Value>

    ghost predicate Valid()
      reads this, machine
    {
      machine.Valid() && machine.allowed == STATES && machine.next == map[]
    }

    /** `__init__` followed by `on_start`: `LISTENING`, no activity, no
        timeout, the element properties as the pipeline description sets
        them, and one forced broadcast. */
    constructor (path: string, listen: bool, gate: bool, silent: bool, minSilence: int)
      ensures Valid() && fresh(machine)
      ensures this.path == path && machine.current == "LISTENING"
      ensures !activity && !timeout
      ensures this.listen == listen && this.gate == gate && this.silent == silent && this.minSilence == minSilence
      ensures broadcasts == [Snapshot("LISTENING")]
    {
      this.path := path;
      StatesAreUpper();
      machine := new StateMachine(STATES, map[], "LISTENING");
      activity := false;
      timeout := false;
      this.listen := listen;
      this.gate := gate;
      this.silent := silent;
      this.minSilence := minSilence;
      broadcasts := [];
      new;
      var r := SetStateInternal(VNone, true);
    }

    /** `_set_state_internal(state, force)`: a truthy state other than the
        current one is validated and applied; the `finally` clause
        broadcasts when forced or applied. */
    method SetStateInternal(state: Value, force: bool) returns (r: Outcome<ServiceError>)
      requires Valid()
      modifies this, machine
      ensures Valid()
      ensures activity == old(activity) && timeout == old(timeout)
      ensures listen == old(listen) && gate == old(gate) && silent == old(silent) && minSilence == old(minSilence)
      ensures var tried := Truthy(state) && state != VStr(old(machine.current));
              r == (if tried then machine.Try(old(machine.current), state) else Pass)
              && machine.current == (if tried && r.Pass? then Upper(state.s) else old(machine.current))
              && broadcasts == old(broadcasts) + (if force || (tried && r.Pass?) then [Snapshot(machine.current)] else [])
    {
      var changed;
      changed, r := Transition(machine, state);
      if changed || force {
        broadcasts := broadcasts + [Snapshot(machine.current)];
      }
    }

    /** Moves to one of the detector's own states. */
    method Enter(name: string)
      requires Valid() && name in STATES
      modifies this, machine
      ensures Valid()
      ensures activity == old(activity) && timeout == old(timeout)
      ensures listen == old(listen) && gate == old(gate) && silent == old(silent) && minSilence == old(minSilence)
      ensures machine.current == name
      ensures broadcasts == old(broadcasts) + (if name != old(machine.current) then [Snapshot(name)] else [])
    {
      StatesAreUpper();
      var r := SetStateInternal(VStr(name), false);
    }

    /** `_on_hotword_detect`: opens an episode. */
    method HotwordDetect()
      requires Valid()
      modifies this, machine
      ensures Valid()
      ensures machine.current == "DETECT_START" && !activity && timeout
      ensures !listen && !gate && !silent && minSilence == old(minSilence)
      ensures broadcasts == old(broadcasts)
                + (if old(machine.current) != "DETECT_START" then [Snapshot("DETECT_START")] else [])
    {
      Enter("DETECT_START");
      activity := false;
      listen := false;
      gate := false;
      silent := false;
      timeout := true;
    }

    /** `_stop_recording(cause)`: ends an open episode, in `DETECT_STOP`
        after activity and in `DETECT_ABORT` on a timeout without activity,
        then cancels the timeout, closes the gate and returns to
        `LISTENING`. Silence without activity, or no open episode, changes
        nothing. */
    method StopRecording(cause: Cause)
      requires Valid()
      modifies this, machine
      ensures Valid() && activity == old(activity)
      ensures var ends := old(machine.current) == "DETECT_START" && (old(activity) || cause == Timeout);
              if ends then
                machine.current == "LISTENING" && !timeout
                && listen && gate && silent && minSilence == 0
                && broadcasts == old(broadcasts)
                     + [Snapshot(if old(activity) then "DETECT_STOP" else "DETECT_ABORT"), Snapshot("LISTENING")]
              else
                machine.current == old(machine.current) && timeout == old(timeout)
                && listen == old(listen) && gate == old(gate) && silent == old(silent)
                && minSilence == old(minSilence) && broadcasts == old(broadcasts)
    {
      if machine.current == "DETECT_START" {
        if activity {
          Enter("DETECT_STOP");
        } else if cause == Timeout {
          Enter("DETECT_ABORT");
        } else {
          return;
        }
        if timeout {
          timeout := false;
        }
        listen := true;
        gate := true;
        silent := true;
        minSilence := 0;
        Enter("LISTENING");
      }
    }

    /** `_vad_timeout`: the armed timeout fires. It ends the episode only
        when no activity was seen, always disarms, and returns `False` so
        the timer does not repeat. */
    method VadTimeout() returns (again: bool)
      requires Valid()
      modifies this, machine
      ensures Valid() && !again && !timeout && activity == old(activity)
      ensures var aborts := old(machine.current) == "DETECT_START" && !old(activity);
              machine.current == (if aborts then "LISTENING" else old(machine.current))
              && (if aborts then listen && gate && silent && minSilence == 0
                  else listen == old(listen) && gate == old(gate) && silent == old(silent)
                       && minSilence == old(minSilence))
              && broadcasts == old(broadcasts)
                   + (if aborts then [Snapshot("DETECT_ABORT"), Snapshot("LISTENING")] else [])
    {
      if !activity {
        StopRecording(Timeout);
      }
      timeout := false;
      again := false;
    }

    /** `_vad_silence_detected`. */
    method SilenceDetected()
      requires Valid()
      modifies this, machine
      ensures Valid() && activity == old(activity)
      ensures var stops := old(machine.current) == "DETECT_START" && old(activity);
              machine.current == (if stops then "LISTENING" else old(machine.current))
              && (if stops then !timeout && listen && gate && silent && minSilence == 0
                  else timeout == old(timeout) && listen == old(listen) && gate == old(gate)
                       && silent == old(silent) && minSilence == old(minSilence))
              && broadcasts == old(broadcasts)
                   + (if stops then [Snapshot("DETECT_STOP"), Snapshot("LISTENING")] else [])
    {
      StopRecording(Silence);
    }

    /** `_vad_silence_finished`: voice activity seen; the level element
        then waits `minSilence` nanoseconds of silence before reporting. */
    method SilenceFinished(minSilence: int)
      requires Valid()
      modifies this
      ensures activity && this.minSilence == minSilence
      ensures timeout == old(timeout) && listen == old(listen) && gate == old(gate) && silent == old(silent)
      ensures broadcasts == old(broadcasts)
    {
      activity := true;
      this.minSilence := minSilence;
    }

    /** `_on_bus_message`: an element message from the level element whose
        text mentions `silence_detected` or, failing that,
        `silence_finished`. */
    method BusMessage(fromLevel: bool, text: string, minSilence: int)
      requires Valid()
      modifies this, machine
      ensures Valid()
      ensures !fromLevel || (!Contains(text, "silence_detected") && !Contains(text, "silence_finished")) ==>
                machine.current == old(machine.current) && activity == old(activity)
                && timeout == old(timeout) && listen == old(listen) && gate == old(gate)
                && silent == old(silent) && this.minSilence == old(this.minSilence)
                && broadcasts == old(broadcasts)
      ensures fromLevel && !Contains(text, "silence_detected") && Contains(text, "silence_finished") ==>
                activity && this.minSilence == minSilence && machine.current == old(machine.current)
                && timeout == old(timeout) && listen == old(listen) && gate == old(gate)
                && silent == old(silent) && broadcasts == old(broadcasts)
      ensures fromLevel && Contains(text, "silence_detected") ==>
                activity == old(activity)
                && var stops := old(machine.current) == "DETECT_START" && old(activity);
                   machine.current == (if stops then "LISTENING" else old(machine.current))
                   && (if stops then !timeout && listen && gate && silent && this.minSilence == 0
                       else timeout == old(timeout) && listen == old(listen) && gate == old(gate)
                            && silent == old(silent) && this.minSilence == old(this.minSilence))
                   && broadcasts == old(broadcasts)
                        + (if stops then [Snapshot("DETECT_STOP"), Snapshot("LISTENING")] else [])
    {
      if fromLevel {
        if Contains(text, "silence_detected") {
          SilenceDetected();
        } else if Contains(text, "silence_finished") {
          SilenceFinished(minSilence);
        }
      }
    }
  }
}
