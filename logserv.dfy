/**
 * The logging control resource of logserv.py: an `ON`/`OFF` state and a
 * debug level, each held by its own state machine. Setting a debug level
 * also sets the root logger's level.
 */
module LogService {
  import opened Values
  import opened Strings
  import opened Service

  const LEVELS: seq<string> := ["WARN", "INFO", "ERROR", "DEBUG"]

  /** The level arguments that move the root logger's level. */
  const LOGGER_LEVELS: set<Value> := {VStr("DEBUG"), VStr("WARN"), VStr("ERROR"), VStr("INFO")}

  /** A stored state name the setter accepts again, so writing it back is a
      no-op. */
  lemma Reassign(m: StateMachine)
    requires m.Valid() && m.next == map[]
    ensures m.Try(m.current, VStr(m.current)) == Pass
    ensures Upper(m.current) == m.current
  {
    UpperIsCanonical(m.current);
  }

  /** `payload.get(key, None)` on a dictionary. */
  function Entry(fields: map<string, Value>, key: string): Value
  {
    if key in fields then fields[key] else VNone
  }

  /** `validate` of a machine without a successor table: a string whose
      upper-case form is recognised passes; another string raises
      `ServiceUnrecognisedState`; anything else has no `upper`. */
  function Accept(allowed: seq<string>, v: Value): (r: Outcome<ServiceError>)
    ensures r.Pass? <==> v.VStr? && Upper(v.s) in allowed
  {
    if !v.VStr? then Fail(Python(AttributeError))
    else if Upper(v.s) in allowed then Pass
    else Fail(UnrecognisedState)
  }

  lemma TryIsAccept(m: StateMachine, from: string, v: Value)
    requires m.next == map[]
    ensures m.Try(from, v) == Accept(m.allowed, v)
  {
  }

  /** What `_set_state_internal` does: the exception raised, the stored
      state and level, and whether it notifies. */
  datatype Effect = Effect(result: Outcome<ServiceError>, state: string, level: string, notify: bool)

  /** `_set_state_internal(state, debug_level)` from stored `cur` and
      `lvl`: `changed` compares the raw arguments with the stored names
      before anything is written; the state is written (a falsy one writes
      the stored name back), then the level; a rejection raises at once, so
      a rejected state also keeps the level, and a raise comes before the
      notification. */
  function Internal(cur: string, lvl: string, state: Value, debugLevel: Value): Effect
  {
    var changed := (Truthy(state) && state != VStr(cur)) || (Truthy(debugLevel) && debugLevel != VStr(lvl));
    var r1 := if Truthy(state) then Accept(["ON", "OFF"], state) else Pass;
    if r1.Fail? then Effect(r1, cur, lvl, false)
    else
      var cur' := if Truthy(state) then Upper(state.s) else cur;
      var r2 := if Truthy(debugLevel) then Accept(LEVELS, debugLevel) else Pass;
      if r2.Fail? then Effect(r2, cur', lvl, false)
      else Effect(Pass, cur', if Truthy(debugLevel) then Upper(debugLevel.s) else lvl, changed)
  }

  /** Writing back what `get_state` returned is accepted, changes nothing
      and notifies no one. */
  lemma WriteBackIsSilent(cur: string, lvl: string)
    requires cur in ["ON", "OFF"] && lvl in LEVELS
    ensures Internal(cur, lvl, VStr(cur), VStr(lvl)) == Effect(Pass, cur, lvl, false)
  {
    UpperIsCanonical(cur);
    UpperIsCanonical(lvl);
    assert IsUpper(cur) && IsUpper(lvl);
  }

  /** A supplied value that differs from the stored one by raw comparison
      notifies even when it names the stored state in another case. */
  lemma CaseVariantNotifies(lvl: string)
    requires lvl in LEVELS
    ensures Internal("ON", lvl, VStr("on"), VNone) == Effect(Pass, "ON", lvl, true)
  {
    assert Upper("on") == "ON";
  }

  /** A rejected state raises before the level is written, and nothing is
      notified. */
  lemma RejectedStateKeepsLevel(cur: string, lvl: string, state: Value, debugLevel: Value)
    requires Truthy(state) && Accept(["ON", "OFF"], state).Fail?
    ensures Internal(cur, lvl, state, debugLevel) == Effect(Accept(["ON", "OFF"], state), cur, lvl, false)
  {
  }

  class LogService {
    const path: string
    /** `_state`: whether logging is on. */
    const machine: StateMachine
    /** `_debug_level`. */
    const level: StateMachine
    /** The root logger's `setLevel` calls, oldest first. */
    var levels: seq<string>
    /** The states passed to `notify(path, ...)` so far, oldest first. */
    var broadcasts: seq<Value>

    ghost predicate Valid()
      reads this, machine, level
    {
      machine != level
      && machine.Valid() && machine.allowed == ["ON", "OFF"] && machine.next == map[]
      && level.Valid() && level.allowed == LEVELS && level.next == map[]
    }

    /** `get_state`. */
    function State(): (r: Value)
      reads this, machine, level
      ensures r.VDict? && r.fields.Keys == {"state", "debug_level"}
    {
      VDict(map["state" := VStr(machine.current), "debug_level" := VStr(level.current)])
    }

    /** `__init__` with a recognised level: the level is the upper-cased
        configured one, the state is `ON` exactly when enabled, the root
        logger gets that level, and nothing is broadcast because the values
        written back equal the stored ones. */
    constructor (path: string, levelName: string, enable: bool)
      requires Upper(levelName) in LEVELS
      ensures Valid() && fresh(machine) && fresh(level)
      ensures this.path == path
      ensures level.current == Upper(levelName)
      ensures machine.current == (if enable then "ON" else "OFF")
      ensures levels == [Upper(levelName)] && broadcasts == []
    {
      this.path := path;
      level := new StateMachine(LEVELS, map[], levelName);
      UpperIsCanonical("ON");
      UpperIsCanonical("OFF");
      machine := new StateMachine(["ON", "OFF"], map[], if enable then "ON" else "OFF");
      levels := [];
      broadcasts := [];
      new;
      Reassign(machine);
      Reassign(level);
      assert VStr(level.current) in LOGGER_LEVELS by {
        assert level.current in LEVELS;
      }
      var r := SetStateInternal(VStr(machine.current), VStr(level.current));
    }

    /** `__init__` for any configured level: an unrecognised one raises
        `ServiceUnrecognisedState` from the level's state machine. */
    static method Create(path: string, levelName: string, enable: bool) returns (r: Result<LogService, ServiceError>)
      ensures r.Ok? <==> Upper(levelName) in LEVELS
      ensures r.Err? ==> r.error == UnrecognisedState
      ensures r.Ok? ==> fresh(r.value) && r.value.Valid() && r.value.broadcasts == []
      ensures r.Ok? ==> r.value.level.current == Upper(levelName)
      ensures r.Ok? ==> r.value.machine.current == (if enable then "ON" else "OFF")
    {
      if Upper(levelName) in LEVELS {
        var s := new LogService(path, levelName, enable);
        r := Ok(s);
      } else {
        r := Err(UnrecognisedState);
      }
    }

    /** `_set_state_internal(state, debug_level)`; `VNone` stands for an
        argument left out. The root logger level follows an exact level
        name; the rest is `Internal`. */
    method SetStateInternal(state: Value, debugLevel: Value) returns (r: Outcome<ServiceError>)
      requires Valid()
      modifies this, machine, level
      ensures Valid()
      ensures levels == old(levels) + (if debugLevel in LOGGER_LEVELS then [debugLevel.s] else [])
      ensures var e := Internal(old(machine.current), old(level.current), state, debugLevel);
              r == e.result && machine.current == e.state && level.current == e.level
              && broadcasts == old(broadcasts) + (if e.notify then [State()] else [])
    {
      if debugLevel in LOGGER_LEVELS {
        levels := levels + [debugLevel.s];
      }
      var changed := (Truthy(state) && state != VStr(machine.current))
                     || (Truthy(debugLevel) && debugLevel != VStr(level.current));
      Reassign(machine);
      Reassign(level);
      TryIsAccept(machine, machine.current, if Truthy(state) then state else VStr(machine.current));
      r := machine.Assign(if Truthy(state) then state else VStr(machine.current));
      if r.Fail? {
        return;
      }
      TryIsAccept(level, level.current, if Truthy(debugLevel) then debugLevel else VStr(level.current));
      r := level.Assign(if Truthy(debugLevel) then debugLevel else VStr(level.current));
      if r.Fail? {
        return;
      }
      if changed {
        broadcasts := broadcasts + [State()];
      }
    }

    /** `set_state(payload)`: `_set_state_internal` of the `state` and
        `debug_level` entries, each left out when absent; a payload that is
        not a dictionary has no `get` and raises `AttributeError` with
        nothing changed. */
    method SetState(payload: Value) returns (r: Outcome<ServiceError>)
      requires Valid()
      modifies this, machine, level
      ensures Valid()
      ensures !payload.VDict? ==> r == Fail(Python(AttributeError)) && broadcasts == old(broadcasts)
                                  && levels == old(levels)
                                  && machine.current == old(machine.current) && level.current == old(level.current)
      ensures payload.VDict? ==>
                var s := Entry(payload.fields, "state");
                var d := Entry(payload.fields, "debug_level");
                var e := Internal(old(machine.current), old(level.current), s, d);
                r == e.result && machine.current == e.state && level.current == e.level
                && levels == old(levels) + (if d in LOGGER_LEVELS then [d.s] else [])
                && broadcasts == old(broadcasts) + (if e.notify then [State()] else [])
    {
      var s := GetOr(payload, "state", VNone);
      var d := GetOr(payload, "debug_level", VNone);
      if s.Err? || d.Err? {
        return Fail(Python(AttributeError));
      }
      r := SetStateInternal(s.value, d.value);
    }
  }
}
