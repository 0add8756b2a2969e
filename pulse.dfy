/**
 * The PulseAudio resource of pulse.py (the `Pulse` resource; its
 * `PulseClient` is not part of this model): it follows the hotword
 * detector, the recognised intents and the input actions, and asks the
 * client to step, set or mute the default sink's volume. While the
 * detector listens to a phrase the sink is muted (ducking) and afterwards
 * its earlier mute flag is restored.
 *
 * The client is the outside world: the requests made of it are a log, and
 * the mute flag it reports is a parameter.
 */
module Pulse {
  import opened Values
  import opened Strings
  import opened Service
  import opened StateChange
  import opened Dispatch

  const DETECTOR: string := "/speech/detector"
  const INTENT: string := "/speech/intent"
  const INPUT: string := "/input"

  /** A request made of the client. */
  datatype Command = Increment(step: int) | Decrement(step: int) | SetLevel(level: Value) | SetMute(muted: bool)

  /** `volume_ducking`, `local_volume_control`, `volume_step_size` and
      `own_location`. */
  datatype Settings = Settings(ducking: bool, local: bool, step: int, own: string)

  /** Where a run of requests stopped: the requests made, and the error
      raised, if any. */
  datatype Run = Run(log: seq<Command>, error: Option<PyError>)

  /** `_volume_higher`, `_volume_lower` and `_mute`: one request, under
      local control only. */
  function Local(log: seq<Command>, cfg: Settings, c: Command): (r: seq<Command>)
    ensures |log| <= |r| <= |log| + 1 && r[..|log|] == log
    ensures |r| == |log| + 1 <==> cfg.local
    ensures cfg.local ==> r[|log|] == c
  {
    if cfg.local then log + [c] else log
  }

  /** The inner loop of `_volume`: a location equal to the own location
      sets the level, under local control. */
  function Locations(log: seq<Command>, cfg: Settings, level: Value, locs: seq<Value>): (r: Run)
    ensures |log| <= |r.log| && r.log[..|log|] == log
    decreases |locs|
  {
    if locs == [] then Run(log, None)
    else
      match Subscript(locs[0], "value")
      case Err(e) => Run(log, Some(e))
      case Ok(location) =>
        Locations(if location == VStr(cfg.own) && cfg.local then log + [SetLevel(level)] else log, cfg, level, locs[1..])
  }

  /** One level of `_volume`. */
  function AtLevel(log: seq<Command>, cfg: Settings, level: Value, locations: Value): (r: Run)
    ensures |log| <= |r.log| && r.log[..|log|] == log
  {
    if Truthy(locations) then
      match Iterate(locations)
      case Err(e) => Run(log, Some(e))
      case Ok(locs) => Locations(log, cfg, level, locs)
    else Run(Local(log, cfg, SetLevel(level)), None)
  }

  /** The outer loop of `_volume`. */
  function Levels(log: seq<Command>, cfg: Settings, levels: seq<Value>, locations: Value): (r: Run)
    ensures |log| <= |r.log| && r.log[..|log|] == log
    decreases |levels|
  {
    if levels == [] then Run(log, None)
    else
      match Subscript(levels[0], "value")
      case Err(e) => Run(log, Some(e))
      case Ok(level) =>
        var r := AtLevel(log, cfg, level, locations);
        if r.error.Some? then r else Levels(r.log, cfg, levels[1..], locations)
  }

  /** `_volume(entities)`. */
  function SetVolumes(log: seq<Command>, cfg: Settings, entities: Value): (r: Run)
    ensures !entities.VDict? ==> r == Run(log, Some(AttributeError))
  {
    match GetOr(entities, "room:room", VList([]))
    case Err(e) => Run(log, Some(e))
    case Ok(locations) =>
      match GetOr(entities, "wit$number:level", VList([]))
      case Err(e) => Run(log, Some(e))
      case Ok(levels) =>
        match Iterate(levels)
        case Err(e) => Run(log, Some(e))
        case Ok(ls) => Levels(log, cfg, ls, locations)
  }

  /** One intent's requests. */
  function Apply(log: seq<Command>, cfg: Settings, intent: VolumeIntent, entities: Value): (r: Run)
  {
    match intent
    case Unmute => Run(Local(log, cfg, SetMute(false)), None)
    case Mute => Run(Local(log, cfg, SetMute(true)), None)
    case Louder => Run(Local(log, cfg, Increment(cfg.step)), None)
    case Lower => Run(Local(log, cfg, Decrement(cfg.step)), None)
    case Level => SetVolumes(log, cfg, entities)
    case Ignored => Run(log, None)
  }

  /** The loop of `process_intent`. */
  function Intents(log: seq<Command>, cfg: Settings, intents: seq<Value>, entities: Value): (r: Run)
    decreases |intents|
  {
    if intents == [] then Run(log, None)
    else
      match Subscript(intents[0], "name")
      case Err(e) => Run(log, Some(e))
      case Ok(action) =>
        match IntentOf(action)
        case Err(e) => Run(log, Some(e))
        case Ok(intent) =>
          var r := Apply(log, cfg, intent, entities);
          if r.error.Some? then r else Intents(r.log, cfg, intents[1..], entities)
  }

  /** Without local control the client is never asked anything, whatever
      the intents and entities. */
  lemma {:induction false} SilentWithoutLocal(log: seq<Command>, cfg: Settings, intents: seq<Value>, entities: Value)
    requires !cfg.local
    ensures Intents(log, cfg, intents, entities).log == log
    decreases |intents|
  {
    if intents != [] && Subscript(intents[0], "name").Ok? && IntentOf(Subscript(intents[0], "name").value).Ok? {
      var intent := IntentOf(Subscript(intents[0], "name").value).value;
      if intent == Level {
        SetVolumesSilent(log, cfg, entities);
      }
      var r := Apply(log, cfg, intent, entities);
      if r.error.None? {
        SilentWithoutLocal(r.log, cfg, intents[1..], entities);
      }
    }
  }

  /** `_volume` without local control asks nothing. */
  lemma SetVolumesSilent(log: seq<Command>, cfg: Settings, entities: Value)
    requires !cfg.local
    ensures SetVolumes(log, cfg, entities).log == log
  {
    var locations := GetOr(entities, "room:room", VList([]));
    var levels := GetOr(entities, "wit$number:level", VList([]));
    if locations.Ok? && Iterate(levels.value).Ok? {
      LevelsSilent(log, cfg, Iterate(levels.value).value, locations.value);
    }
  }

  lemma {:induction false} LevelsSilent(log: seq<Command>, cfg: Settings, levels: seq<Value>, locations: Value)
    requires !cfg.local
    ensures Levels(log, cfg, levels, locations).log == log
    decreases |levels|
  {
    if levels != [] && Subscript(levels[0], "value").Ok? {
      var level := Subscript(levels[0], "value").value;
      if Truthy(locations) && Iterate(locations).Ok? {
        LocationsSilent(log, cfg, level, Iterate(locations).value);
      }
      LevelsSilent(log, cfg, levels[1..], locations);
    }
  }

  lemma {:induction false} LocationsSilent(log: seq<Command>, cfg: Settings, level: Value, locs: seq<Value>)
    requires !cfg.local
    ensures Locations(log, cfg, level, locs).log == log
    decreases |locs|
  {
    if locs != [] {
      LocationsSilent(log, cfg, level, locs[1..]);
    }
  }

  /** `{'value': v}` entries. */
  function Entries(vs: seq<Value>): (r: seq<Value>)
    ensures |r| == |vs| && forall i :: 0 <= i < |vs| ==> r[i] == VDict(map["value" := vs[i]])
  {
    seq(|vs|, i requires 0 <= i < |vs| => VDict(map["value" := vs[i]]))
  }

  /** How many of the named locations are the own one. */
  function Hits(own: string, locs: seq<Value>): (n: nat)
    ensures n <= |locs|
    ensures VStr(own) !in locs ==> n == 0
  {
    if locs == [] then 0 else (if locs[0] == VStr(own) then 1 else 0) + Hits(own, locs[1..])
  }

  /** A request repeated `n` times. */
  function Times(c: Command, n: nat): (r: seq<Command>)
    ensures |r| == n && forall i :: 0 <= i < n ==> r[i] == c
  {
    if n == 0 then [] else [c] + Times(c, n - 1)
  }

  /** With named locations, a level is set once for each naming of the
      own location, and only under local control: other rooms' levels are
      not this resource's business. */
  lemma {:induction false} OwnLocationOnly(log: seq<Command>, cfg: Settings, level: Value, locs: seq<Value>)
    ensures Locations(log, cfg, level, Entries(locs))
            == Run(log + (if cfg.local then Times(SetLevel(level), Hits(cfg.own, locs)) else []), None)
    decreases |locs|
  {
    if locs != [] {
      assert Entries(locs)[1..] == Entries(locs[1..]);
      var next := if locs[0] == VStr(cfg.own) && cfg.local then log + [SetLevel(level)] else log;
      OwnLocationOnly(next, cfg, level, locs[1..]);
      if cfg.local && locs[0] == VStr(cfg.own) {
        assert Times(SetLevel(level), Hits(cfg.own, locs)) == [SetLevel(level)] + Times(SetLevel(level), Hits(cfg.own, locs[1..]));
      }
    }
  }

  /** The ducking part of `notify` for a detector state, given the mute
      flag the client reports: `DETECT_START` saves it and mutes;
      `DETECT_STOP` and `DETECT_ABORT` restore the saved flag, which raises
      `AttributeError` when no phrase started yet. */
  function Duck(log: seq<Command>, saved: Option<bool>, reported: bool, phase: Value): (r: (Run, Option<bool>))
  {
    if phase == VStr("DETECT_START") then (Run(log + [SetMute(true)], None), Some(reported))
    else if phase == VStr("DETECT_STOP") || phase == VStr("DETECT_ABORT") then
      if saved.None? then (Run(log, Some(AttributeError)), saved) else (Run(log + [SetMute(saved.value)], None), saved)
    else (Run(log, None), saved)
  }

  /** A phrase asks the client to mute and then to restore the flag it
      reported when the phrase started; stopping before any start raises. */
  lemma DuckRestores(log: seq<Command>, saved: Option<bool>, reported: bool, later: bool, end: Value)
    requires end == VStr("DETECT_STOP") || end == VStr("DETECT_ABORT")
    ensures var (r1, s1) := Duck(log, saved, reported, VStr("DETECT_START"));
            s1 == Some(reported)
            && Duck(r1.log, s1, later, end).0 == Run(log + [SetMute(true), SetMute(reported)], None)
    ensures Duck(log, None, reported, end).0.error == Some(AttributeError)
  {
  }

  lemma StatesAreUpper()
    ensures Upper("READY") == "READY"
  {
    UpperIsCanonical("READY");
  }

  class Pulse {
    const path: string
    const self: ActorId
    const cfg: Settings
    const machine: StateMachine
    /** The requests made of the client, oldest first. */
    var requests: seq<Command>
    /** `_mute_state`, unset until a phrase starts. */
    var muteState: Option<bool>
    /** The states passed to `notify(path, ...)` so far, oldest first. */
    var broadcasts: seq<Value>

    ghost predicate Valid()
      reads this, machine
    {
      machine.Valid() && machine.allowed == ["READY"] && machine.next == map[]
    }

    /** `__init__` followed by `on_start`: subscriptions to the detector,
        the intents and the input, then `READY` with one forced
        broadcast. */
    constructor (path: string, self: ActorId, cfg: Settings, changes: StateChangeRegistry)
      requires changes.Valid()
      modifies changes
      ensures Valid() && fresh(machine) && machine.current == "READY"
      ensures this.path == path && this.self == self && this.cfg == cfg
      ensures requests == [] && muteState == None
      ensures broadcasts == [VDict(map["state" := VStr("READY")])]
      ensures changes.Valid() && old(changes.subs) <= changes.subs
      ensures forall p :: p in [DETECTOR, INTENT, INPUT] ==> (self, p) in changes.subs
      ensures forall s :: s in changes.subs ==> s in old(changes.subs) || (s.0 == self && s.1 in [DETECTOR, INTENT, INPUT])
    {
      this.path := path;
      this.self := self;
      this.cfg := cfg;
      StatesAreUpper();
      machine := new StateMachine(["READY"], map[], "READY");
      requests := [];
      muteState := None;
      broadcasts := [];
      new;
      changes.RegisterEach(self, [DETECTOR, INTENT, INPUT]);
      var r := SetStateInternal(VNone, true);
    }

    /** `_set_state_internal(state, force)`: broadcasts only when forced or
        when the state really changed. */
    method SetStateInternal(state: Value, force: bool) returns (r: Outcome<ServiceError>)
      requires Valid()
      modifies this, machine
      ensures Valid() && requests == old(requests) && muteState == old(muteState)
      ensures var tried := Truthy(state) && state != VStr(old(machine.current));
              r == (if tried then machine.Try(old(machine.current), state) else Pass)
              && machine.current == (if tried && r.Pass? then Upper(state.s) else old(machine.current))
              && broadcasts == old(broadcasts)
                   + (if force || (tried && r.Pass?) then [VDict(map["state" := VStr(machine.current)])] else [])
    {
      var changed;
      changed, r := Transition(machine, state);
      if changed || force {
        broadcasts := broadcasts + [VDict(map["state" := VStr(machine.current)])];
      }
    }

    /** `_volume_higher`, `_volume_lower` and `_mute`. */
    method Request(c: Command)
      modifies this
      ensures requests == Local(old(requests), cfg, c)
      ensures muteState == old(muteState) && broadcasts == old(broadcasts)
    {
      if cfg.local {
        requests := requests + [c];
      }
    }

    /** The inner loop of `_volume`. */
    method SetLocations(level: Value, locs: seq<Value>) returns (r: Outcome<PyError>)
      modifies this
      ensures var run := Locations(old(requests), cfg, level, locs);
              requests == run.log && r == Done(run.error)
      ensures muteState == old(muteState) && broadcasts == old(broadcasts)
    {
      ghost var log0 := requests;
      var j := 0;
      while j < |locs|
        invariant 0 <= j <= |locs|
        invariant Locations(log0, cfg, level, locs) == Locations(requests, cfg, level, locs[j..])
        invariant muteState == old(muteState) && broadcasts == old(broadcasts)
      {
        assert locs[j..][1..] == locs[j + 1..];
        var location := Subscript(locs[j], "value");
        if location.Err? {
          return Fail(location.error);
        }
        if location.value == VStr(cfg.own) && cfg.local {
          requests := requests + [SetLevel(level)];
        }
        j := j + 1;
      }
      r := Pass;
    }

    /** `_volume(entities)`. */
    method Volume(entities: Value) returns (r: Outcome<PyError>)
      modifies this
      ensures var run := SetVolumes(old(requests), cfg, entities);
              requests == run.log && r == Done(run.error)
      ensures muteState == old(muteState) && broadcasts == old(broadcasts)
    {
      var locations := GetOr(entities, "room:room", VList([]));
      if locations.Err? {
        return Fail(locations.error);
      }
      var levels := GetOr(entities, "wit$number:level", VList([])).value;
      var xs := Iterate(levels);
      if xs.Err? {
        return Fail(xs.error);
      }
      ghost var log0 := requests;
      var i := 0;
      while i < |xs.value|
        invariant 0 <= i <= |xs.value|
        invariant Levels(log0, cfg, xs.value, locations.value) == Levels(requests, cfg, xs.value[i..], locations.value)
        invariant SetVolumes(log0, cfg, entities) == Levels(log0, cfg, xs.value, locations.value)
        invariant muteState == old(muteState) && broadcasts == old(broadcasts)
      {
        assert xs.value[i..][1..] == xs.value[i + 1..];
        var level := Subscript(xs.value[i], "value");
        if level.Err? {
          return Fail(level.error);
        }
        if Truthy(locations.value) {
          var ys := Iterate(locations.value);
          if ys.Err? {
            return Fail(ys.error);
          }
          r := SetLocations(level.value, ys.value);
          if r.Fail? {
            return;
          }
        } else {
          Request(SetLevel(level.value));
        }
        i := i + 1;
      }
      r := Pass;
    }

    /** `process_intent(intents, entities)`. */
    method ProcessIntent(intents: Value, entities: Value) returns (r: Outcome<PyError>)
      modifies this
      ensures var run := match Iterate(intents)
                         case Err(e) => Run(old(requests), Some(e))
                         case Ok(xs) => Intents(old(requests), cfg, xs, entities);
              requests == run.log && r == Done(run.error)
      ensures muteState == old(muteState) && broadcasts == old(broadcasts)
    {
      var xs := Iterate(intents);
      if xs.Err? {
        return Fail(xs.error);
      }
      ghost var log0 := requests;
      var i := 0;
      while i < |xs.value|
        invariant 0 <= i <= |xs.value|
        invariant Intents(log0, cfg, xs.value, entities) == Intents(requests, cfg, xs.value[i..], entities)
        invariant muteState == old(muteState) && broadcasts == old(broadcasts)
      {
        assert xs.value[i..][1..] == xs.value[i + 1..];
        var action := Subscript(xs.value[i], "name");
        if action.Err? {
          return Fail(action.error);
        }
        var intent := IntentOf(action.value);
        if intent.Err? {
          return Fail(intent.error);
        }
        match intent.value {
          case Unmute => Request(SetMute(false));
          case Mute => Request(SetMute(true));
          case Louder => Request(Increment(cfg.step));
          case Lower => Request(Decrement(cfg.step));
          case Level =>
            r := Volume(entities);
            if r.Fail? {
              return;
            }
          case Ignored =>
        }
        i := i + 1;
      }
      r := Pass;
    }

    /** `handle_input_action(action)`. */
    method HandleInputAction(action: Value) returns (r: Outcome<PyError>)
      modifies this
      ensures var a := ActionOf(action);
              r == (if a.Err? then Fail(a.error) else Pass)
              && requests == (if a == Ok(Raise) then Local(old(requests), cfg, Increment(cfg.step))
                              else if a == Ok(Reduce) then Local(old(requests), cfg, Decrement(cfg.step))
                              else old(requests))
      ensures muteState == old(muteState) && broadcasts == old(broadcasts)
    {
      var a := ActionOf(action);
      if a.Err? {
        return Fail(a.error);
      }
      r := Pass;
      if a.value == Raise {
        Request(Increment(cfg.step));
      } else if a.value == Reduce {
        Request(Decrement(cfg.step));
      }
    }

    /** `notify(path, state)`, given the mute flag the client reports:
        ducking on detector states when ducking and local control are both
        on; an `INTENT` state from exactly the intent path forwards its
        intents and entities; an `ACTION` state from exactly the input path
        forwards its action. `r` is what `notify` itself raises;
        `forwarded` what the forwarded call raises when the actor runs
        it. */
    method Notify(path: string, state: Value, reported: bool) returns (r: Outcome<PyError>, forwarded: Outcome<PyError>)
      modifies this
      ensures broadcasts == old(broadcasts)
      ensures forwarded.Fail? ==> r.Pass?
      ensures var s := Subscript(state, "state");
              path == DETECTOR && cfg.ducking && cfg.local ==>
                forwarded == Pass
                && (s.Err? ==> r == Fail(s.error) && requests == old(requests) && muteState == old(muteState))
                && (s.Ok? ==> var (run, saved) := Duck(old(requests), old(muteState), reported, s.value);
                              requests == run.log && r == Done(run.error) && muteState == saved)
      ensures (path != DETECTOR && path != INTENT && path != INPUT)
              || (path == DETECTOR && !(cfg.ducking && cfg.local)) ==>
                r == Pass && forwarded == Pass && requests == old(requests) && muteState == old(muteState)
      ensures path == INTENT || path == INPUT ==>
                var s := Subscript(state, "state");
                (s.Err? ==> r == Fail(s.error) && forwarded == Pass
                            && requests == old(requests) && muteState == old(muteState))
                && (s.Ok? && s.value != VStr(if path == INTENT then "INTENT" else "ACTION") ==>
                      r == Pass && forwarded == Pass && requests == old(requests) && muteState == old(muteState))
      ensures path == INPUT && Subscript(state, "state") == Ok(VStr("ACTION")) && Subscript(state, "action").Err? ==>
                r == Fail(Subscript(state, "action").error) && forwarded == Pass
                && requests == old(requests) && muteState == old(muteState)
      ensures path == INPUT && Subscript(state, "state") == Ok(VStr("ACTION")) && Subscript(state, "action").Ok? ==>
                r == Pass && muteState == old(muteState)
                && var a := ActionOf(Subscript(state, "action").value);
                   forwarded == (if a.Err? then Fail(a.error) else Pass)
                   && requests == (if a == Ok(Raise) then Local(old(requests), cfg, Increment(cfg.step))
                                   else if a == Ok(Reduce) then Local(old(requests), cfg, Decrement(cfg.step))
                                   else old(requests))
      ensures path == INTENT && Subscript(state, "state") == Ok(VStr("INTENT")) ==>
                muteState == old(muteState)
                && var it := Subscript(state, "intent");
                   (it.Err? ==> r == Fail(it.error) && forwarded == Pass && requests == old(requests))
                   && (it.Ok? && !it.value.VDict? ==>
                         r == Fail(AttributeError) && forwarded == Pass && requests == old(requests))
                   && (it.Ok? && it.value.VDict? ==>
                         r == Pass
                         && var intents := GetOr(it.value, "intents", VList([])).value;
                            var entities := GetOr(it.value, "entities", VDict(map[])).value;
                            var run := match Iterate(intents)
                                       case Err(e) => Run(old(requests), Some(e))
                                       case Ok(xs) => Intents(old(requests), cfg, xs, entities);
                            requests == run.log && forwarded == Done(run.error))
    {
      forwarded := Pass;
      r := Pass;
      if path == DETECTOR && cfg.ducking && cfg.local {
        var s := Subscript(state, "state");
        if s.Err? {
          return Fail(s.error), Pass;
        }
        if s.value == VStr("DETECT_START") {
          muteState := Some(reported);
          requests := requests + [SetMute(true)];
        } else if s.value == VStr("DETECT_STOP") || s.value == VStr("DETECT_ABORT") {
          if muteState.None? {
            return Fail(AttributeError), Pass;
          }
          requests := requests + [SetMute(muteState.value)];
        }
      } else if path == INTENT {
        var s := Subscript(state, "state");
        if s.Err? {
          return Fail(s.error), Pass;
        }
        if s.value == VStr("INTENT") {
          var it := Subscript(state, "intent");
          if it.Err? {
            return Fail(it.error), Pass;
          }
          var intents := GetOr(it.value, "intents", VList([]));
          if intents.Err? {
            return Fail(intents.error), Pass;
          }
          var entities := GetOr(it.value, "entities", VDict(map[]));
          forwarded := ProcessIntent(intents.value, entities.value);
        }
      } else if path == INPUT {
        var s := Subscript(state, "state");
        if s.Err? {
          return Fail(s.error), Pass;
        }
        if s.value == VStr("ACTION") {
          var a := Subscript(state, "action");
          if a.Err? {
            return Fail(a.error), Pass;
          }
          forwarded := HandleInputAction(a.value);
        }
      }
    }
  }
}
