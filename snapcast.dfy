/**
 * The Snapcast resource of snapcast.py: it follows the hotword detector,
 * the recognised intents and the input actions, and drives the volume and
 * mute flag of Snapcast clients. While the detector listens to a phrase
 * the own client is muted (ducking) and afterwards its earlier mute flag is
 * restored.
 *
 * The Snapcast server is the outside world: the commands sent to it are a
 * log, and the own client's volume and mute flag are those the commands
 * leave, starting from what the server reported when the resource
 * started.
 */
module Snapcast {
  import opened Values
  import opened Strings
  import opened Service
  import opened StateChange
  import opened Dispatch

  const DETECTOR: string := "/speech/detector"
  const INTENT: string := "/speech/intent"
  const INPUT: string := "/input"

  /** A command sent to the Snapcast server: a client's volume, named by
      its location, or the own client's mute flag. */
  datatype Command = SetVolume(location: Value, level: Value) | SetMuted(muted: bool)

  /** The configuration the resource reads: `volume_ducking`,
      `local_volume_control`, `volume_step_size` and `own_location`. */
  datatype Settings = Settings(ducking: bool, local: bool, step: int, own: string)

  /** The own client's volume and mute flag, and every command sent. */
  datatype Mixer = Mixer(volume: int, muted: bool, log: seq<Command>)

  /** Where a run of commands stopped: the mixer, and the error raised, if
      any. */
  datatype Run = Run(mixer: Mixer, error: Option<PyError>)

  // ---------------------------------------------------------------- volume

  /** `_volume_higher`: with local control, the own client is set one step
      louder, at most 100. */
  function StepUp(m: Mixer, cfg: Settings): (r: Mixer)
    ensures !cfg.local ==> r == m
    ensures cfg.local ==> r.volume == (if m.volume + cfg.step < 100 then m.volume + cfg.step else 100)
                          && r.muted == m.muted && r.log == m.log + [SetVolume(VStr(cfg.own), VInt(r.volume))]
  {
    if !cfg.local then m
    else
      var level := if 100 < m.volume + cfg.step then 100 else m.volume + cfg.step;
      Mixer(level, m.muted, m.log + [SetVolume(VStr(cfg.own), VInt(level))])
  }

  /** `_volume_lower`: with local control, the own client is set one step
      quieter, at least 0. */
  function StepDown(m: Mixer, cfg: Settings): (r: Mixer)
    ensures !cfg.local ==> r == m
    ensures cfg.local ==> r.volume == (if 0 < m.volume - cfg.step then m.volume - cfg.step else 0)
                          && r.muted == m.muted && r.log == m.log + [SetVolume(VStr(cfg.own), VInt(r.volume))]
  {
    if !cfg.local then m
    else
      var level := if 0 > m.volume - cfg.step then 0 else m.volume - cfg.step;
      Mixer(level, m.muted, m.log + [SetVolume(VStr(cfg.own), VInt(level))])
  }

  /** A volume between 0 and 100 stays there, and moves by at most one
      step; a step that does not hit a bound is undone by the opposite
      step. */
  lemma {:induction false} StepsClamp(m: Mixer, cfg: Settings)
    requires cfg.local && 0 <= m.volume <= 100 && cfg.step >= 0
    ensures m.volume <= StepUp(m, cfg).volume <= 100 && StepUp(m, cfg).volume - m.volume <= cfg.step
    ensures 0 <= StepDown(m, cfg).volume <= m.volume && m.volume - StepDown(m, cfg).volume <= cfg.step
    ensures m.volume + cfg.step <= 100 ==> StepDown(StepUp(m, cfg), cfg).volume == m.volume
    ensures m.volume - cfg.step >= 0 ==> StepUp(StepDown(m, cfg), cfg).volume == m.volume
  {
  }

  /** `_mute(state)`: with local control, the own client's mute flag. */
  function Muted(m: Mixer, cfg: Settings, b: bool): (r: Mixer)
    ensures r.volume == m.volume
    ensures !cfg.local ==> r == m
    ensures cfg.local ==> r.muted == b && r.log == m.log + [SetMuted(b)]
  {
    if cfg.local then Mixer(m.volume, b, m.log + [SetMuted(b)]) else m
  }

  /** A volume command: the own client follows an integer level sent to
      its location. */
  function Send(m: Mixer, own: string, location: Value, level: Value): (r: Mixer)
    ensures r.log == m.log + [SetVolume(location, level)] && r.muted == m.muted
    ensures r.volume == (if location == VStr(own) && level.VInt? then level.i else m.volume)
  {
    Mixer(if location == VStr(own) && level.VInt? then level.i else m.volume, m.muted, m.log + [SetVolume(location, level)])
  }

  /** The inner loop of `_volume`: each location's client is set to the
      level, whatever the local-control setting. */
  function Locations(m: Mixer, own: string, level: Value, locs: seq<Value>): (r: Run)
    ensures r.mixer.muted == m.muted && |m.log| <= |r.mixer.log| && r.mixer.log[..|m.log|] == m.log
    decreases |locs|
  {
    if locs == [] then Run(m, None)
    else
      match Subscript(locs[0], "value")
      case Err(e) => Run(m, Some(e))
      case Ok(location) => Locations(Send(m, own, location, level), own, level, locs[1..])
  }

  /** One level of `_volume`: to every location when some are named,
      else to the own client under local control. */
  function AtLevel(m: Mixer, cfg: Settings, level: Value, locations: Value): (r: Run)
    ensures r.mixer.muted == m.muted && |m.log| <= |r.mixer.log| && r.mixer.log[..|m.log|] == m.log
  {
    if Truthy(locations) then
      match Iterate(locations)
      case Err(e) => Run(m, Some(e))
      case Ok(locs) => Locations(m, cfg.own, level, locs)
    else if cfg.local then Run(Send(m, cfg.own, VStr(cfg.own), level), None)
    else Run(m, None)
  }

  /** The outer loop of `_volume`, over the level entries. */
  function Levels(m: Mixer, cfg: Settings, levels: seq<Value>, locations: Value): (r: Run)
    ensures r.mixer.muted == m.muted && |m.log| <= |r.mixer.log| && r.mixer.log[..|m.log|] == m.log
    decreases |levels|
  {
    if levels == [] then Run(m, None)
    else
      match Subscript(levels[0], "value")
      case Err(e) => Run(m, Some(e))
      case Ok(level) =>
        var r := AtLevel(m, cfg, level, locations);
        if r.error.Some? then r else Levels(r.mixer, cfg, levels[1..], locations)
  }

  /** `_volume(entities)`: the locations under `room:room` and the levels
      under `wit$number:level`, both defaulting to `[]`. */
  function SetVolumes(m: Mixer, cfg: Settings, entities: Value): (r: Run)
    ensures !entities.VDict? ==> r == Run(m, Some(AttributeError))
    ensures r.mixer.muted == m.muted
  {
    match GetOr(entities, "room:room", VList([]))
    case Err(e) => Run(m, Some(e))
    case Ok(locations) =>
      match GetOr(entities, "wit$number:level", VList([]))
      case Err(e) => Run(m, Some(e))
      case Ok(levels) =>
        match Iterate(levels)
        case Err(e) => Run(m, Some(e))
        case Ok(ls) => Levels(m, cfg, ls, locations)
  }

  /** `{'value': v}`. */
  function Entry(v: Value): Value
  {
    VDict(map["value" := v])
  }

  /** Every level sent to every location, levels outermost. */
  function Product(levels: seq<Value>, locations: seq<Value>): (r: seq<Command>)
    ensures |r| == |levels| * |locations|
  {
    if levels == [] then []
    else Spread(levels[0], locations) + Product(levels[1..], locations)
  }

  /** One level sent to every location. */
  function Spread(level: Value, locations: seq<Value>): (r: seq<Command>)
    ensures |r| == |locations|
    ensures forall j :: 0 <= j < |locations| ==> r[j] == SetVolume(locations[j], level)
  {
    if locations == [] then [] else [SetVolume(locations[0], level)] + Spread(level, locations[1..])
  }

  /** With named locations, every location's client is set to every level
      in turn, whether or not local control is on. */
  lemma {:induction false} LevelsEverywhere(m: Mixer, cfg: Settings, levels: seq<Value>, locations: seq<Value>)
    requires locations != []
    ensures var r := Levels(m, cfg, Seq(levels), VList(Seq(locations)));
            r.error.None? && r.mixer.log == m.log + Product(levels, locations)
    decreases |levels|
  {
    if levels != [] {
      var locs := VList(Seq(locations));
      assert Seq(levels)[0] == Entry(levels[0]) && Seq(levels)[1..] == Seq(levels[1..]);
      EntryValue(levels[0]);
      assert Truthy(locs) && Iterate(locs) == Ok(Seq(locations));
      LocationsEverywhere(m, cfg.own, levels[0], locations);
      var r := Locations(m, cfg.own, levels[0], Seq(locations));
      assert AtLevel(m, cfg, levels[0], locs) == r;
      assert Levels(m, cfg, Seq(levels), locs) == Levels(r.mixer, cfg, Seq(levels[1..]), locs);
      LevelsEverywhere(r.mixer, cfg, levels[1..], locations);
      Associative(m.log, Spread(levels[0], locations), Product(levels[1..], locations));
    }
  }

  /** The entries `{'value': v}` of some values. */
  function Seq(vs: seq<Value>): (r: seq<Value>)
    ensures |r| == |vs| && forall i :: 0 <= i < |vs| ==> r[i] == Entry(vs[i])
  {
    seq(|vs|, i requires 0 <= i < |vs| => Entry(vs[i]))
  }

  /** Every location gets the level. */
  lemma {:induction false} LocationsEverywhere(m: Mixer, own: string, level: Value, locations: seq<Value>)
    ensures var r := Locations(m, own, level, Seq(locations));
            r.error.None? && r.mixer.log == m.log + Spread(level, locations)
    decreases |locations|
  {
    if locations != [] {
      var m1 := Send(m, own, locations[0], level);
      assert Seq(locations)[0] == Entry(locations[0]) && Seq(locations)[1..] == Seq(locations[1..]);
      EntryValue(locations[0]);
      assert Locations(m, own, level, Seq(locations)) == Locations(m1, own, level, Seq(locations[1..]));
      LocationsEverywhere(m1, own, level, locations[1..]);
      Associative(m.log, [SetVolume(locations[0], level)], Spread(level, locations[1..]));
    }
  }

  lemma EntryValue(v: Value)
    ensures Subscript(Entry(v), "value") == Ok(v)
  {
  }

  /** Without named locations the own client gets every level, and only
      under local control. */
  lemma {:induction false} LevelsLocally(m: Mixer, cfg: Settings, levels: seq<Value>)
    ensures var r := Levels(m, cfg, Seq(levels), VList([]));
            r.error.None? && r.mixer.log == m.log + (if cfg.local then Spread2(VStr(cfg.own), levels) else [])
    decreases |levels|
  {
    if levels != [] {
      assert Seq(levels)[0] == Entry(levels[0]) && Seq(levels)[1..] == Seq(levels[1..]);
      EntryValue(levels[0]);
      var m1 := if cfg.local then Send(m, cfg.own, VStr(cfg.own), levels[0]) else m;
      assert !Truthy(VList([]));
      assert AtLevel(m, cfg, levels[0], VList([])) == Run(m1, None);
      assert Levels(m, cfg, Seq(levels), VList([])) == Levels(m1, cfg, Seq(levels[1..]), VList([]));
      LevelsLocally(m1, cfg, levels[1..]);
      if cfg.local {
        Associative(m.log, [SetVolume(VStr(cfg.own), levels[0])], Spread2(VStr(cfg.own), levels[1..]));
      }
    }
  }

  /** Every level sent to one location. */
  function Spread2(location: Value, levels: seq<Value>): (r: seq<Command>)
    ensures |r| == |levels|
    ensures forall j :: 0 <= j < |levels| ==> r[j] == SetVolume(location, levels[j])
  {
    if levels == [] then [] else [SetVolume(location, levels[0])] + Spread2(location, levels[1..])
  }

  // ---------------------------------------------------------------- intents

  /** One intent's effect. */
  function Apply(m: Mixer, cfg: Settings, intent: VolumeIntent, entities: Value): (r: Run)
  {
    match intent
    case Unmute => Run(Muted(m, cfg, false), None)
    case Mute => Run(Muted(m, cfg, true), None)
    case Louder => Run(StepUp(m, cfg), None)
    case Lower => Run(StepDown(m, cfg), None)
    case Level => SetVolumes(m, cfg, entities)
    case Ignored => Run(m, None)
  }

  /** The loop of `process_intent`: each intent's `name` is dispatched in
      turn; the first error stops the loop. */
  function Intents(m: Mixer, cfg: Settings, intents: seq<Value>, entities: Value): (r: Run)
    decreases |intents|
  {
    if intents == [] then Run(m, None)
    else
      match Subscript(intents[0], "name")
      case Err(e) => Run(m, Some(e))
      case Ok(action) =>
        match IntentOf(action)
        case Err(e) => Run(m, Some(e))
        case Ok(intent) =>
          var r := Apply(m, cfg, intent, entities);
          if r.error.Some? then r else Intents(r.mixer, cfg, intents[1..], entities)
  }

  /** `{'name': a}`. */
  function Named(a: string): Value
  {
    VDict(map["name" := VStr(a)])
  }

  /** An `unmute` intent followed by a `mute` intent leaves the client
      muted; in the other order unmuted: the last one wins, and
      `unmute` is not taken for `mute`. */
  lemma MuteIntents(m: Mixer, cfg: Settings, entities: Value)
    requires cfg.local
    ensures Intents(m, cfg, [Named("unmute"), Named("mute")], entities).mixer.muted
    ensures !Intents(m, cfg, [Named("mute"), Named("unmute")], entities).mixer.muted
    ensures Intents(m, cfg, [Named("unmute"), Named("mute")], entities).mixer.log == m.log + [SetMuted(false), SetMuted(true)]
  {
    assert OccursAt("unmute", "unmute", 0);
    IntentOrder("unmute");
    assert OccursAt("mute", "mute", 0);
    assert !Contains("mute", "unmute");
    assert IntentOf(VStr("mute")) == Ok(Mute);
    var u, t := Named("unmute"), Named("mute");
    assert Subscript(u, "name") == Ok(VStr("unmute")) && Subscript(t, "name") == Ok(VStr("mute"));
    var m1, m2 := Muted(m, cfg, false), Muted(m, cfg, true);
    assert [u, t][1..] == [t] && [t, u][1..] == [u];
    assert Intents(m, cfg, [u, t], entities) == Intents(m1, cfg, [t], entities);
    assert Intents(m1, cfg, [t], entities) == Intents(Muted(m1, cfg, true), cfg, [], entities);
    assert Intents(m, cfg, [t, u], entities) == Intents(m2, cfg, [u], entities);
    assert Intents(m2, cfg, [u], entities) == Intents(Muted(m2, cfg, false), cfg, [], entities);
  }

  // ---------------------------------------------------------------- ducking

  /** The ducking part of `notify` for a detector state: `DETECT_START`
      saves the client's mute flag and mutes it, `DETECT_STOP` and
      `DETECT_ABORT` restore the saved flag, other states do nothing.
      The result is the mixer and the saved flag. */
  function Duck(m: Mixer, cfg: Settings, saved: bool, phase: Value): (r: (Mixer, bool))
  {
    if phase == VStr("DETECT_START") then (Muted(m, cfg, true), m.muted)
    else if phase == VStr("DETECT_STOP") || phase == VStr("DETECT_ABORT") then (Muted(m, cfg, saved), saved)
    else (m, saved)
  }

  /** A phrase leaves the mute flag as it found it: muted while the
      detector listens, restored when it stops or aborts. */
  lemma DuckRestores(m: Mixer, cfg: Settings, saved: bool, end: Value)
    requires cfg.local && (end == VStr("DETECT_STOP") || end == VStr("DETECT_ABORT"))
    ensures var (m1, s1) := Duck(m, cfg, saved, VStr("DETECT_START"));
            m1.muted && s1 == m.muted
            && Duck(m1, cfg, s1, end).0.muted == m.muted
            && Duck(m1, cfg, s1, end).0.volume == m.volume
            && Duck(m1, cfg, s1, end).0.log == m.log + [SetMuted(true), SetMuted(m.muted)]
  {
  }

  lemma StatesAreUpper()
    ensures Upper("READY") == "READY"
  {
    UpperIsCanonical("READY");
  }

  class Snapcast {
    const path: string
    const self: ActorId
    const cfg: Settings
    const machine: StateMachine
    /** The own client's volume and mute flag, and the commands sent. */
    var volume: int
    var muted: bool
    var commands: seq<Command>
    /** `_mute_state`: the flag saved when a phrase starts. */
    var muteState: bool
    /** The states passed to `notify(path, ...)` so far, oldest first. */
    var broadcasts: seq<Value>

    ghost predicate Valid()
      reads this, machine
    {
      machine.Valid() && machine.allowed == ["READY"] && machine.next == map[]
    }

    function Client(): Mixer
      reads this
    {
      Mixer(volume, muted, commands)
    }

    /** `__init__`: `READY`, one forced broadcast, subscriptions to the
        detector, the intents and the input; the saved mute flag is the
        client's. */
    constructor (path: string, self: ActorId, cfg: Settings, volume: int, muted: bool, changes: StateChangeRegistry)
      requires changes.Valid()
      modifies changes
      ensures Valid() && fresh(machine) && machine.current == "READY"
      ensures this.path == path && this.self == self && this.cfg == cfg
      ensures Client() == Mixer(volume, muted, []) && muteState == muted
      ensures broadcasts == [VDict(map["state" := VStr("READY")])]
      ensures changes.Valid() && old(changes.subs) <= changes.subs
      ensures forall p :: p in [DETECTOR, INTENT, INPUT] ==> (self, p) in changes.subs
      ensures forall s :: s in changes.subs ==> s in old(changes.subs) || (s.0 == self && s.1 in [DETECTOR, INTENT, INPUT])
    {
      this.path := path;
      this.self := self;
      this.cfg := cfg;
      StatesAreUpper();
      machine := new StateMachine(["READY"], map[], "READY");
      this.volume := volume;
      this.muted := muted;
      commands := [];
      muteState := muted;
      broadcasts := [];
      new;
      var r := SetStateInternal(VNone, true);
      changes.RegisterEach(self, [DETECTOR, INTENT, INPUT]);
    }

    /** `_set_state_internal(state, force)`. */
    method SetStateInternal(state: Value, force: bool) returns (r: Outcome<ServiceError>)
      requires Valid()
      modifies this, machine
      ensures Valid() && Client() == old(Client()) && muteState == old(muteState)
      ensures var tried := Truthy(state) && state != VStr(old(machine.current));
              r == (if tried then machine.Try(old(machine.current), state) else Pass)
              && machine.current == (if tried && r.Pass? then Upper(state.s) else old(machine.current))
              && broadcasts == old(broadcasts)
                   + (if force || (tried && r.Pass?) then [VDict(map["state" := VStr(machine.current)])] else [])
    {
      var changed;
      changed, r := Transition(machine, state);
      if changed || force {
        broadcasts := broadcasts + [VDict(map["state" := VStr(machine.current)])];
      }
    }

    /** `_volume_higher`. */
    method VolumeHigher()
      modifies this
      ensures Client() == StepUp(old(Client()), cfg)
      ensures muteState == old(muteState) && broadcasts == old(broadcasts)
    {
      if cfg.local {
        var level := volume + cfg.step;
        if 100 < level {
          level := 100;
        }
        commands := commands + [SetVolume(VStr(cfg.own), VInt(level))];
        volume := level;
      }
    }

    /** `_volume_lower`. */
    method VolumeLower()
      modifies this
      ensures Client() == StepDown(old(Client()), cfg)
      ensures muteState == old(muteState) && broadcasts == old(broadcasts)
    {
      if cfg.local {
        var level := volume - cfg.step;
        if level < 0 {
          level := 0;
        }
        commands := commands + [SetVolume(VStr(cfg.own), VInt(level))];
        volume := level;
      }
    }

    /** `_mute(state)`. */
    method SetMute(b: bool)
      modifies this
      ensures Client() == Muted(old(Client()), cfg, b)
      ensures muteState == old(muteState) && broadcasts == old(broadcasts)
    {
      if cfg.local {
        commands := commands + [SetMuted(b)];
        muted := b;
      }
    }

    /** `client(location).set_volume(level)`. */
    method SendVolume(location: Value, level: Value)
      modifies this
      ensures Client() == Send(old(Client()), cfg.own, location, level)
      ensures muteState == old(muteState) && broadcasts == old(broadcasts)
    {
      commands := commands + [SetVolume(location, level)];
      if location == VStr(cfg.own) && level.VInt? {
        volume := level.i;
      }
    }

    /** The inner loop of `_volume`: every location of the list gets the
        level. */
    method SetLocations(level: Value, locs: seq<Value>) returns (r: Outcome<PyError>)
      modifies this
      ensures var run := Locations(old(Client()), cfg.own, level, locs);
              Client() == run.mixer && r == Done(run.error)
      ensures muteState == old(muteState) && broadcasts == old(broadcasts)
    {
      ghost var m0 := Client();
      var j := 0;
      while j < |locs|
        invariant 0 <= j <= |locs|
        invariant Locations(m0, cfg.own, level, locs) == Locations(Client(), cfg.own, level, locs[j..])
        invariant muteState == old(muteState) && broadcasts == old(broadcasts)
      {
        assert locs[j..][1..] == locs[j + 1..];
        var location := Subscript(locs[j], "value");
        if location.Err? {
          return Fail(location.error);
        }
        SendVolume(location.value, level);
        j := j + 1;
      }
      r := Pass;
    }

    /** `_volume(entities)`. */
    method Volume(entities: Value) returns (r: Outcome<PyError>)
      modifies this
      ensures var run := SetVolumes(old(Client()), cfg, entities);
              Client() == run.mixer && r == Done(run.error)
      ensures muteState == old(muteState) && broadcasts == old(broadcasts)
    {
      var locations := GetOr(entities, "room:room", VList([]));
      if locations.Err? {
        return Fail(locations.error);
      }
      var levels := GetOr(entities, "wit$number:level", VList([])).value;
      var xs := Iterate(levels);
      if xs.Err? {
        return Fail(xs.error);
      }
      ghost var m0 := Client();
      var i := 0;
      while i < |xs.value|
        invariant 0 <= i <= |xs.value|
        invariant Levels(m0, cfg, xs.value, locations.value) == Levels(Client(), cfg, xs.value[i..], locations.value)
        invariant SetVolumes(m0, cfg, entities) == Levels(m0, cfg, xs.value, locations.value)
        invariant muteState == old(muteState) && broadcasts == old(broadcasts)
      {
        assert xs.value[i..][1..] == xs.value[i + 1..];
        var level := Subscript(xs.value[i], "value");
        if level.Err? {
          return Fail(level.error);
        }
        if Truthy(locations.value) {
          var ys := Iterate(locations.value);
          if ys.Err? {
            return Fail(ys.error);
          }
          r := SetLocations(level.value, ys.value);
          if r.Fail? {
            return;
          }
        } else if cfg.local {
          SendVolume(VStr(cfg.own), level.value);
        }
        i := i + 1;
      }
      r := Pass;
    }

    /** `process_intent(intents, entities)`. */
    method ProcessIntent(intents: Value, entities: Value) returns (r: Outcome<PyError>)
      modifies this
      ensures var run := match Iterate(intents)
                         case Err(e) => Run(old(Client()), Some(e))
                         case Ok(xs) => Intents(old(Client()), cfg, xs, entities);
              Client() == run.mixer && r == Done(run.error)
      ensures muteState == old(muteState) && broadcasts == old(broadcasts)
    {
      var xs := Iterate(intents);
      if xs.Err? {
        return Fail(xs.error);
      }
      ghost var m0 := Client();
      var i := 0;
      while i < |xs.value|
        invariant 0 <= i <= |xs.value|
        invariant Intents(m0, cfg, xs.value, entities) == Intents(Client(), cfg, xs.value[i..], entities)
        invariant muteState == old(muteState) && broadcasts == old(broadcasts)
      {
        assert xs.value[i..][1..] == xs.value[i + 1..];
        var action := Subscript(xs.value[i], "name");
        if action.Err? {
          return Fail(action.error);
        }
        var intent := IntentOf(action.value);
        if intent.Err? {
          return Fail(intent.error);
        }
        match intent.value {
          case Unmute => SetMute(false);
          case Mute => SetMute(true);
          case Louder => VolumeHigher();
          case Lower => VolumeLower();
          case Level =>
            r := Volume(entities);
            if r.Fail? {
              return;
            }
          case Ignored =>
        }
        i := i + 1;
      }
      r := Pass;
    }

    /** `handle_input_action(action)`. */
    method HandleInputAction(action: Value) returns (r: Outcome<PyError>)
      modifies this
      ensures var a := ActionOf(action);
              r == (if a.Err? then Fail(a.error) else Pass)
              && Client() == (if a == Ok(Raise) then StepUp(old(Client()), cfg)
                             else if a == Ok(Reduce) then StepDown(old(Client()), cfg)
                             else old(Client()))
      ensures muteState == old(muteState) && broadcasts == old(broadcasts)
    {
      var a := ActionOf(action);
      if a.Err? {
        return Fail(a.error);
      }
      r := Pass;
      if a.value == Raise {
        VolumeHigher();
      } else if a.value == Reduce {
        VolumeLower();
      }
    }

    /** `notify(path, state)`: ducking on detector states when ducking and
        local control are both on; an `INTENT` state forwards its intents
        and entities; an `ACTION` state forwards its action. `r` is what
        `notify` itself raises; `forwarded` what the forwarded call
        raises when the actor runs it. */
    method Notify(path: string, state: Value) returns (r: Outcome<PyError>, forwarded: Outcome<PyError>)
      modifies this
      ensures broadcasts == old(broadcasts)
      ensures forwarded.Fail? ==> r.Pass?
      ensures var s := Subscript(state, "state");
              path == DETECTOR && cfg.ducking && cfg.local ==>
                r == (if s.Err? then Fail(s.error) else Pass) && forwarded == Pass
                && (s.Ok? ==> (Client(), muteState) == Duck(old(Client()), cfg, old(muteState), s.value))
      ensures (path != DETECTOR && path != INTENT && path != INPUT)
              || (path == DETECTOR && !(cfg.ducking && cfg.local)) ==>
                r == Pass && forwarded == Pass && Client() == old(Client()) && muteState == old(muteState)
      ensures path == INTENT || path == INPUT ==>
                var s := Subscript(state, "state");
                (s.Err? ==> r == Fail(s.error) && forwarded == Pass
                            && Client() == old(Client()) && muteState == old(muteState))
                && (s.Ok? && s.value != VStr(if path == INTENT then "INTENT" else "ACTION") ==>
                      r == Pass && forwarded == Pass && Client() == old(Client()) && muteState == old(muteState))
      ensures path == INPUT && Subscript(state, "state") == Ok(VStr("ACTION")) && Subscript(state, "action").Err? ==>
                r == Fail(Subscript(state, "action").error) && forwarded == Pass
                && Client() == old(Client()) && muteState == old(muteState)
      ensures path == INPUT && Subscript(state, "state") == Ok(VStr("ACTION")) && Subscript(state, "action").Ok? ==>
                r == Pass && muteState == old(muteState)
                && var a := ActionOf(Subscript(state, "action").value);
                   forwarded == (if a.Err? then Fail(a.error) else Pass)
                   && Client() == (if a == Ok(Raise) then StepUp(old(Client()), cfg)
                                  else if a == Ok(Reduce) then StepDown(old(Client()), cfg)
                                  else old(Client()))
      ensures path == INTENT && Subscript(state, "state") == Ok(VStr("INTENT")) ==>
                muteState == old(muteState)
                && var it := Subscript(state, "intent");
                   (it.Err? ==> r == Fail(it.error) && forwarded == Pass && Client() == old(Client()))
                   && (it.Ok? && !it.value.VDict? ==>
                         r == Fail(AttributeError) && forwarded == Pass && Client() == old(Client()))
                   && (it.Ok? && it.value.VDict? ==>
                         r == Pass
                         && var intents := GetOr(it.value, "intents", VList([])).value;
                            var entities := GetOr(it.value, "entities", VDict(map[])).value;
                            var run := match Iterate(intents)
                                       case Err(e) => Run(old(Client()), Some(e))
                                       case Ok(xs) => Intents(old(Client()), cfg, xs, entities);
                            Client() == run.mixer && forwarded == Done(run.error))
    {
      forwarded := Pass;
      r := Pass;
      if path == DETECTOR && cfg.ducking && cfg.local {
        var s := Subscript(state, "state");
        if s.Err? {
          return Fail(s.error), Pass;
        }
        if s.value == VStr("DETECT_START") {
          muteState := muted;
          SetMute(true);
        } else if s.value == VStr("DETECT_STOP") {
          SetMute(muteState);
        } else if s.value == VStr("DETECT_ABORT") {
          SetMute(muteState);
        }
      } else if path == INTENT {
        var s := Subscript(state, "state");
        if s.Err? {
          return Fail(s.error), Pass;
        }
        if s.value == VStr("INTENT") {
          var it := Subscript(state, "intent");
          if it.Err? {
            return Fail(it.error), Pass;
          }
          var intents := GetOr(it.value, "intents", VList([]));
          if intents.Err? {
            return Fail(intents.error), Pass;
          }
          var entities := GetOr(it.value, "entities", VDict(map[]));
          forwarded := ProcessIntent(intents.value, entities.value);
        }
      } else if path == INPUT {
        var s := Subscript(state, "state");
        if s.Err? {
          return Fail(s.error), Pass;
        }
        if s.value == VStr("ACTION") {
          var a := Subscript(state, "action");
          if a.Err? {
            return Fail(a.error), Pass;
          }
          forwarded := HandleInputAction(a.value);
        }
      }
    }
  }
}
