/**
 * The key-input resource of input.py: a configured action map from key
 * names to actions, the input devices it listens to, and an `IDLE`/`ACTION`
 * state carrying the action of the last mapped key pressed.
 *
 * Device enumeration and event reading are the outside world: the listed
 * devices and each event's key names are parameters.
 */
module Input {
  import opened Values
  import opened Strings
  import opened Service

  const STATES: seq<string> := ["IDLE", "ACTION"]

  /** An input device as the resource sees it. */
  datatype Device = Device(name: string, path: string, phys: string)

  /** A key event: whether it is a key-down (`type` and `value` both
      `key_down`), and the key names of its code. */
  datatype Event = Event(pressed: bool, keys: seq<string>)

  /** The state this resource broadcasts. */
  function Snapshot(name: string, action: Value): Value
  {
    VDict(map["state" := VStr(name), "action" := action])
  }

  // ---------------------------------------------------------------- action map

  /** `key, action = x.split(':')`: unpacking raises `ValueError` unless the
      split yields exactly two pieces. */
  function Entry(x: string): (r: Result<(string, string), PyError>)
    ensures r.Ok? <==> Count(x, ':') == 1
    ensures r.Err? ==> r.error == ValueError
    ensures r.Ok? ==> r.value.0 + ":" + r.value.1 == x && ':' !in r.value.0 && ':' !in r.value.1
  {
    var parts := Split(x, ':');
    SplitInTwo(x, ':');
    if |parts| != 2 then Err(ValueError)
    else
      JoinSplit(x, ':');
      assert Join(parts, ':') == parts[0] + [':'] + Join(parts[1..], ':');
      Ok((parts[0], parts[1]))
  }

  /** `_parse_action_map`: the entries in order, a later entry for a key
      overwriting an earlier one; the first malformed entry raises. */
  function ActionMap(entries: seq<string>): Result<map<string, string>, PyError>
    decreases |entries|
  {
    if entries == [] then Ok(map[])
    else
      var m := ActionMap(entries[..|entries| - 1]);
      var e := Entry(entries[|entries| - 1]);
      if m.Err? then m
      else if e.Err? then Err(e.error)
      else Ok(m.value[e.value.0 := e.value.1])
  }

  /** The action map parses exactly when every entry holds one `:`. */
  lemma {:induction false} ActionMapOk(entries: seq<string>)
    ensures ActionMap(entries).Ok? <==> forall i :: 0 <= i < |entries| ==> Count(entries[i], ':') == 1
    decreases |entries|
  {
    if entries != [] {
      var init := entries[..|entries| - 1];
      ActionMapOk(init);
      assert forall i :: 0 <= i < |init| ==> init[i] == entries[i];
    }
  }

  /** Each key maps to the action of its last entry, and only keys that
      have an entry are mapped. */
  lemma {:induction false} ActionMapLastWins(entries: seq<string>, i: nat)
    requires ActionMap(entries).Ok? && i < |entries| && Entry(entries[i]).Ok?
    requires forall j :: i < j < |entries| ==> Entry(entries[j]).Ok? && Entry(entries[j]).value.0 != Entry(entries[i]).value.0
    ensures Entry(entries[i]).value.0 in ActionMap(entries).value
    ensures ActionMap(entries).value[Entry(entries[i]).value.0] == Entry(entries[i]).value.1
    decreases |entries|
  {
    var init := entries[..|entries| - 1];
    if i < |entries| - 1 {
      assert forall j :: i < j < |init| ==> init[j] == entries[j];
      ActionMapLastWins(init, i);
    }
  }

  /** Only keys named by some entry are mapped. */
  lemma {:induction false} ActionMapKeys(entries: seq<string>, k: string)
    requires ActionMap(entries).Ok? && k in ActionMap(entries).value
    ensures exists i :: 0 <= i < |entries| && Entry(entries[i]).Ok? && Entry(entries[i]).value.0 == k
    decreases |entries|
  {
    var init := entries[..|entries| - 1];
    var e := Entry(entries[|entries| - 1]);
    if e.value.0 != k {
      ActionMapKeys(init, k);
      var i :| 0 <= i < |init| && Entry(init[i]).Ok? && Entry(init[i]).value.0 == k;
      assert init[i] == entries[i];
    }
  }

  /** The loop of `_parse_action_map`. */
  method ParseActionMap(entries: seq<string>) returns (r: Result<map<string, string>, PyError>)
    ensures r == ActionMap(entries)
  {
    var m: map<string, string> := map[];
    var i := 0;
    while i < |entries|
      invariant 0 <= i <= |entries|
      invariant ActionMap(entries[..i]) == Ok(m)
    {
      assert entries[..i + 1][..i] == entries[..i];
      var e := Entry(entries[i]);
      if e.Err? {
        assert ActionMap(entries[..i + 1]).Err?;
        ActionMapPrefixErr(entries, i + 1);
        return Err(e.error);
      }
      m := m[e.value.0 := e.value.1];
      i := i + 1;
    }
    assert entries[..i] == entries;
    r := Ok(m);
  }

  /** Once a prefix fails to parse, so does the whole list, with the same
      error. */
  lemma {:induction false} ActionMapPrefixErr(entries: seq<string>, n: nat)
    requires n <= |entries| && ActionMap(entries[..n]).Err?
    ensures ActionMap(entries) == ActionMap(entries[..n])
    decreases |entries| - n
  {
    if n < |entries| {
      assert entries[..n + 1][..n] == entries[..n];
      ActionMapPrefixErr(entries, n + 1);
    } else {
      assert entries[..n] == entries;
    }
  }

  // ---------------------------------------------------------------- devices

  /** A device passes the configured filter: an empty filter admits every
      device, otherwise its name, path or physical address is listed. */
  predicate Admits(filter: seq<string>, d: Device)
  {
    filter == [] || d.name in filter || d.path in filter || d.phys in filter
  }

  /** The known physical addresses after one pass of
      `update_available_inputs` over `listed`. */
  function Admit(known: seq<string>, filter: seq<string>, listed: seq<Device>): seq<string>
    decreases |listed|
  {
    if listed == [] then known
    else
      var d := listed[0];
      Admit(if d.phys !in known && Admits(filter, d) then known + [d.phys] else known, filter, listed[1..])
  }

  predicate Distinct(xs: seq<string>)
  {
    forall i, j :: 0 <= i < j < |xs| ==> xs[i] != xs[j]
  }

  /** A pass only appends; each address appears once; every admitted device
      ends up known; and every new address is an admitted device's. */
  lemma {:induction false} AdmitSpec(known: seq<string>, filter: seq<string>, listed: seq<Device>)
    ensures known <= Admit(known, filter, listed)
    ensures Distinct(known) ==> Distinct(Admit(known, filter, listed))
    ensures forall d :: d in listed && Admits(filter, d) ==> d.phys in Admit(known, filter, listed)
    ensures forall p :: p in Admit(known, filter, listed) ==>
              p in known || exists d :: d in listed && Admits(filter, d) && d.phys == p
    decreases |listed|
  {
    if listed != [] {
      var d := listed[0];
      var next := if d.phys !in known && Admits(filter, d) then known + [d.phys] else known;
      AdmitSpec(next, filter, listed[1..]);
      assert Admits(filter, d) ==> d.phys in next;
      assert forall p :: p in next ==> p in Admit(known, filter, listed);
      assert forall e :: e in listed ==> e == d || e in listed[1..];
      if d.phys !in known && Admits(filter, d) {
        assert Distinct(known) ==> Distinct(next);
      }
    }
  }

  // ---------------------------------------------------------------- key presses

  /** The actions of an event's mapped keys, in key order. */
  function Hits(actions: map<string, string>, keys: seq<string>): seq<string>
  {
    if keys == [] then []
    else (if keys[0] in actions then [actions[keys[0]]] else []) + Hits(actions, keys[1..])
  }

  /** An action is hit exactly when some key of the event maps to it. */
  lemma {:induction false} HitsMembers(actions: map<string, string>, keys: seq<string>)
    ensures forall a :: a in Hits(actions, keys) <==> exists k :: k in keys && k in actions && actions[k] == a
    decreases |keys|
  {
    if keys != [] {
      HitsMembers(actions, keys[1..]);
      forall a
        ensures a in Hits(actions, keys) <==> exists k :: k in keys && k in actions && actions[k] == a
      {
        if a in Hits(actions, keys[1..]) {
          var k :| k in keys[1..] && k in actions && actions[k] == a;
          assert k in keys;
        }
        if exists k :: k in keys && k in actions && actions[k] == a {
          var k :| k in keys && k in actions && actions[k] == a;
          if k != keys[0] {
            assert k in keys[1..];
          }
        }
      }
    }
  }

  /** The broadcasts of setting `ACTION` with each hit in turn, starting
      from state `name` and action `action`: one for each hit that changes
      the state or the action. */
  function Announce(name: string, action: Value, hits: seq<string>): (r: seq<Value>)
    ensures |r| <= |hits|
    ensures hits != [] && (name != "ACTION" || action != VStr(hits[0])) ==> r != []
    decreases |hits|
  {
    if hits == [] then []
    else Step(name, action, hits[0]) + Announce("ACTION", VStr(hits[0]), hits[1..])
  }

  /** The broadcast of setting `ACTION` with action `a` from state `name`
      and action `action`: one exactly when something changes. */
  function Step(name: string, action: Value, a: string): seq<Value>
  {
    if name != "ACTION" || action != VStr(a) then [Snapshot("ACTION", VStr(a))] else []
  }

  /** The state name after pressing the hits from state `name`. */
  function Current(name: string, hits: seq<string>): string
  {
    if hits == [] then name else "ACTION"
  }

  /** The action after pressing the hits from action `action`. */
  function Latest(action: Value, hits: seq<string>): Value
  {
    if hits == [] then action else VStr(hits[|hits| - 1])
  }

  /** Pressing keys whose actions are all the current one announces
      nothing. */
  lemma {:induction false} AnnounceRepeat(a: string, n: nat)
    ensures Announce("ACTION", VStr(a), seq(n, _ => a)) == []
    decreases n
  {
    if n > 0 {
      assert seq(n, _ => a)[1..] == seq(n - 1, _ => a);
      AnnounceRepeat(a, n - 1);
    }
  }

  lemma StatesAreUpper()
    ensures forall s :: s in STATES ==> Upper(s) == s
  {
    forall s | s in STATES
      ensures Upper(s) == s
    {
      UpperIsCanonical(s);
    }
  }

  class Input {
    const path: string
    /** The configured `devices` filter. */
    const filter: seq<string>
    /** `_action_map`. */
    const actions: map<string, string>
    const machine: StateMachine
    /** `_action`: `VNone` or a string. */
    var action: Value
    /** `_devices`: the physical addresses of the devices listened to. */
    var devices: seq<string>
    /** The states passed to `notify(path, ...)` so far, oldest first. */
    var broadcasts: seq<Value>

    ghost predicate Valid()
      reads this, machine
    {
      machine.Valid() && machine.allowed == STATES && machine.next == map[] && Distinct(devices)
    }

    function State(): Value
      reads this, machine
    {
      Snapshot(machine.current, action)
    }

    /** `__init__` with a parsed action map, followed by `on_start`: `IDLE`
        with no action, no devices yet, one forced broadcast. */
    constructor (path: string, filter: seq<string>, actions: map<string, string>)
      ensures Valid() && fresh(machine)
      ensures this.path == path && this.filter == filter && this.actions == actions
      ensures machine.current == "IDLE" && action == VNone && devices == []
      ensures broadcasts == [Snapshot("IDLE", VNone)]
    {
      this.path := path;
      this.filter := filter;
      this.actions := actions;
      StatesAreUpper();
      machine := new StateMachine(STATES, map[], "IDLE");
      action := VNone;
      devices := [];
      broadcasts := [];
      new;
      var r := SetStateInternal(VNone, VNone, true);
    }

    /** `__init__` from the configured `action_map` entries: a malformed
        entry raises `ValueError`. */
    static method Create(path: string, filter: seq<string>, entries: seq<string>) returns (r: Result<Input, ServiceError>)
      ensures r.Ok? <==> forall i :: 0 <= i < |entries| ==> Count(entries[i], ':') == 1
      ensures r.Err? ==> r.error == Python(ValueError)
      ensures r.Ok? ==> fresh(r.value) && r.value.Valid() && ActionMap(entries) == Ok(r.value.actions)
      ensures r.Ok? ==> r.value.machine.current == "IDLE" && r.value.action == VNone
    {
      ActionMapOk(entries);
      var m := ParseActionMap(entries);
      if m.Err? {
        ActionMapError(entries);
        return Err(Python(m.error));
      }
      var input := new Input(path, filter, m.value);
      r := Ok(input);
    }

    /** `_set_state_internal(state, action, force)`: a truthy state other
        than the current one is validated and applied; an action that is not
        `None` and differs from the stored one is stored. Broadcasts when
        forced or when either was applied. */
    method SetStateInternal(state: Value, newAction: Value, force: bool) returns (r: Outcome<ServiceError>)
      requires Valid()
      modifies this, machine
      ensures Valid() && devices == old(devices)
      ensures var tried := Truthy(state) && state != VStr(old(machine.current));
              var stored := r.Pass? && newAction != VNone && newAction != old(action);
              r == (if tried then machine.Try(old(machine.current), state) else Pass)
              && machine.current == (if tried && r.Pass? then Upper(state.s) else old(machine.current))
              && action == (if stored then newAction else old(action))
              && broadcasts == old(broadcasts)
                   + (if force || (tried && r.Pass?) || stored then [State()] else [])
    {
      var changed;
      changed, r := Transition(machine, state);
      changed := changed || force;
      if r.Pass? && newAction != VNone && newAction != action {
        action := newAction;
        changed := true;
      }
      if changed {
        broadcasts := broadcasts + [State()];
      }
    }

    /** `handle_key_event`: on a key-down, each of the event's mapped keys
        in turn sets `ACTION` with its action; any other event sets
        `IDLE`. */
    method HandleKeyEvent(ev: Event)
      requires Valid()
      modifies this, machine
      ensures Valid() && devices == old(devices)
      ensures !ev.pressed ==>
                machine.current == "IDLE" && action == old(action)
                && broadcasts == old(broadcasts)
                     + (if old(machine.current) != "IDLE" then [Snapshot("IDLE", old(action))] else [])
      ensures ev.pressed ==>
                var hits := Hits(actions, ev.keys);
                machine.current == (if hits == [] then old(machine.current) else "ACTION")
                && action == (if hits == [] then old(action) else VStr(hits[|hits| - 1]))
                && broadcasts == old(broadcasts) + Announce(old(machine.current), old(action), hits)
    {
      if !ev.pressed {
        StatesAreUpper();
        var r := SetStateInternal(VStr("IDLE"), VNone, false);
      } else {
        PressEach(ev.keys);
      }
    }

    /** The mapped keys of a key-down event in turn, each setting `ACTION`
        with its action. */
    method PressEach(keys: seq<string>)
      requires Valid()
      modifies this, machine
      ensures Valid() && devices == old(devices)
      ensures var hits := Hits(actions, keys);
              machine.current == Current(old(machine.current), hits)
              && action == Latest(old(action), hits)
              && broadcasts == old(broadcasts) + Announce(old(machine.current), old(action), hits)
    {
      ghost var name0, action0, log0 := machine.current, action, broadcasts;
      ghost var done: seq<string> := [];
      var i := 0;
      while i < |keys|
        invariant 0 <= i <= |keys|
        invariant Valid() && devices == old(devices)
        invariant done == Hits(actions, keys[..i])
        invariant machine.current == Current(name0, done) && action == Latest(action0, done)
        invariant broadcasts == log0 + Announce(name0, action0, done)
      {
        var key := keys[i];
        HitsSnoc(actions, keys[..i], key);
        assert keys[..i + 1] == keys[..i] + [key];
        if key in actions {
          var a := actions[key];
          AnnounceSnoc(name0, action0, done, a);
          Associative(log0, Announce(name0, action0, done), Step(machine.current, action, a));
          Press(a);
          done := done + [a];
        }
        i := i + 1;
      }
      assert keys[..i] == keys;
    }

    /** One mapped key: `ACTION` with its action. */
    method Press(a: string)
      requires Valid()
      modifies this, machine
      ensures Valid() && devices == old(devices)
      ensures machine.current == "ACTION" && action == VStr(a)
      ensures broadcasts == old(broadcasts) + Step(old(machine.current), old(action), a)
    {
      StatesAreUpper();
      var r := SetStateInternal(VStr("ACTION"), VStr(a), false);
    }

    /** `update_available_inputs` over the devices currently listed: each
        admitted device not yet known is listened to. */
    method UpdateAvailableInputs(listed: seq<Device>) returns (again: bool)
      requires Valid()
      modifies this
      ensures Valid() && again
      ensures devices == Admit(old(devices), filter, listed)
      ensures action == old(action) && broadcasts == old(broadcasts)
    {
      var i := 0;
      while i < |listed|
        invariant 0 <= i <= |listed|
        invariant Distinct(devices)
        invariant Admit(devices, filter, listed[i..]) == Admit(old(devices), filter, listed)
        invariant action == old(action) && broadcasts == old(broadcasts)
      {
        assert listed[i..][1..] == listed[i + 1..];
        var d := listed[i];
        if d.phys !in devices && (filter == [] || d.name in filter || d.path in filter || d.phys in filter) {
          AdmitSpec(devices + [d.phys], filter, []);
          devices := devices + [d.phys];
        }
        i := i + 1;
      }
      assert listed[i..] == [];
      again := true;
    }
  }

  /** A failed parse fails with the `ValueError` of a malformed entry. */
  lemma {:induction false} ActionMapError(entries: seq<string>)
    requires ActionMap(entries).Err?
    ensures ActionMap(entries).error == ValueError
    decreases |entries|
  {
    if entries != [] && ActionMap(entries[..|entries| - 1]).Err? {
      ActionMapError(entries[..|entries| - 1]);
    }
  }

  lemma {:induction false} HitsSnoc(actions: map<string, string>, keys: seq<string>, k: string)
    ensures Hits(actions, keys + [k]) == Hits(actions, keys) + (if k in actions then [actions[k]] else [])
    decreases |keys|
  {
    var t := if k in actions then [actions[k]] else [];
    if keys == [] {
      assert [] + [k] == [k];
      assert [k][1..] == [];
    } else {
      var h := if keys[0] in actions then [actions[keys[0]]] else [];
      calc {
        Hits(actions, keys + [k]);
      == { assert (keys + [k])[0] == keys[0] && (keys + [k])[1..] == keys[1..] + [k]; }
        h + Hits(actions, keys[1..] + [k]);
      == { HitsSnoc(actions, keys[1..], k); }
        h + (Hits(actions, keys[1..]) + t);
      == { Associative(h, Hits(actions, keys[1..]), t); }
        Hits(actions, keys) + t;
      }
    }
  }

  lemma {:induction false} AnnounceSnoc(name: string, action: Value, hits: seq<string>, a: string)
    ensures Announce(name, action, hits + [a])
              == Announce(name, action, hits) + Step(Current(name, hits), Latest(action, hits), a)
    decreases |hits|
  {
    if hits == [] {
      assert [] + [a] == [a];
      assert [a][1..] == [];
    } else {
      var h := Step(name, action, hits[0]);
      var rest := Announce("ACTION", VStr(hits[0]), hits[1..]);
      var t := Step(Current(name, hits), Latest(action, hits), a);
      assert Current("ACTION", hits[1..]) == Current(name, hits);
      assert Latest(VStr(hits[0]), hits[1..]) == Latest(action, hits);
      calc {
        Announce(name, action, hits + [a]);
      == { assert (hits + [a])[0] == hits[0] && (hits + [a])[1..] == hits[1..] + [a]; }
        h + Announce("ACTION", VStr(hits[0]), hits[1..] + [a]);
      == { AnnounceSnoc("ACTION", VStr(hits[0]), hits[1..], a); }
        h + (rest + t);
      == { Associative(h, rest, t); }
        Announce(name, action, hits) + t;
      }
    }
  }
}
