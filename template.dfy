/**
 * The reference resource of template.py: a fixed `READY` state and a
 * `temperature`, broadcast under the resource's own path whenever either
 * changes or the broadcast is forced.
 */
module Template {
  import opened Values
  import opened Strings
  import opened Service

  class Template {
    const path: string
    const machine: StateMachine
    var temperature: Value
    /** The states passed to `notify(path, ...)` so far, oldest first. */
    var broadcasts: seq<Value>

    ghost predicate Valid()
      reads this, machine
    {
      machine.Valid() && machine.allowed == ["READY"] && machine.next == map[]
    }

    /** `get_state`. */
    function State(): Value
      reads this, machine
    {
      VDict(map["state" := VStr(machine.current), "temperature" := temperature])
    }

    /** `__init__` followed by `on_start`: state `READY`, temperature 50,
        and one forced broadcast of that state. */
    constructor (path: string)
      ensures Valid() && fresh(machine)
      ensures this.path == path
      ensures machine.current == "READY" && temperature == VInt(50)
      ensures broadcasts == [VDict(map["state" := VStr("READY"), "temperature" := VInt(50)])]
    {
      this.path := path;
      UpperIsCanonical("READY");
      machine := new StateMachine(["READY"], map[], "READY");
      temperature := VInt(50);
      broadcasts := [];
      new;
      var r := SetStateInternal(VNone, VNone, true);
    }

    /** `_set_state_internal(state, temperature, force)`; `VNone` stands for
        an argument left out. A truthy state other than the current one goes
        through the state setter; a rejected one raises before the
        temperature is looked at. The `finally` clause broadcasts when
        forced or when anything was applied, even after a rejection. */
    method SetStateInternal(state: Value, temp: Value, force: bool) returns (r: Outcome<ServiceError>)
      requires Valid()
      modifies this, machine
      ensures Valid()
      ensures var tried := Truthy(state) && state != VStr(old(machine.current));
              r == (if tried then machine.Try(old(machine.current), state) else Pass)
      ensures r.Fail? ==> machine.current == old(machine.current) && temperature == old(temperature)
      ensures r.Fail? ==> r.error == UnrecognisedState || r.error == Python(AttributeError)
      ensures r.Pass? ==> machine.current == "READY"
      ensures r.Pass? ==> temperature == (if temp != VNone then temp else old(temperature))
      ensures var applied := r.Pass? && ((Truthy(state) && state != VStr(old(machine.current)))
                                         || (temp != VNone && temp != old(temperature)));
              broadcasts == old(broadcasts) + (if force || applied then [State()] else [])
    {
      var changed;
      changed, r := Transition(machine, state);
      changed := changed || force;
      if r.Pass? && temp != VNone && temp != temperature {
        changed := true;
        temperature := temp;
      }
      if changed {
        broadcasts := broadcasts + [State()];
      }
    }

    /** `set_state(payload)`: only a truthy `temperature` entry acts, so a
        temperature of 0 is ignored; a payload that is not a dictionary has
        no `get` and raises `AttributeError`. */
    method SetState(payload: Value) returns (r: Outcome<ServiceError>)
      requires Valid()
      modifies this, machine
      ensures Valid()
      ensures machine.current == old(machine.current)
      ensures r == (if payload.VDict? then Pass else Fail(Python(AttributeError)))
      ensures var t := GetOr(payload, "temperature", VNone);
              if t.Ok? && Truthy(t.value) then
                temperature == t.value
                && broadcasts == old(broadcasts) + (if t.value != old(temperature) then [State()] else [])
              else
                temperature == old(temperature) && broadcasts == old(broadcasts)
    {
      var t := GetOr(payload, "temperature", VNone);
      if t.Err? {
        return Fail(Python(t.error));
      }
      r := Pass;
      if Truthy(t.value) {
        r := SetStateInternal(VNone, t.value, false);
      }
    }
  }
}
