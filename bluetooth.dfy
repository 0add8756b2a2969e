/**
 * The Bluetooth resource of bluetooth.py: every configured device is
 * classified on each pass of the polling loop from what `bluetoothctl info`
 * reports about it (scanning for it, pairing it, connecting it, or
 * connected), scan, pair and connect requests are sent to the resource's
 * own actor as it goes, and the table of device states is broadcast when it
 * changes.
 *
 * The `info` answers of a pass are a parameter; the requests are a log.
 */
module Bluetooth {
  import opened Values
  import opened Strings
  import opened Service

  /** A request the polling loop sends through the resource's own proxy. */
  datatype Request = StartScan | StopScan | Pair(mac: string) | Connect(mac: string)

  /** How one device is classified: its state, the requests it causes and
      whether the pass is now waiting for a connection. */
  datatype Verdict = Verdict(state: string, requests: seq<Request>, waiting: bool)

  /** Where a pass stands: the device table built so far, the requests
      sent so far, the sticky `waiting_for_connection` flag, and the error
      that ended the pass, if any. */
  datatype Sweep = Sweep(devs: map<string, string>, requests: seq<Request>, waiting: bool, error: Option<PyError>)

  const DEVICE_STATES: set<string> := {"SCANNING", "PAIRING", "CONNECTING", "CONNECTED"}

  /** The classification of device `d` given its `info` answer: an empty
      answer means it is out of reach; `Paired` and `Connected` are read
      with `[]`, so a missing one raises `KeyError`. */
  function Classify(d: string, info: map<string, Value>): (r: Result<Verdict, PyError>)
    ensures r.Err? ==> r.error == KeyError && info != map[]
    ensures r.Ok? ==> r.value.state in DEVICE_STATES
    ensures r.Ok? ==> (r.value.waiting <==> r.value.state != "CONNECTED")
    ensures r.Ok? ==> (r.value.requests == [] <==> r.value.state == "CONNECTED")
    ensures r.Ok? && r.value.waiting ==> r.value.requests[0] == StartScan
    ensures r.Ok? ==> StopScan !in r.value.requests
  {
    if info == map[] then Ok(Verdict("SCANNING", [StartScan], true))
    else if "Paired" !in info then Err(KeyError)
    else if info["Paired"] == VStr("no") then Ok(Verdict("PAIRING", [StartScan, Pair(d)], true))
    else if "Connected" !in info then Err(KeyError)
    else if info["Connected"] == VStr("no") then Ok(Verdict("CONNECTING", [StartScan, Connect(d)], true))
    else Ok(Verdict("CONNECTED", [], false))
  }

  /** The classification follows the order of the checks: out of reach,
      then not paired, then not connected. */
  lemma ClassifyCases(d: string, info: map<string, Value>)
    ensures info == map[] ==> Classify(d, info) == Ok(Verdict("SCANNING", [StartScan], true))
    ensures info != map[] && "Paired" in info && info["Paired"] == VStr("no") ==>
              Classify(d, info) == Ok(Verdict("PAIRING", [StartScan, Pair(d)], true))
    ensures "Paired" in info && info["Paired"] != VStr("no") && "Connected" in info && info["Connected"] == VStr("no") ==>
              Classify(d, info) == Ok(Verdict("CONNECTING", [StartScan, Connect(d)], true))
    ensures Classify(d, info) == Ok(Verdict("CONNECTED", [], false)) <==> Connected(info)
  {
  }

  /** `info` reports the device paired and connected. */
  predicate Connected(info: map<string, Value>)
  {
    "Paired" in info && info["Paired"] != VStr("no") && "Connected" in info && info["Connected"] != VStr("no")
  }

  /** One device of a pass: its verdict is recorded and its requests sent,
      followed by `stop_scan` while no device so far is waiting. A raised
      error ends the pass; nothing happens after it. */
  function Step(st: Sweep, d: string, info: map<string, Value>): (r: Sweep)
    ensures st.error.Some? ==> r == st
    ensures |st.requests| <= |r.requests| && r.requests[..|st.requests|] == st.requests
    ensures r.error.None? ==> r.devs.Keys == st.devs.Keys + {d}
  {
    if st.error.Some? then st
    else
      match Classify(d, info)
      case Err(e) => st.(error := Some(e))
      case Ok(v) =>
        var waiting := st.waiting || v.waiting;
        Sweep(st.devs[d := v.state], st.requests + v.requests + (if waiting then [] else [StopScan]), waiting, None)
  }

  const START: Sweep := Sweep(map[], [], false, None)

  /** A pass over the first devices, `devs` starting empty and
      `waiting_for_connection` false. */
  function Round(ds: seq<string>, infos: seq<map<string, Value>>): (r: Sweep)
    requires |ds| == |infos|
    ensures r.error.Some? ==> r.error.value == KeyError
    decreases |ds|
  {
    if ds == [] then START
    else Step(Round(ds[..|ds| - 1], infos[..|infos| - 1]), ds[|ds| - 1], infos[|infos| - 1])
  }

  /** Once a prefix of the pass raised, the whole pass ends with it. */
  lemma {:induction false} RoundErrSticks(ds: seq<string>, infos: seq<map<string, Value>>, i: nat)
    requires |ds| == |infos| && i <= |ds|
    requires Round(ds[..i], infos[..i]).error.Some?
    ensures Round(ds, infos) == Round(ds[..i], infos[..i])
    decreases |ds| - i
  {
    if i < |ds| {
      assert ds[..i + 1][..i] == ds[..i];
      assert infos[..i + 1][..i] == infos[..i];
      RoundErrSticks(ds, infos, i + 1);
    } else {
      assert ds[..i] == ds && infos[..i] == infos;
    }
  }

  /** A pass that raised nothing has an entry for exactly the configured
      devices. */
  lemma {:induction false} RoundDevices(ds: seq<string>, infos: seq<map<string, Value>>)
    requires |ds| == |infos|
    ensures Round(ds, infos).error.None? ==> forall d :: d in Round(ds, infos).devs <==> d in ds
    decreases |ds|
  {
    if ds != [] {
      var n := |ds| - 1;
      RoundDevices(ds[..n], infos[..n]);
      RoundLast(ds, infos);
      assert ds == ds[..n] + [ds[n]];
    }
  }

  /** Devices that are all connected produce a table of `CONNECTED`
      entries and one `stop_scan` per device, nothing else. */
  lemma {:induction false} AllConnected(ds: seq<string>, infos: seq<map<string, Value>>)
    requires |ds| == |infos|
    requires forall i :: 0 <= i < |infos| ==> Connected(infos[i])
    ensures Round(ds, infos).error.None? && !Round(ds, infos).waiting
    ensures Round(ds, infos).requests == seq(|ds|, _ => StopScan)
    ensures forall d :: d in Round(ds, infos).devs <==> d in ds
    ensures forall d :: d in Round(ds, infos).devs ==> Round(ds, infos).devs[d] == "CONNECTED"
    decreases |ds|
  {
    if ds != [] {
      var n := |ds| - 1;
      assert forall i :: 0 <= i < n ==> infos[..n][i] == infos[i];
      AllConnected(ds[..n], infos[..n]);
      var pre := Round(ds[..n], infos[..n]);
      RoundLast(ds, infos);
      ClassifyCases(ds[n], infos[n]);
      assert Round(ds, infos) == Sweep(pre.devs[ds[n] := "CONNECTED"], pre.requests + [StopScan], false, None);
      StopScanConnected(pre.requests, n);
      assert ds == ds[..n] + [ds[n]];
    }
  }

  /** How many devices at the front of the pass are connected. */
  function Leading(ds: seq<string>, infos: seq<map<string, Value>>): (k: nat)
    requires |ds| == |infos|
    ensures k <= |ds|
    decreases |ds|
  {
    if ds == [] then 0
    else if Classify(ds[0], infos[0]) != Ok(Verdict("CONNECTED", [], false)) then 0
    else 1 + Leading(ds[1..], infos[1..])
  }

  /** The number of connected devices at the front, counted from the
      end: a prefix is all connected exactly when it is within the
      leading run. */
  lemma {:induction false} LeadingPrefix(ds: seq<string>, infos: seq<map<string, Value>>, n: nat)
    requires |ds| == |infos| && n <= |ds|
    ensures Leading(ds[..n], infos[..n]) == (if Leading(ds, infos) < n then Leading(ds, infos) else n)
    decreases n
  {
    if n > 0 && ds != [] {
      LeadingPrefix(ds[1..], infos[1..], n - 1);
      assert ds[..n][1..] == ds[1..][..n - 1];
      assert infos[..n][1..] == infos[1..][..n - 1];
    }
  }

  /** `stop_scan` is sent only while no device so far is waiting: the
      requests of a pass that did not raise are one `stop_scan` per leading
      connected device, then requests that never stop the scan; the pass
      is waiting exactly when some device was not connected. */
  lemma {:induction false} StopScanFirst(ds: seq<string>, infos: seq<map<string, Value>>)
    requires |ds| == |infos|
    requires Round(ds, infos).error.None?
    ensures var k := Leading(ds, infos);
            var reqs := Round(ds, infos).requests;
            k <= |reqs| && reqs[..k] == seq(k, _ => StopScan) && StopScan !in reqs[k..]
            && (Round(ds, infos).waiting <==> k < |ds|)
            && (k == |ds| ==> |reqs| == k)
    decreases |ds|
  {
    if ds != [] {
      var n := |ds| - 1;
      var pre := Round(ds[..n], infos[..n]);
      RoundLast(ds, infos);
      StopScanFirst(ds[..n], infos[..n]);
      LeadingPrefix(ds, infos, n);
      LeadingAll(ds, infos, n);
      var v := Classify(ds[n], infos[n]).value;
      if Leading(ds, infos) == |ds| {
        StopScanConnected(pre.requests, n);
      } else {
        StopScanWaiting(pre.requests, v.requests, Leading(ds, infos));
      }
    }
  }

  /** The last device of a pass comes last. */
  lemma RoundLast(ds: seq<string>, infos: seq<map<string, Value>>)
    requires |ds| == |infos| && ds != []
    ensures var n := |ds| - 1;
            Round(ds, infos) == Step(Round(ds[..n], infos[..n]), ds[n], infos[n])
  {
  }

  /** One more `stop_scan` after a run of them. */
  lemma StopScanConnected(reqs: seq<Request>, n: nat)
    requires reqs == seq(n, _ => StopScan)
    ensures reqs + [StopScan] == seq(n + 1, _ => StopScan)
  {
  }

  /** Requests without `stop_scan` after the run keep it intact. */
  lemma StopScanWaiting(reqs: seq<Request>, more: seq<Request>, k: nat)
    requires k <= |reqs| && reqs[..k] == seq(k, _ => StopScan) && StopScan !in reqs[k..]
    requires StopScan !in more
    ensures (reqs + more)[..k] == seq(k, _ => StopScan) && StopScan !in (reqs + more)[k..]
  {
    assert (reqs + more)[..k] == reqs[..k];
    assert (reqs + more)[k..] == reqs[k..] + more;
  }

  /** The leading run reaches the end exactly when the last device is
      connected and the run reaches it. */
  lemma {:induction false} LeadingAll(ds: seq<string>, infos: seq<map<string, Value>>, n: nat)
    requires |ds| == |infos| && n + 1 == |ds|
    ensures Leading(ds, infos) == |ds| <==>
              Leading(ds[..n], infos[..n]) == n && Classify(ds[n], infos[n]) == Ok(Verdict("CONNECTED", [], false))
    decreases |ds|
  {
    if n > 0 {
      LeadingAll(ds[1..], infos[1..], n - 1);
      assert ds[..n][1..] == ds[1..][..n - 1];
      assert infos[..n][1..] == infos[1..][..n - 1];
      assert ds[1..][n - 1] == ds[n];
      assert infos[1..][n - 1] == infos[n];
    } else {
      assert ds[..n] == [] && infos[..n] == [];
    }
  }

  /** The state this resource broadcasts: its state and, per device,
      `{'state': ...}`. */
  function Snapshot(name: string, devices: map<string, string>): (r: Value)
    ensures r.VDict? && r.fields.Keys == {"state", "devices"} && r.fields["state"] == VStr(name)
    ensures r.fields["devices"].VDict? && r.fields["devices"].fields.Keys == devices.Keys
    ensures forall d :: d in devices ==>
              Subscript(r.fields["devices"].fields[d], "state") == Ok(VStr(devices[d]))
  {
    VDict(map["state" := VStr(name),
              "devices" := VDict(map d | d in devices :: VDict(map["state" := VStr(devices[d])]))])
  }

  /** Different device tables give different broadcast states. */
  lemma SnapshotInjective(name: string, a: map<string, string>, b: map<string, string>)
    ensures Snapshot(name, a) == Snapshot(name, b) <==> a == b
  {
    if Snapshot(name, a) == Snapshot(name, b) {
      var fa := map d | d in a :: VDict(map["state" := VStr(a[d])]);
      var fb := map d | d in b :: VDict(map["state" := VStr(b[d])]);
      assert VDict(fa) == Snapshot(name, a).fields["devices"];
      assert fa == fb;
      forall d | d in a
        ensures d in b && a[d] == b[d]
      {
        assert fa[d] == fb[d];
        assert fa[d].fields["state"] == VStr(a[d]);
      }
      forall d | d in b
        ensures d in a
      {
        assert d in fb;
      }
    }
  }

  class Bluetooth {
    const path: string
    /** The configured devices, by MAC address, in configuration order. */
    const configured: seq<string>
    const machine: StateMachine
    /** `_devices`: the state of each device. */
    var devices: map<string, string>
    /** Requests sent through the proxy, oldest first. */
    var requests: seq<Request>
    /** The states passed to `notify(path, ...)` so far, oldest first. */
    var broadcasts: seq<Value>

    ghost predicate Valid()
      reads this, machine
    {
      machine.Valid() && machine.allowed == ["READY"] && machine.next == map[]
    }

    function State(): Value
      reads this, machine
    {
      Snapshot(machine.current, devices)
    }

    /** `__init__` followed by `on_start`: `READY`, every configured device
        `UNKNOWN`, one forced broadcast. */
    constructor (path: string, configured: seq<string>)
      ensures Valid() && fresh(machine) && machine.current == "READY"
      ensures this.path == path && this.configured == configured
      ensures devices == map d | d in configured :: "UNKNOWN"
      ensures requests == []
      ensures broadcasts == [Snapshot("READY", devices)]
    {
      this.path := path;
      this.configured := configured;
      UpperIsCanonical("READY");
      machine := new StateMachine(["READY"], map[], "READY");
      devices := map d | d in configured :: "UNKNOWN";
      requests := [];
      broadcasts := [];
      new;
      var r := SetStateInternal(VNone, None, true);
    }

    /** `_set_state_internal(state, devices, force)`: a truthy state other
        than the current one is validated and applied; a device table
        given and different from the current one replaces it; the `finally`
        clause broadcasts when forced or when either changed. */
    method SetStateInternal(state: Value, devs: Option<map<string, string>>, force: bool)
      returns (r: Outcome<ServiceError>)
      requires Valid()
      modifies this, machine
      ensures Valid() && requests == old(requests)
      ensures var tried := Truthy(state) && state != VStr(old(machine.current));
              var replaced := r.Pass? && devs.Some? && devs.value != old(devices);
              r == (if tried then machine.Try(old(machine.current), state) else Pass)
              && machine.current == (if tried && r.Pass? then Upper(state.s) else old(machine.current))
              && devices == (if replaced then devs.value else old(devices))
              && broadcasts == old(broadcasts) + (if force || (tried && r.Pass?) || replaced then [State()] else [])
    {
      var changed;
      changed, r := Transition(machine, state);
      changed := changed || force;
      if r.Pass? && devs.Some? && devs.value != devices {
        devices := devs.value;
        changed := true;
      }
      if changed {
        broadcasts := broadcasts + [State()];
      }
    }

    /** One pass of `process_devices`, given the `info` answer for each
        configured device: the requests of the pass are sent, and unless a
        device raised the table is replaced, and broadcast, when it
        differs. A raised error ends the polling loop and leaves the table
        as it was. */
    method ProcessDevices(infos: seq<map<string, Value>>) returns (r: Outcome<PyError>)
      requires Valid() && |infos| == |configured|
      modifies this, machine
      ensures Valid() && machine.current == old(machine.current)
      ensures var p := Round(configured, infos);
              requests == old(requests) + p.requests
              && r == (if p.error.Some? then Fail(p.error.value) else Pass)
              && devices == (if p.error.None? then p.devs else old(devices))
              && broadcasts == old(broadcasts)
                   + (if p.error.None? && p.devs != old(devices) then [Snapshot(machine.current, p.devs)] else [])
    {
      var st := START;
      var i := 0;
      var requests0 := requests;
      while i < |configured|
        invariant 0 <= i <= |configured| && requests == requests0 + st.requests
        invariant st == Round(configured[..i], infos[..i]) && st.error.None?
        invariant devices == old(devices) && broadcasts == old(broadcasts)
        modifies this
      {
        assert configured[..i + 1][..i] == configured[..i];
        assert infos[..i + 1][..i] == infos[..i];
        st := Step(st, configured[i], infos[i]);
        requests := requests0 + st.requests;
        if st.error.Some? {
          RoundErrSticks(configured, infos, i + 1);
          return Fail(st.error.value);
        }
        i := i + 1;
      }
      assert configured[..i] == configured && infos[..i] == infos;
      Publish(st.devs);
      r := Pass;
    }

    /** `_set_state_internal(devices=devs)`: the table is replaced, and
        broadcast when it differs from the current one. */
    method Publish(devs: map<string, string>)
      requires Valid()
      modifies this, machine
      ensures Valid() && machine.current == old(machine.current) && requests == old(requests)
      ensures devices == devs
      ensures broadcasts == old(broadcasts) + (if devs != old(devices) then [Snapshot(machine.current, devs)] else [])
    {
      var r := SetStateInternal(VNone, Some(devs), false);
    }
  }
}
