/**
 * The audio alert resource of audio_alerts.py. Configured triggers
 * `resource:attr:value:file` name a sound to play when the state of
 * `resource` has `attr` equal to `value`; an `attr` of the form `a.b`
 * watches the entry `b` of the dictionary under `a`. The resource follows
 * every triggering resource's state changes and is `PLAYING` while a
 * pipeline plays, `READY` otherwise.
 *
 * The pipelines are the outside world: the files launched form a log and
 * the bus messages are parameters.
 */
module AudioAlerts {
  import opened Values
  import opened Strings
  import opened Service
  import opened StateChange

  const STATES: seq<string> := ["READY", "PLAYING"]

  /** The key of a trigger's file: `str(value)` of a plain value, or of the
      one-entry dictionary `{b: value}` of a dotted attribute. */
  datatype Key = Plain(value: string) | Sub(field: string, value: string)

  /** One parsed trigger. */
  datatype Trigger = Trigger(resource: string, attr: string, key: Key, file: string)

  /** `_triggers` with the insertion order Python's dictionaries keep:
      the file per resource, attribute and key, the attributes of each
      resource in order, and the resources in order. */
  datatype Table = Table(files: map<string, map<string, map<Key, string>>>,
                         attrs: map<string, seq<string>>,
                         watched: seq<string>)

  /** A bus message of a launched pipeline. */
  datatype BusMessage = Eos | StateChanged(name: string) | Error | Other

  /** The state this resource broadcasts. */
  function Snapshot(name: string): Value
  {
    VDict(map["state" := VStr(name)])
  }

  // ---------------------------------------------------------------- triggers

  /** One trigger string: stripped and split on `:` into exactly four
      fields, an attribute holding `.` into exactly two parts; unpacking
      raises `ValueError` otherwise. */
  function Parse(item: string): (r: Result<Trigger, PyError>)
    ensures r.Ok? ==> Count(Strip(item), ':') == 3
    ensures Count(Strip(item), ':') != 3 ==> r == Err(ValueError)
    ensures r.Ok? ==> ':' !in r.value.resource && ':' !in r.value.file && '.' !in r.value.attr
    ensures r.Err? ==> r.error == ValueError
  {
    var fields := Split(Strip(item), ':');
    if |fields| != 4 then Err(ValueError)
    else
      var attr := fields[1];
      if '.' in attr then
        var parts := Split(attr, '.');
        if |parts| != 2 then Err(ValueError)
        else Ok(Trigger(fields[0], parts[0], Sub(parts[1], fields[2]), fields[3]))
      else Ok(Trigger(fields[0], attr, Plain(fields[2]), fields[3]))
  }

  /** A dotted attribute `a.b` watches entry `b` under `a`. */
  lemma ParseDotted(resource: string, a: string, b: string, value: string, file: string)
    requires ':' !in resource && ':' !in a && ':' !in b && ':' !in value && ':' !in file
    requires '.' !in a && '.' !in b && a != ""
    requires resource != [] && !IsSpace(resource[0]) && file != [] && !IsSpace(file[|file| - 1])
    ensures Parse(resource + ":" + a + "." + b + ":" + value + ":" + file)
         == Ok(Trigger(resource, a, Sub(b, value), file))
  {
    var attr := a + "." + b;
    DottedAttr(a, b);
    DottedFields(resource, attr, value, file);
    assert resource + ":" + a + "." + b + ":" + value + ":" + file == resource + ":" + attr + ":" + value + ":" + file;
  }

  /** The four fields of a trigger string joined by `:` split back apart. */
  lemma DottedFields(resource: string, attr: string, value: string, file: string)
    requires ':' !in resource && ':' !in attr && ':' !in value && ':' !in file
    requires resource != [] && !IsSpace(resource[0]) && file != [] && !IsSpace(file[|file| - 1])
    ensures var item := resource + ":" + attr + ":" + value + ":" + file;
            Strip(item) == item && Split(item, ':') == [resource, attr, value, file]
  {
    var item := resource + ":" + attr + ":" + value + ":" + file;
    assert item[0] == resource[0] && item[|item| - 1] == file[|file| - 1];
    var fs := [resource, attr, value, file];
    SplitJoin(fs, ':');
    assert Join(fs, ':') == item by {
      assert fs[1..][1..][1..] == [file];
      assert Join(fs[1..][1..], ':') == value + ":" + file;
      assert Join(fs[1..], ':') == attr + ":" + value + ":" + file;
    }
  }

  /** `a.b` holds a `.` and splits into `a` and `b`. */
  lemma DottedAttr(a: string, b: string)
    requires ':' !in a && ':' !in b && '.' !in a && '.' !in b
    ensures var attr := a + "." + b;
            ':' !in attr && '.' in attr && Split(attr, '.') == [a, b]
  {
    var attr := a + "." + b;
    SplitJoin([a, b], '.');
    assert Join([a, b], '.') == attr;
    assert attr[|a|] == '.';
  }

  /** `_triggers` after adding one trigger: a new resource gets an entry
      (and is watched), a new attribute gets an entry, and the file is
      stored under the key, replacing any earlier one. */
  function Add(t: Table, g: Trigger): (r: Table)
    ensures g.resource in r.files && g.attr in r.files[g.resource]
            && g.key in r.files[g.resource][g.attr] && r.files[g.resource][g.attr][g.key] == g.file
    ensures r.files.Keys == t.files.Keys + {g.resource}
    ensures r.watched == if g.resource in t.files then t.watched else t.watched + [g.resource]
  {
    var newResource := g.resource !in t.files;
    var old_attrs := if newResource then map[] else t.files[g.resource];
    var order := if newResource || g.resource !in t.attrs then [] else t.attrs[g.resource];
    var files_of := if g.attr in old_attrs then old_attrs[g.attr] else map[];
    Table(t.files[g.resource := old_attrs[g.attr := files_of[g.key := g.file]]],
          t.attrs[g.resource := if g.attr in old_attrs then order else order + [g.attr]],
          if newResource then t.watched + [g.resource] else t.watched)
  }

  /** Adding a trigger leaves every other resource, and every other
      attribute of its own resource, as it was. */
  lemma AddKeepsOthers(t: Table, g: Trigger)
    ensures forall res :: res in t.files && res != g.resource ==> Add(t, g).files[res] == t.files[res]
    ensures g.resource in t.files ==>
              Add(t, g).files[g.resource].Keys == t.files[g.resource].Keys + {g.attr}
              && forall a :: a in t.files[g.resource] && a != g.attr ==>
                   Add(t, g).files[g.resource][a] == t.files[g.resource][a]
  {
  }

  /** Each trigger string parsed. */
  function Parsed(items: seq<string>): (r: seq<Result<Trigger, PyError>>)
    ensures |r| == |items| && forall i :: 0 <= i < |items| ==> r[i] == Parse(items[i])
  {
    seq(|items|, i requires 0 <= i < |items| => Parse(items[i]))
  }

  /** `_setup_triggers` over the parsed trigger strings, in order: the
      table built before the first malformed string, and the error it
      raised. */
  function Build(gs: seq<Result<Trigger, PyError>>): (r: (Table, Option<PyError>))
    ensures |r.0.watched| <= |gs|
    decreases |gs|
  {
    if gs == [] then (Table(map[], map[], []), None)
    else
      var (t, e) := Build(gs[..|gs| - 1]);
      if e.Some? then (t, e)
      else
        var g := gs[|gs| - 1];
        if g.Err? then (t, Some(g.error)) else (Add(t, g.value), None)
  }

  predicate Distinct(xs: seq<string>)
  {
    forall i, j :: 0 <= i < j < |xs| ==> xs[i] != xs[j]
  }

  /** The resources watched are exactly those with triggers, each once,
      and every resource's attribute order lists exactly its attributes. */
  ghost predicate WellBuilt(t: Table)
  {
    Distinct(t.watched)
    && (forall r :: r in t.watched <==> r in t.files)
    && (forall r :: r in t.files ==>
          r in t.attrs && Distinct(t.attrs[r]) && (forall a :: a in t.attrs[r] <==> a in t.files[r]))
  }

  lemma AddKeeps(t: Table, g: Trigger)
    requires WellBuilt(t)
    ensures WellBuilt(Add(t, g))
    ensures g.resource in Add(t, g).files && g.attr in Add(t, g).files[g.resource]
    ensures Add(t, g).files[g.resource][g.attr][g.key] == g.file
  {
    var t2 := Add(t, g);
    AddWatched(t, g);
    assert Distinct(t2.watched) by {
      if g.resource !in t.files {
        assert g.resource !in t.watched;
      }
    }
    forall r | r in t2.files
      ensures r in t2.attrs && Distinct(t2.attrs[r]) && (forall a :: a in t2.attrs[r] <==> a in t2.files[r])
    {
      if r == g.resource {
        AddAttrs(t, g);
      } else {
        assert t2.files[r] == t.files[r] && t2.attrs[r] == t.attrs[r];
      }
    }
  }

  /** Adding a trigger watches its resource when it is new, and nothing
      else. */
  lemma AddWatched(t: Table, g: Trigger)
    ensures Add(t, g).watched == if g.resource in t.files then t.watched else t.watched + [g.resource]
    ensures Add(t, g).files.Keys == t.files.Keys + {g.resource}
  {
  }

  /** Adding a trigger lists its attribute once for its resource. */
  lemma AddAttrs(t: Table, g: Trigger)
    requires WellBuilt(t)
    ensures var t2 := Add(t, g);
            g.resource in t2.attrs && Distinct(t2.attrs[g.resource])
            && forall a :: a in t2.attrs[g.resource] <==> a in t2.files[g.resource]
  {
    var t2 := Add(t, g);
    var order := if g.resource !in t.files then [] else t.attrs[g.resource];
    var old_attrs := if g.resource !in t.files then map[] else t.files[g.resource];
    assert forall a :: a in order <==> a in old_attrs;
    if g.attr !in old_attrs {
      assert t2.attrs[g.resource] == order + [g.attr];
      assert g.attr !in order;
    }
  }

  lemma {:induction false} BuildWellBuilt(gs: seq<Result<Trigger, PyError>>)
    ensures WellBuilt(Build(gs).0)
    decreases |gs|
  {
    if gs != [] {
      BuildWellBuilt(gs[..|gs| - 1]);
      var (t, e) := Build(gs[..|gs| - 1]);
      if e.None? && gs[|gs| - 1].Ok? {
        AddKeeps(t, gs[|gs| - 1].value);
      }
    }
  }

  /** Conversely, every resource watched comes from some trigger. */
  lemma {:induction false} BuildWatchedFromTriggers(gs: seq<Result<Trigger, PyError>>)
    ensures var t := Build(gs).0;
            forall r :: r in t.watched ==> exists i :: 0 <= i < |gs| && gs[i].Ok? && gs[i].value.resource == r
    decreases |gs|
  {
    if gs != [] {
      var init := gs[..|gs| - 1];
      BuildWatchedFromTriggers(init);
      assert forall r :: r in Build(init).0.watched ==> exists i :: 0 <= i < |init| && init[i].Ok? && init[i].value.resource == r;
      var (t0, e) := Build(init);
      var n := |gs| - 1;
      forall r | r in Build(gs).0.watched
        ensures exists i :: 0 <= i < |gs| && gs[i].Ok? && gs[i].value.resource == r
      {
        if e.None? && gs[n].Ok? && r !in t0.watched {
          assert gs[n].value.resource == r;
        } else {
          var i :| 0 <= i < |init| && init[i].Ok? && init[i].value.resource == r;
          assert gs[i] == init[i];
        }
      }
    }
  }

  /** Every attribute of a resource in the table comes from some trigger. */
  lemma {:induction false} BuildFromTriggers(gs: seq<Result<Trigger, PyError>>)
    ensures var t := Build(gs).0;
            forall r, a :: r in t.files && a in t.files[r] ==>
              exists i :: 0 <= i < |gs| && gs[i].Ok? && gs[i].value.resource == r && gs[i].value.attr == a
    decreases |gs|
  {
    if gs != [] {
      var init := gs[..|gs| - 1];
      BuildFromTriggers(init);
      assert forall r, a :: r in Build(init).0.files && a in Build(init).0.files[r] ==>
               exists i :: 0 <= i < |init| && init[i].Ok? && init[i].value.resource == r && init[i].value.attr == a;
      var (t0, e) := Build(init);
      var n := |gs| - 1;
      forall r, a | r in Build(gs).0.files && a in Build(gs).0.files[r]
        ensures exists i :: 0 <= i < |gs| && gs[i].Ok? && gs[i].value.resource == r && gs[i].value.attr == a
      {
        if e.None? && gs[n].Ok? && !(r in t0.files && a in t0.files[r]) {
          var g := gs[n].value;
          assert g.resource == r && g.attr == a;
        } else {
          var i :| 0 <= i < |init| && init[i].Ok? && init[i].value.resource == r && init[i].value.attr == a;
          assert gs[i] == init[i];
        }
      }
    }
  }

  /** A trigger is only ever overridden by a later trigger for the same
      resource, attribute and key: the last one wins. */
  lemma {:induction false} BuildLastWins(gs: seq<Result<Trigger, PyError>>, i: nat)
    requires Build(gs).1.None? && i < |gs| && gs[i].Ok?
    requires forall j :: i < j < |gs| && gs[j].Ok? ==>
               (gs[j].value.resource, gs[j].value.attr, gs[j].value.key)
               != (gs[i].value.resource, gs[i].value.attr, gs[i].value.key)
    ensures var t, g := Build(gs).0, gs[i].value;
            g.resource in t.files && g.attr in t.files[g.resource]
            && g.key in t.files[g.resource][g.attr] && t.files[g.resource][g.attr][g.key] == g.file
    decreases |gs|
  {
    var init := gs[..|gs| - 1];
    if i < |gs| - 1 {
      assert forall j :: i < j < |init| ==> init[j] == gs[j];
      BuildLastWins(init, i);
    }
  }

  /** No error is raised exactly when every trigger parses, and then the
      error is the first malformed string's `ValueError`. */
  lemma {:induction false} BuildOk(gs: seq<Result<Trigger, PyError>>)
    ensures Build(gs).1.None? <==> forall i :: 0 <= i < |gs| ==> gs[i].Ok?
    decreases |gs|
  {
    if gs != [] {
      var init := gs[..|gs| - 1];
      BuildOk(init);
      assert forall i :: 0 <= i < |init| ==> init[i] == gs[i];
    }
  }

  /** `register(self, resource)` for each path, in order. */
  function Subscribe(subs: seq<Subscription>, a: ActorId, paths: seq<string>): (r: seq<Subscription>)
    ensures |subs| <= |r| && r[..|subs|] == subs
    ensures forall p :: p in paths ==> (a, p) in r
    ensures forall i :: |subs| <= i < |r| ==> r[i].0 == a && r[i].1 in paths && r[i] !in r[..i]
    decreases |paths|
  {
    if paths == [] then subs
    else
      var s := Subscribe(subs, a, paths[..|paths| - 1]);
      if (a, paths[|paths| - 1]) in s then s else s + [(a, paths[|paths| - 1])]
  }

  // ---------------------------------------------------------------- notify

  /** `attrs[a].get(str(value))`: the key a state value looks up. A
      string, integer, boolean or `None` is rendered as Python renders it;
      a one-entry dictionary of a string renders like a dotted trigger's
      key; other values are not rendered here and find no file. */
  ghost function KeyOf(v: Value): (r: Option<Key>)
    ensures v.VStr? ==> r == Some(Plain(v.s))
    ensures v.VInt? ==> r.Some? && r.value.Plain? && ParseInt(r.value.value, 10) == Ok(v.i)
    ensures r.Some? && r.value.Sub? ==>
              v.VDict? && |v.fields| == 1 && r.value.field in v.fields && v.fields[r.value.field] == VStr(r.value.value)
    ensures r.None? <==> v.VList? || (v.VDict? && (|v.fields| != 1 || exists f :: f in v.fields && !v.fields[f].VStr?))
  {
    match v
    case VStr(s) => Some(Plain(s))
    case VInt(i) => ParseIntToString(i); Some(Plain(IntToString(i)))
    case VBool(b) => Some(Plain(if b then "True" else "False"))
    case VNone => Some(Plain("None"))
    case VDict(fields) =>
      if |fields| == 1 then
        var k :| k in fields;
        SingleKey(fields, k);
        if fields[k].VStr? then Some(Sub(k, fields[k].s)) else None
      else None
    case VList(_) => None
  }

  /** `attrs[a].get(str(state.get(a)))`, or `""` when there is none. */
  ghost function FileFor(files: map<string, map<Key, string>>, a: string, fields: map<string, Value>): (r: string)
    ensures r != "" ==> a in files && exists k :: k in files[a] && files[a][k] == r
    ensures a !in files ==> r == ""
    ensures a in fields && KeyOf(fields[a]).None? ==> r == ""
  {
    var key := KeyOf(if a in fields then fields[a] else VNone);
    if a in files && key.Some? && key.value in files[a] then files[a][key.value] else ""
  }

  /** The files `notify(path, state)` launches for the attributes `order`
      of a resource: for each in order, the non-empty file configured for
      the state's value of that attribute. */
  ghost function Launches(files: map<string, map<Key, string>>, order: seq<string>, fields: map<string, Value>): (r: seq<string>)
    ensures forall f :: f in r ==> f != ""
    ensures |r| <= |order|
  {
    if order == [] then []
    else
      var f := FileFor(files, order[0], fields);
      (if f != "" then [f] else []) + Launches(files, order[1..], fields)
  }

  /** The launches from attribute `i` on: that attribute's file, then the
      rest's. */
  lemma LaunchesAt(files: map<string, map<Key, string>>, order: seq<string>, i: nat, fields: map<string, Value>)
    requires i < |order|
    ensures Launches(files, order[i..], fields)
         == (if FileFor(files, order[i], fields) != "" then [FileFor(files, order[i], fields)] else [])
            + Launches(files, order[i + 1..], fields)
  {
    assert order[i..][0] == order[i] && order[i..][1..] == order[i + 1..];
  }

  /** A state whose value for a watched attribute matches a trigger's
      value launches that trigger's file. */
  lemma {:induction false} LaunchesMatch(files: map<string, map<Key, string>>, order: seq<string>,
                                          fields: map<string, Value>, a: string, value: string)
    requires a in order && a in files && Plain(value) in files[a] && files[a][Plain(value)] != ""
    requires a in fields && fields[a] == VStr(value)
    ensures files[a][Plain(value)] in Launches(files, order, fields)
    decreases |order|
  {
    if order[0] != a {
      LaunchesMatch(files, order[1..], fields, a, value);
    }
  }

  /** `str(value)` as a trigger key, computed: a string is its own key, an
      integer's key reads back as that integer, `True`, `False` and `None`
      are spelled as Python spells them, a list finds no key, and a
      one-entry dictionary of a string `{b: x}` gives the key a dotted
      trigger `a.b` with value `x` is stored under. */
  method LookupKey(v: Value) returns (k: Option<Key>)
    ensures k == KeyOf(v)
    ensures v.VStr? ==> k == Some(Plain(v.s))
    ensures v.VInt? ==> k.Some? && k.value.Plain? && ParseInt(k.value.value, 10) == Ok(v.i)
    ensures v.VBool? ==> k == Some(Plain(if v.b then "True" else "False"))
    ensures v == VNone ==> k == Some(Plain("None"))
    ensures v.VList? ==> k.None?
    ensures v.VDict? && |v.fields| == 1 ==>
              (k.Some? <==> forall f :: f in v.fields ==> v.fields[f].VStr?)
              && forall f :: f in v.fields && v.fields[f].VStr? ==> k == Some(Sub(f, v.fields[f].s))
    ensures v.VDict? && |v.fields| != 1 ==> k.None?
  {
    match v
    case VStr(s) => k := Some(Plain(s));
    case VInt(i) =>
      ParseIntToString(i);
      k := Some(Plain(IntToString(i)));
    case VBool(b) => k := Some(Plain(if b then "True" else "False"));
    case VNone => k := Some(Plain("None"));
    case VList(_) => k := None;
    case VDict(fields) =>
      if |fields| == 1 {
        var f :| f in fields;
        SingleKey(fields, f);
        k := if fields[f].VStr? then Some(Sub(f, fields[f].s)) else None;
      } else {
        k := None;
      }
  }

  /** The file one attribute of a state selects, computed: only a file
      configured for that attribute, and exactly the one stored under the
      key the state's value renders to. */
  method Lookup(files: map<string, map<Key, string>>, a: string, fields: map<string, Value>) returns (f: string)
    ensures f == FileFor(files, a, fields)
    ensures f != "" ==> a in files && exists k :: k in files[a] && files[a][k] == f
    ensures a !in files ==> f == ""
  {
    var key := LookupKey(if a in fields then fields[a] else VNone);
    f := if a in files && key.Some? && key.value in files[a] then files[a][key.value] else "";
  }

  /** A trigger that no later trigger overrides fires: a state whose value
      for the trigger's attribute renders to the trigger's key selects the
      trigger's file. */
  lemma TriggerFires(gs: seq<Result<Trigger, PyError>>, i: nat, fields: map<string, Value>)
    requires Build(gs).1.None? && i < |gs| && gs[i].Ok?
    requires forall j :: i < j < |gs| && gs[j].Ok? ==>
               (gs[j].value.resource, gs[j].value.attr, gs[j].value.key)
               != (gs[i].value.resource, gs[i].value.attr, gs[i].value.key)
    requires gs[i].value.attr in fields && KeyOf(fields[gs[i].value.attr]) == Some(gs[i].value.key)
    ensures var t, g := Build(gs).0, gs[i].value;
            g.resource in t.files && FileFor(t.files[g.resource], g.attr, fields) == g.file
  {
    BuildLastWins(gs, i);
    var t, g := Build(gs).0, gs[i].value;
    FileForHit(t.files[g.resource], g.attr, g.key, g.file, fields);
  }

  /** The file stored under the key a state's value renders to is the one
      selected. */
  lemma FileForHit(files: map<string, map<Key, string>>, a: string, key: Key, file: string, fields: map<string, Value>)
    requires a in files && key in files[a] && files[a][key] == file
    requires a in fields && KeyOf(fields[a]) == Some(key)
    ensures FileFor(files, a, fields) == file
  {
  }

  /** The dotted trigger `resource:a.b:value:file` fires for the state
      whose entry `a` is the dictionary `{b: value}`. */
  lemma DottedTriggerFires(resource: string, a: string, b: string, value: string, file: string,
                           fields: map<string, Value>)
    requires ':' !in resource && ':' !in a && ':' !in b && ':' !in value && ':' !in file
    requires '.' !in a && '.' !in b && a != ""
    requires resource != [] && !IsSpace(resource[0]) && file != [] && !IsSpace(file[|file| - 1])
    requires a in fields && fields[a] == VDict(map[b := VStr(value)])
    ensures var t := Build([Parse(resource + ":" + a + "." + b + ":" + value + ":" + file)]).0;
            resource in t.files && FileFor(t.files[resource], a, fields) == file
  {
    ParseDotted(resource, a, b, value, file);
    var gs := [Parse(resource + ":" + a + "." + b + ":" + value + ":" + file)];
    assert gs[..0] == [];
    SingleKey(map[b := VStr(value)], b);
    assert KeyOf(fields[a]) == Some(Sub(b, value));
    TriggerFires(gs, 0, fields);
  }

  /** A one-entry map has one key. */
  lemma SingleKey(fields: map<string, Value>, f: string)
    requires |fields| == 1 && f in fields
    ensures forall g :: g in fields ==> g == f
  {
    forall g | g in fields
      ensures g == f
    {
      var rest := fields.Keys - {f};
      assert fields.Keys == rest + {f};
      assert |rest| == 0;
      assert g !in rest;
    }
  }

  lemma StatesAreUpper()
    ensures forall s :: s in STATES ==> Upper(s) == s
  {
    forall s | s in STATES
      ensures Upper(s) == s
    {
      UpperIsCanonical(s);
    }
  }

  class Alerts {
    const path: string
    const self: ActorId
    const machine: StateMachine
    var table: Table
    /** The files passed to `launch_pipeline`, oldest first. */
    var launched: seq<string>
    /** The states passed to `notify(path, ...)` so far, oldest first. */
    var broadcasts: seq<Value>

    ghost predicate Valid()
      reads this, machine
    {
      machine.Valid() && machine.allowed == STATES && machine.next == map[] && WellBuilt(table)
    }

    /** `__init__`: `READY`, the triggers set up (each new resource
        subscribed to in `changes` as it is met), and one forced broadcast.
        A malformed trigger raises `ValueError`, after the subscriptions
        of the triggers before it. */
    static method Create(path: string, self: ActorId, items: seq<string>, changes: StateChangeRegistry)
      returns (r: Result<Alerts, ServiceError>)
      requires changes.Valid()
      modifies changes
      ensures changes.Valid()
      ensures changes.subs == Subscribe(old(changes.subs), self, Build(Parsed(items)).0.watched)
      ensures r.Ok? <==> forall i :: 0 <= i < |items| ==> Parse(items[i]).Ok?
      ensures r.Err? ==> r.error == Python(ValueError)
      ensures r.Ok? ==> fresh(r.value) && fresh(r.value.machine) && r.value.Valid()
                        && r.value.table == Build(Parsed(items)).0 && r.value.machine.current == "READY"
                        && r.value.launched == [] && r.value.broadcasts == [Snapshot("READY")]
    {
      ghost var gs := Parsed(items);
      BuildOk(gs);
      var t, e := SetupTriggers(self, items, changes);
      if e.Some? {
        BuildError(gs);
        ghost var i :| 0 <= i < |gs| && gs[i] == Err(e.value);
        assert !Parse(items[i]).Ok?;
        return Err(Python(e.value));
      }
      assert forall i :: 0 <= i < |items| ==> Parse(items[i]).Ok? by {
        forall i | 0 <= i < |items| ensures Parse(items[i]).Ok? {
          assert gs[i] == Parse(items[i]);
        }
      }
      BuildWellBuilt(gs);
      var alerts := new Alerts(path, self, t);
      r := Ok(alerts);
    }

    constructor (path: string, self: ActorId, table: Table)
      requires WellBuilt(table)
      ensures Valid() && fresh(machine)
      ensures this.path == path && this.self == self && this.table == table
      ensures machine.current == "READY" && launched == [] && broadcasts == [Snapshot("READY")]
    {
      this.path := path;
      this.self := self;
      StatesAreUpper();
      machine := new StateMachine(STATES, map[], "READY");
      this.table := table;
      launched := [];
      broadcasts := [];
      new;
      var r := SetStateInternal(VNone, true);
    }

    /** The loop of `_setup_triggers`. */
    static method SetupTriggers(self: ActorId, items: seq<string>, changes: StateChangeRegistry)
      returns (t: Table, e: Option<PyError>)
      requires changes.Valid()
      modifies changes
      ensures changes.Valid()
      ensures (t, e) == Build(Parsed(items))
      ensures changes.subs == Subscribe(old(changes.subs), self, t.watched)
    {
      ghost var gs := Parsed(items);
      t := Table(map[], map[], []);
      e := None;
      var i := 0;
      while i < |items|
        invariant 0 <= i <= |items|
        invariant changes.Valid()
        invariant (t, None) == Build(gs[..i])
        invariant changes.subs == Subscribe(old(changes.subs), self, t.watched)
      {
        BuildStep(gs, i);
        var g := Parse(items[i]);
        if g.Err? {
          BuildPrefixErr(gs, i + 1);
          return t, Some(g.error);
        }
        var trig := g.value;
        AddWatched(t, trig);
        if trig.resource !in t.files {
          SubscribeStep(old(changes.subs), self, t.watched, trig.resource);
          changes.Register(self, trig.resource);
        }
        t := Add(t, trig);
        i := i + 1;
      }
      assert gs[..i] == gs;
    }

    /** `_set_state_internal(state, forced)`: a truthy state other than the
        current one is validated and applied; `forced` defaults to true at
        every call site, so every call broadcasts. */
    method SetStateInternal(state: Value, forced: bool) returns (r: Outcome<ServiceError>)
      requires Valid()
      modifies this, machine
      ensures Valid() && table == old(table) && launched == old(launched)
      ensures var tried := Truthy(state) && state != VStr(old(machine.current));
              r == (if tried then machine.Try(old(machine.current), state) else Pass)
              && machine.current == (if tried && r.Pass? then Upper(state.s) else old(machine.current))
              && broadcasts == old(broadcasts)
                   + (if forced || (tried && r.Pass?) then [Snapshot(machine.current)] else [])
    {
      var changed;
      changed, r := Transition(machine, state);
      if changed || forced {
        broadcasts := broadcasts + [Snapshot(machine.current)];
      }
    }

    /** `notify(path, state)`: the files configured for `path` whose value
        matches the state are launched, in attribute order; an unknown path
        launches nothing; a state that is not a dictionary has no `get`. */
    method Notify(changed: string, state: Value) returns (r: Outcome<ServiceError>)
      requires Valid()
      modifies this
      ensures table == old(table) && broadcasts == old(broadcasts)
      ensures changed !in table.files ==> r == Pass && launched == old(launched)
      ensures changed in table.files && table.attrs[changed] != [] && !state.VDict? ==>
                r == Fail(Python(AttributeError)) && launched == old(launched)
      ensures changed in table.files && state.VDict? ==>
                r == Pass
                && launched == old(launched) + Launches(table.files[changed], table.attrs[changed], state.fields)
    {
      if changed !in table.files {
        return Pass;
      }
      var files := table.files[changed];
      var order := table.attrs[changed];
      if order != [] && !state.VDict? {
        return Fail(Python(AttributeError));
      }
      r := Pass;
      var fields := if state.VDict? then state.fields else map[];
      var i := 0;
      while i < |order|
        invariant 0 <= i <= |order|
        invariant table == old(table) && broadcasts == old(broadcasts)
        invariant launched + Launches(files, order[i..], fields) ==
                  old(launched) + Launches(files, order, fields)
      {
        var f := Lookup(files, order[i], fields);
        LaunchesAt(files, order, i, fields);
        var step := if f != "" then [f] else [];
        Associative(launched, step, Launches(files, order[i + 1..], fields));
        launched := launched + step;
        i := i + 1;
      }
      assert order[i..] == [];
    }

    /** `_bus_handler`: end of stream and errors return to `READY`; a
        pipeline reaching its `READY` state means a sound starts, so
        `PLAYING`; anything else is ignored. Every handled message
        broadcasts. */
    method BusHandler(msg: BusMessage)
      requires Valid()
      modifies this, machine
      ensures Valid() && table == old(table) && launched == old(launched)
      ensures msg.Eos? || msg.Error? ==>
                machine.current == "READY" && broadcasts == old(broadcasts) + [Snapshot("READY")]
      ensures msg.StateChanged? && msg.name == "READY" ==>
                machine.current == "PLAYING" && broadcasts == old(broadcasts) + [Snapshot("PLAYING")]
      ensures msg.Other? || (msg.StateChanged? && msg.name != "READY") ==>
                machine.current == old(machine.current) && broadcasts == old(broadcasts)
    {
      StatesAreUpper();
      match msg
      case Eos =>
        var r := SetStateInternal(VStr("READY"), true);
      case Error =>
        var r := SetStateInternal(VStr("READY"), true);
      case StateChanged(name) =>
        if name == "READY" {
          var r := SetStateInternal(VStr("PLAYING"), true);
        }
      case Other =>
    }
  }

  lemma BuildStep(gs: seq<Result<Trigger, PyError>>, i: nat)
    requires i < |gs| && Build(gs[..i]).1.None?
    ensures Build(gs[..i + 1]) == if gs[i].Err? then (Build(gs[..i]).0, Some(gs[i].error))
                                 else (Add(Build(gs[..i]).0, gs[i].value), None)
  {
    assert gs[..i + 1][..i] == gs[..i];
  }

  lemma SubscribeStep(subs: seq<Subscription>, a: ActorId, w: seq<string>, r: string)
    ensures var s := Subscribe(subs, a, w);
            Subscribe(subs, a, w + [r]) == if (a, r) in s then s else s + [(a, r)]
  {
    assert (w + [r])[..|w|] == w;
  }

  /** Once a prefix raises, the whole list raises the same way. */
  lemma {:induction false} BuildPrefixErr(gs: seq<Result<Trigger, PyError>>, n: nat)
    requires n <= |gs| && Build(gs[..n]).1.Some?
    ensures Build(gs) == Build(gs[..n])
    decreases |gs| - n
  {
    if n < |gs| {
      assert gs[..n + 1][..n] == gs[..n];
      BuildPrefixErr(gs, n + 1);
    } else {
      assert gs[..n] == gs;
    }
  }

  /** The error raised is one a trigger string raised. */
  lemma {:induction false} BuildError(gs: seq<Result<Trigger, PyError>>)
    requires Build(gs).1.Some?
    ensures exists i :: 0 <= i < |gs| && gs[i] == Err(Build(gs).1.value)
    decreases |gs|
  {
    var init := gs[..|gs| - 1];
    if Build(init).1.Some? {
      BuildError(init);
      var i :| 0 <= i < |init| && init[i] == Err(Build(init).1.value);
      assert gs[i] == init[i];
    } else {
      assert gs[|gs| - 1] == Err(Build(gs).1.value);
    }
  }
}
