/**
 * `ServiceResourceRegistry`: the flat, insertion-ordered map from resource
 * path to actor, read hierarchically. A query matches every key it is an
 * ancestor-or-equal of; `get_resource` composes the matched actors' states
 * into one nested payload and `set_resource` hands each matched actor its
 * part of a nested payload.
 *
 * Cross-actor calls are synchronous: the answers of `get_state` are given as
 * a map from actor to state (an actor missing from it does not override
 * `get_state`), the outcomes of the awaited `set_state` calls as a map from
 * actor to outcome (likewise), the actors that override `delete` as a set,
 * and the `set_state` and `delete` messages sent are returned as logs.
 */
module Registry {
  import opened Values
  import opened Strings
  import opened Paths
  import opened Service

  type Entry = (Path, ActorId)

  /** One result of `_lookup`: the key's segments below the query and the
      actor registered there. */
  datatype Match = Match(segs: seq<string>, actor: ActorId)

  function Keys(entries: seq<Entry>): (r: seq<Path>)
    ensures |r| == |entries| && forall i :: 0 <= i < |entries| ==> r[i] == entries[i].0
  {
    seq(|entries|, i requires 0 <= i < |entries| => entries[i].0)
  }

  predicate DistinctKeys(entries: seq<Entry>)
  {
    forall i, j :: 0 <= i < j < |entries| ==> entries[i].0 != entries[j].0
  }

  /** The actor registered under `p`. */
  function ActorAt(entries: seq<Entry>, p: Path): (r: Option<ActorId>)
    ensures r.Some? <==> p in Keys(entries)
    ensures r.Some? ==> (p, r.value) in entries
  {
    if entries == [] then None
    else if entries[0].0 == p then Some(entries[0].1)
    else ActorAt(entries[1..], p)
  }

  /** `_lookup`: in registry order, every key the query covers, with its
      relative segments; an empty query matches nothing. */
  function Lookup(entries: seq<Entry>, q: Path): (r: seq<Match>)
    ensures |r| <= |entries|
    ensures q == "" ==> r == []
    ensures q != "" ==> forall m :: m in r <==>
              exists e :: e in entries && Covers(q, e.0) && m == Match(Rel(q, e.0), e.1)
  {
    if q == "" || entries == [] then []
    else
      (if Covers(q, entries[0].0) then [Match(Rel(q, entries[0].0), entries[0].1)] else [])
      + Lookup(entries[1..], q)
  }

  /** One step of `_lookup`: the first entry's match, then the rest's. */
  lemma LookupHead(entries: seq<Entry>, q: Path)
    requires q != "" && entries != []
    ensures Lookup(entries, q) ==
              (if Covers(q, entries[0].0) then [Match(Rel(q, entries[0].0), entries[0].1)] else [])
              + Lookup(entries[1..], q)
  {
  }

  /** `pop(p, None)`: the entries without the key `p`, order kept. */
  function Without(entries: seq<Entry>, p: Path): (r: seq<Entry>)
    ensures forall e :: e in r <==> e in entries && e.0 != p
    ensures DistinctKeys(entries) ==> DistinctKeys(r)
  {
    if entries == [] then []
    else
      var rest := Without(entries[1..], p);
      assert DistinctKeys(entries) ==> forall e :: e in rest ==> e.0 != entries[0].0 by {
        if DistinctKeys(entries) {
          forall e | e in rest ensures e.0 != entries[0].0 {
            var j :| 1 <= j < |entries| && entries[j] == e;
          }
        }
      }
      if entries[0].0 == p then rest else [entries[0]] + rest
  }

  /** The first position at which `actor` is registered. */
  function FirstOf(entries: seq<Entry>, actor: ActorId): (r: Option<nat>)
    ensures r.Some? ==> r.value < |entries| && entries[r.value].1 == actor
    ensures forall j :: 0 <= j < |entries| && (r.None? || j < r.value) ==> entries[j].1 != actor
  {
    if entries == [] then None
    else if entries[0].1 == actor then Some(0)
    else match FirstOf(entries[1..], actor)
      case None => None
      case Some(k) => Some(k + 1)
  }

  // ---------------------------------------------------------------- get_resource

  /** The least index whose segment is not a key of `data`, or `|segs|`. */
  function FirstAbsent(data: map<string, Value>, segs: seq<string>): (k: nat)
    ensures k <= |segs|
    ensures forall j :: 0 <= j < k ==> segs[j] in data
    ensures k < |segs| ==> segs[k] !in data
  {
    if segs == [] || segs[0] !in data then 0 else 1 + FirstAbsent(data, segs[1..])
  }

  /** Where `get_resource` stores a descendant's state `v`. The cursor stays
      on the top-level map while segments already exist there; from the
      first new segment on it descends through freshly created maps. So the
      state lands nested under the segments from the first new one, or
      directly under the last segment when none is new. */
  function Place(data: map<string, Value>, segs: seq<string>, v: Value): map<string, Value>
    requires segs != []
  {
    var k := FirstAbsent(data, segs);
    if k < |segs| then data[segs[k] := Nest(segs[k + 1..], v)]
    else data[segs[|segs| - 1] := v]
  }

  /** The composition loop of `get_resource` from accumulated `data`: an
      actor without `get_state` raises, an exact match returns its state
      unwrapped, a descendant's state is placed into `data`. */
  function ComposeFrom(ms: seq<Match>, states: map<ActorId, Value>, data: map<string, Value>)
    : Result<Value, ServiceError>
  {
    if ms == [] then Ok(VDict(data))
    else if ms[0].actor !in states then Err(MethodNotImplemented)
    else if ms[0].segs == [] then Ok(states[ms[0].actor])
    else ComposeFrom(ms[1..], states, Place(data, ms[0].segs, states[ms[0].actor]))
  }

  /** One step of the composition loop, at position `i`. */
  lemma ComposeFromAt(ms: seq<Match>, i: nat, states: map<ActorId, Value>, data: map<string, Value>)
    requires i < |ms|
    ensures ComposeFrom(ms[i..], states, data)
            == if ms[i].actor !in states then Err(MethodNotImplemented)
               else if ms[i].segs == [] then Ok(states[ms[i].actor])
               else ComposeFrom(ms[i + 1..], states, Place(data, ms[i].segs, states[ms[i].actor]))
  {
    assert ms[i..][0] == ms[i] && ms[i..][1..] == ms[i + 1..];
  }

  function Get(entries: seq<Entry>, q: Path, states: map<ActorId, Value>): Result<Value, ServiceError>
  {
    var ms := Lookup(entries, q);
    if ms == [] then Err(ResourceDoesNotExist) else ComposeFrom(ms, states, map[])
  }

  // ---------------------------------------------------------------- set_resource

  /** What the exact match's `set_state(data).get()` raises: its answer,
      or `ServiceMethodNotImplemented` for an actor that does not override
      `set_state`. */
  function Answer(a: ActorId, answers: map<ActorId, Outcome<ServiceError>>): Option<ServiceError>
  {
    if a !in answers then Some(MethodNotImplemented)
    else if answers[a].Fail? then Some(answers[a].error)
    else None
  }

  /** What `set_resource` does with one match: the `set_state` messages
      it sends and the exception that ends the loop, if any. A descendant
      is sent (fire and forget, so whatever its handler raises is lost) the
      part of `data` along its segments when that part exists and is
      truthy, and a failed descent raises; the exact match is sent all of
      `data` and waited for, so whatever its handler raises is re-raised. */
  function SetStep(m: Match, data: Value, answers: map<ActorId, Outcome<ServiceError>>)
    : (Option<ServiceError>, seq<(ActorId, Value)>)
  {
    if m.segs == [] then
      (Answer(m.actor, answers), [(m.actor, data)])
    else
      match Descend(data, m.segs)
      case Err(e) => (Some(Python(e)), [])
      case Ok(z) => (None, if z.Some? && Truthy(z.value) then [(m.actor, z.value)] else [])
  }

  /** The `set_resource` loop over the matches. */
  function SetFrom(ms: seq<Match>, data: Value, answers: map<ActorId, Outcome<ServiceError>>)
    : (Outcome<ServiceError>, seq<(ActorId, Value)>)
  {
    if ms == [] then (Pass, [])
    else
      var step := SetStep(ms[0], data, answers);
      if step.0.Some? then (Fail(step.0.value), step.1)
      else
        var rest := SetFrom(ms[1..], data, answers);
        (rest.0, step.1 + rest.1)
  }

  /** One step of the `set_resource` loop, at position `i`. */
  lemma SetFromAt(ms: seq<Match>, i: nat, data: Value, answers: map<ActorId, Outcome<ServiceError>>)
    requires i < |ms|
    ensures var step := SetStep(ms[i], data, answers);
            var rest := SetFrom(ms[i + 1..], data, answers);
            SetFrom(ms[i..], data, answers)
            == if step.0.Some? then (Fail(step.0.value), step.1) else (rest.0, step.1 + rest.1)
  {
    assert ms[i..][0] == ms[i] && ms[i..][1..] == ms[i + 1..];
  }

  function Set(entries: seq<Entry>, q: Path, data: Value, answers: map<ActorId, Outcome<ServiceError>>)
    : (Outcome<ServiceError>, seq<(ActorId, Value)>)
  {
    var ms := Lookup(entries, q);
    if ms == [] then (Fail(ResourceDoesNotExist), []) else SetFrom(ms, data, answers)
  }

  // ---------------------------------------------------------------- delete_resources

  /** The second loop of `delete_resources`, over paths known to exist:
      `delete` is called on each path's actor in turn and waited for; an
      actor without `delete` raises and ends the loop. */
  function DeleteFrom(entries: seq<Entry>, paths: seq<Path>, deletable: set<ActorId>)
    : (Outcome<ServiceError>, seq<ActorId>)
    requires forall i :: 0 <= i < |paths| ==> paths[i] in Keys(entries)
  {
    if paths == [] then (Pass, [])
    else
      var a := ActorAt(entries, paths[0]).value;
      if a in deletable then
        var rest := DeleteFrom(entries, paths[1..], deletable);
        (rest.0, [a] + rest.1)
      else (Fail(MethodNotImplemented), [a])
  }

  // ---------------------------------------------------------------- the registry

  class ResourceRegistry {
    var entries: seq<Entry>

    ghost predicate Valid()
      reads this
    {
      DistinctKeys(entries)
    }

    predicate Registered(p: Path)
      reads this
    {
      p in Keys(entries)
    }

    constructor ()
      ensures Valid() && entries == []
    {
      entries := [];
    }

    /** `register`: a path already present raises the bare path-conflict
        exception and keeps the existing entry; a new path is appended. */
    method Register(actor: ActorId, path: Path) returns (r: Outcome<ServiceError>)
      requires Valid()
      modifies this
      ensures Valid()
      ensures old(Registered(path)) ==> r == Fail(PathConflict(path)) && entries == old(entries)
      ensures !old(Registered(path)) ==> r == Pass && entries == old(entries) + [(path, actor)]
    {
      if path in Keys(entries) {
        return Fail(PathConflict(path));
      }
      entries := entries + [(path, actor)];
      r := Pass;
    }

    /** `unregister`: with a path, that key goes, silently when absent.
        Without one, the sweep over the registry deletes the first entry of
        the actor and the next step of the iteration raises `RuntimeError`
        (the dictionary changed size), so later entries of the actor stay. */
    method Unregister(actor: ActorId, path: Path) returns (r: Outcome<ServiceError>)
      requires Valid()
      modifies this
      ensures Valid()
      ensures path != "" ==> r == Pass && entries == Without(old(entries), path)
      ensures path == "" && FirstOf(old(entries), actor).None? ==> r == Pass && entries == old(entries)
      ensures path == "" && FirstOf(old(entries), actor).Some? ==>
                var k := FirstOf(old(entries), actor).value;
                r == Fail(Python(RuntimeError)) && entries == old(entries[..k] + entries[k + 1..])
    {
      if path != "" {
        entries := Without(entries, path);
        return Pass;
      }
      var i := 0;
      while i < |entries|
        invariant 0 <= i <= |entries|
        invariant forall j :: 0 <= j < i ==> entries[j].1 != actor
      {
        if entries[i].1 == actor {
          assert FirstOf(entries, actor) == Some(i);
          entries := entries[..i] + entries[i + 1..];
          return Fail(Python(RuntimeError));
        }
        i := i + 1;
      }
      r := Pass;
    }

    /** The `_lookup` loop. */
    method Matches(q: Path) returns (ms: seq<Match>)
      ensures ms == Lookup(entries, q)
    {
      ms := [];
      if q == "" {
        return;
      }
      var i := 0;
      while i < |entries|
        invariant 0 <= i <= |entries|
        invariant ms + Lookup(entries[i..], q) == Lookup(entries, q)
      {
        LookupHead(entries[i..], q);
        assert entries[i..][1..] == entries[i + 1..];
        if Covers(q, entries[i].0) {
          ms := ms + [Match(Rel(q, entries[i].0), entries[i].1)];
        }
        i := i + 1;
      }
    }

    /** `get_resource`. */
    method GetResource(q: Path, states: map<ActorId, Value>) returns (r: Result<Value, ServiceError>)
      ensures r == Get(entries, q, states)
    {
      var ms := Matches(q);
      if ms == [] {
        return Err(ResourceDoesNotExist);
      }
      var data: map<string, Value> := map[];
      var i := 0;
      while i < |ms|
        invariant 0 <= i <= |ms|
        invariant ComposeFrom(ms[i..], states, data) == ComposeFrom(ms, states, map[])
      {
        var m := ms[i];
        ComposeFromAt(ms, i, states, data);
        if m.segs == [] {
          if m.actor !in states {
            return Err(MethodNotImplemented);
          }
          return Ok(states[m.actor]);
        }
        if m.actor !in states {
          return Err(MethodNotImplemented);
        }
        data := PlaceState(data, m.segs, states[m.actor]);
        i := i + 1;
      }
      r := Ok(VDict(data));
    }

    /** One descendant's state put into `data` along its segments. */
    static method PlaceState(data: map<string, Value>, segs: seq<string>, v: Value) returns (d: map<string, Value>)
      requires segs != []
      ensures d == Place(data, segs, v)
    {
      var k := CursorWalk(data, segs);
      if k < |segs| {
        d := data[segs[k] := Nest(segs[k + 1..], v)];
      } else {
        d := data[segs[|segs| - 1] := v];
      }
    }

    /** The cursor walk of `get_resource` over one descendant's segments:
        the cursor stays on the top-level map while each segment exists
        there; `k` is the segment at which it first creates a new map, or
        `|segs|` when it never does. */
    static method CursorWalk(data: map<string, Value>, segs: seq<string>) returns (k: nat)
      ensures k == FirstAbsent(data, segs)
    {
      k := |segs|;
      var j := 0;
      while j < |segs|
        invariant 0 <= j <= |segs| && k <= |segs|
        invariant k == |segs| ==> forall t :: 0 <= t < j ==> segs[t] in data
        invariant k < |segs| ==> k == FirstAbsent(data, segs)
      {
        if k == |segs| && segs[j] !in data {
          k := j;
        }
        j := j + 1;
      }
    }

    /** The descent loop of `set_resource` over one descendant's segments:
        `if i in z: z = z[i]`, else `z = None; break`. */
    static method DescendWalk(data: Value, segs: seq<string>) returns (r: Result<Option<Value>, PyError>)
      ensures r == Descend(data, segs)
    {
      var z := data;
      var j := 0;
      while j < |segs|
        invariant 0 <= j <= |segs|
        invariant Descend(data, segs) == Descend(z, segs[j..])
      {
        assert segs[j..][1..] == segs[j + 1..];
        var has := Member(z, segs[j]);
        if has.Err? {
          return Err(has.error);
        }
        if !has.value {
          return Ok(None);
        }
        var sub := Subscript(z, segs[j]);
        if sub.Err? {
          return Err(sub.error);
        }
        z := sub.value;
        j := j + 1;
      }
      assert segs[j..] == [];
      r := Ok(Some(z));
    }

    /** One iteration of the `set_resource` loop. */
    static method Deliver(m: Match, data: Value, answers: map<ActorId, Outcome<ServiceError>>)
      returns (stop: Option<ServiceError>, here: seq<(ActorId, Value)>)
      ensures (stop, here) == SetStep(m, data, answers)
    {
      if m.segs == [] {
        here := [(m.actor, data)];
        if m.actor !in answers {
          stop := Some(MethodNotImplemented);
        } else if answers[m.actor].Fail? {
          stop := Some(answers[m.actor].error);
        } else {
          stop := None;
        }
      } else {
        var d := DescendWalk(data, m.segs);
        if d.Err? {
          return Some(Python(d.error)), [];
        }
        stop := None;
        here := if d.value.Some? && Truthy(d.value.value) then [(m.actor, d.value.value)] else [];
      }
    }

    /** `set_resource`: returns the outcome and the `set_state` messages
        sent, in order. */
    method SetResource(q: Path, data: Value, answers: map<ActorId, Outcome<ServiceError>>)
      returns (r: Outcome<ServiceError>, sent: seq<(ActorId, Value)>)
      ensures (r, sent) == Set(entries, q, data, answers)
    {
      var ms := Matches(q);
      if ms == [] {
        return Fail(ResourceDoesNotExist), [];
      }
      sent := [];
      var i := 0;
      while i < |ms|
        invariant 0 <= i <= |ms|
        invariant SetFrom(ms[i..], data, answers).0 == SetFrom(ms, data, answers).0
        invariant sent + SetFrom(ms[i..], data, answers).1 == SetFrom(ms, data, answers).1
      {
        SetFromAt(ms, i, data, answers);
        var stop, here := Deliver(ms[i], data, answers);
        Associative(sent, here, SetFrom(ms[i + 1..], data, answers).1);
        sent := sent + here;
        if stop.Some? {
          return Fail(stop.value), sent;
        }
        i := i + 1;
      }
      assert ms[i..] == [] && sent + [] == sent;
      r := Pass;
    }

    /** `delete_resources`: every path is checked before any `delete` is
        sent; the log lists the actors whose `delete` was called. */
    method DeleteResources(paths: seq<Path>, deletable: set<ActorId>)
      returns (r: Outcome<ServiceError>, calls: seq<ActorId>)
      ensures (exists i :: 0 <= i < |paths| && !Registered(paths[i])) ==>
                r == Fail(ResourceDoesNotExist) && calls == []
      ensures (forall i :: 0 <= i < |paths| ==> Registered(paths[i])) ==>
                (r, calls) == DeleteFrom(entries, paths, deletable)
    {
      var i := 0;
      while i < |paths|
        invariant 0 <= i <= |paths|
        invariant forall t :: 0 <= t < i ==> Registered(paths[t])
      {
        if paths[i] !in Keys(entries) {
          assert !Registered(paths[i]);
          return Fail(ResourceDoesNotExist), [];
        }
        i := i + 1;
      }
      calls := [];
      i := 0;
      while i < |paths|
        invariant 0 <= i <= |paths|
        invariant forall t :: 0 <= t < |paths| ==> paths[t] in Keys(entries)
        invariant DeleteFrom(entries, paths[i..], deletable).0 == DeleteFrom(entries, paths, deletable).0
        invariant calls + DeleteFrom(entries, paths[i..], deletable).1 == DeleteFrom(entries, paths, deletable).1
      {
        assert paths[i..][1..] == paths[i + 1..];
        var a := ActorAt(entries, paths[i]).value;
        calls := calls + [a];
        if a !in deletable {
          assert DeleteFrom(entries, paths[i..], deletable) == (Fail(MethodNotImplemented), [a]);
          return Fail(MethodNotImplemented), calls;
        }
        i := i + 1;
      }
      assert paths[i..] == [] && calls + [] == calls;
      r := Pass;
    }
  }

  // ---------------------------------------------------------------- properties

  /** Registering a new path and unregistering it again restores the
      registry. */
  lemma {:induction false} UnregisterUndoesRegister(entries: seq<Entry>, p: Path, a: ActorId)
    requires p !in Keys(entries)
    ensures Without(entries + [(p, a)], p) == entries
    decreases |entries|
  {
    if entries == [] {
      assert entries + [(p, a)] == [(p, a)];
    } else {
      var e := entries[0];
      assert e.0 != p by {
        assert Keys(entries)[0] == e.0;
      }
      assert p !in Keys(entries[1..]) by {
        assert forall i :: 0 <= i < |entries[1..]| ==> Keys(entries[1..])[i] == Keys(entries)[i + 1];
      }
      UnregisterUndoesRegister(entries[1..], p, a);
      calc {
        Without(entries + [(p, a)], p);
      == { assert (entries + [(p, a)])[0] == e && (entries + [(p, a)])[1..] == entries[1..] + [(p, a)]; }
        [e] + Without(entries[1..] + [(p, a)], p);
      ==
        [e] + entries[1..];
      ==
        entries;
      }
    }
  }

  /** The registered path itself is among the matches, with no segments. */
  lemma LookupFindsSelf(entries: seq<Entry>, p: Path, a: ActorId)
    requires p != "" && (p, a) in entries
    ensures Match([], a) in Lookup(entries, p)
  {
    RelSelf(p);
  }

  /** Composition never reports a missing resource. */
  lemma {:induction false} ComposeNeverMissing(ms: seq<Match>, states: map<ActorId, Value>, data: map<string, Value>)
    ensures ComposeFrom(ms, states, data) != Err(ResourceDoesNotExist)
    decreases |ms|
  {
    if ms != [] && ms[0].actor in states && ms[0].segs != [] {
      ComposeNeverMissing(ms[1..], states, Place(data, ms[0].segs, states[ms[0].actor]));
    }
  }

  /** `get_resource` raises `ServiceResourceDoesNotExist` exactly when the
      query is empty or covers no registered key. */
  lemma GetMissingIff(entries: seq<Entry>, q: Path, states: map<ActorId, Value>)
    ensures Get(entries, q, states) == Err(ResourceDoesNotExist) <==>
              q == "" || forall e :: e in entries ==> !Covers(q, e.0)
  {
    var ms := Lookup(entries, q);
    ComposeNeverMissing(ms, states, map[]);
    if q != "" && exists e :: e in entries && Covers(q, e.0) {
      var e :| e in entries && Covers(q, e.0);
      assert Match(Rel(q, e.0), e.1) in ms;
    }
    if ms != [] {
      assert ms[0] in ms;
    }
  }

  lemma {:induction false} ComposeExact(ms: seq<Match>, states: map<ActorId, Value>, data: map<string, Value>, a: ActorId)
    requires forall m :: m in ms ==> m.actor in states
    requires Match([], a) in ms
    requires forall m :: m in ms && m.segs == [] ==> m.actor == a
    ensures ComposeFrom(ms, states, data) == Ok(states[a])
    decreases |ms|
  {
    if ms[0].segs != [] {
      assert Match([], a) in ms[1..];
      ComposeExact(ms[1..], states, Place(data, ms[0].segs, states[ms[0].actor]), a);
    }
  }

  /** When the queried path is itself registered and every other key it
      covers lies strictly below it, `get_resource` returns that actor's
      state unwrapped (provided every matched actor answers). */
  lemma GetExactUnwrapped(entries: seq<Entry>, q: Path, a: ActorId, states: map<ActorId, Value>)
    requires DistinctKeys(entries)
    requires q != "" && (q, a) in entries
    requires forall e :: e in entries ==> e.1 in states
    requires forall e :: e in entries && Covers(q, e.0) && e.0 != q ==> Rel(q, e.0) != []
    ensures Get(entries, q, states) == Ok(states[a])
  {
    var ms := Lookup(entries, q);
    LookupFindsSelf(entries, q, a);
    forall m | m in ms && m.segs == [] ensures m.actor == a {
      var e :| e in entries && Covers(q, e.0) && m == Match(Rel(q, e.0), e.1);
      assert e.0 == q;
      var i :| 0 <= i < |entries| && entries[i] == e;
      var j :| 0 <= j < |entries| && entries[j] == (q, a);
      assert i == j;
    }
    forall m | m in ms ensures m.actor in states {
      var e :| e in entries && Covers(q, e.0) && m == Match(Rel(q, e.0), e.1);
    }
    ComposeExact(ms, states, map[], a);
  }

  /** Matches that are all single-segment descendants whose actors answer,
      no two distinct ones sharing a segment. */
  ghost predicate Children(ms: seq<Match>, states: map<ActorId, Value>)
  {
    (forall m :: m in ms ==> |m.segs| == 1 && m.actor in states)
    && (forall m1, m2 :: m1 in ms && m2 in ms && m1.segs == m2.segs ==> m1 == m2)
  }

  /** Each single-segment descendant's state stored under its segment, in
      order. */
  function Spread(ms: seq<Match>, states: map<ActorId, Value>, data: map<string, Value>): map<string, Value>
    requires forall m :: m in ms ==> |m.segs| == 1 && m.actor in states
  {
    if ms == [] then data
    else Spread(ms[1..], states, data[ms[0].segs[0] := states[ms[0].actor]])
  }

  /** For single-segment descendants, composition is `Spread`. */
  lemma {:induction false} ComposeIsSpread(ms: seq<Match>, states: map<ActorId, Value>, data: map<string, Value>)
    requires forall m :: m in ms ==> |m.segs| == 1 && m.actor in states
    ensures ComposeFrom(ms, states, data) == Ok(VDict(Spread(ms, states, data)))
    decreases |ms|
  {
    if ms != [] {
      assert ms[0].segs[1..] == [];
      assert Place(data, ms[0].segs, states[ms[0].actor]) == data[ms[0].segs[0] := states[ms[0].actor]];
      ComposeIsSpread(ms[1..], states, data[ms[0].segs[0] := states[ms[0].actor]]);
    }
  }

  /** The keys of a spread are those of `data` and the segments. */
  lemma {:induction false} SpreadKeys(ms: seq<Match>, states: map<ActorId, Value>, data: map<string, Value>, k: string)
    requires forall m :: m in ms ==> |m.segs| == 1 && m.actor in states
    ensures k in Spread(ms, states, data) <==> k in data || exists m :: m in ms && m.segs[0] == k
    decreases |ms|
  {
    if ms != [] {
      SpreadKeys(ms[1..], states, data[ms[0].segs[0] := states[ms[0].actor]], k);
      if exists m :: m in ms && m.segs[0] == k {
        var m :| m in ms && m.segs[0] == k;
        if m != ms[0] {
          var i :| 0 <= i < |ms| && ms[i] == m;
          assert m in ms[1..];
        }
      }
    }
  }

  /** Each descendant's state is found under its segment. */
  lemma {:induction false} SpreadValues(ms: seq<Match>, states: map<ActorId, Value>, data: map<string, Value>, m: Match)
    requires Children(ms, states) && m in ms
    ensures m.segs[0] in Spread(ms, states, data)
    ensures Spread(ms, states, data)[m.segs[0]] == states[m.actor]
    decreases |ms|
  {
    var d' := data[ms[0].segs[0] := states[ms[0].actor]];
    assert forall m' :: m' in ms[1..] ==> m' in ms;
    if m in ms[1..] {
      SpreadValues(ms[1..], states, d', m);
    } else {
      assert m == ms[0];
      SpreadKeeps(ms[1..], states, d', m.segs[0]);
    }
  }

  /** Keys that no descendant names keep their value. */
  lemma {:induction false} SpreadKeeps(ms: seq<Match>, states: map<ActorId, Value>, data: map<string, Value>, k: string)
    requires forall m :: m in ms ==> |m.segs| == 1 && m.actor in states
    requires k in data && forall m :: m in ms ==> m.segs[0] != k
    ensures k in Spread(ms, states, data) && Spread(ms, states, data)[k] == data[k]
    decreases |ms|
  {
    if ms != [] {
      assert forall m :: m in ms[1..] ==> m in ms;
      SpreadKeeps(ms[1..], states, data[ms[0].segs[0] := states[ms[0].actor]], k);
    }
  }

  /** `get_resource` on a path that only has single-segment descendants
      with distinct segments returns a map holding each descendant's state
      under its segment, and nothing else. */
  lemma GetChildren(entries: seq<Entry>, q: Path, states: map<ActorId, Value>)
    requires q != ""
    requires exists e :: e in entries && Covers(q, e.0)
    requires forall e :: e in entries && Covers(q, e.0) ==> |Rel(q, e.0)| == 1 && e.1 in states
    requires forall e1, e2 :: (e1 in entries && e2 in entries && Covers(q, e1.0) && Covers(q, e2.0)
               && Rel(q, e1.0) == Rel(q, e2.0)) ==> e1.1 == e2.1
    ensures Get(entries, q, states).Ok? && Get(entries, q, states).value.VDict?
    ensures forall e :: e in entries && Covers(q, e.0) ==>
              Rel(q, e.0)[0] in Get(entries, q, states).value.fields
              && Get(entries, q, states).value.fields[Rel(q, e.0)[0]] == states[e.1]
    ensures forall k :: k in Get(entries, q, states).value.fields ==>
              exists e :: e in entries && Covers(q, e.0) && Rel(q, e.0)[0] == k
  {
    var ms := Lookup(entries, q);
    var e0 :| e0 in entries && Covers(q, e0.0);
    assert Match(Rel(q, e0.0), e0.1) in ms;
    forall m | m in ms ensures |m.segs| == 1 && m.actor in states {
      var e :| e in entries && Covers(q, e.0) && m == Match(Rel(q, e.0), e.1);
    }
    forall m1, m2 | m1 in ms && m2 in ms && m1.segs == m2.segs ensures m1 == m2 {
      var e1 :| e1 in entries && Covers(q, e1.0) && m1 == Match(Rel(q, e1.0), e1.1);
      var e2 :| e2 in entries && Covers(q, e2.0) && m2 == Match(Rel(q, e2.0), e2.1);
    }
    ComposeIsSpread(ms, states, map[]);
    var f := Spread(ms, states, map[]);
    forall e | e in entries && Covers(q, e.0)
      ensures Rel(q, e.0)[0] in f && f[Rel(q, e.0)[0]] == states[e.1]
    {
      SpreadValues(ms, states, map[], Match(Rel(q, e.0), e.1));
    }
    forall k | k in f ensures exists e :: e in entries && Covers(q, e.0) && Rel(q, e.0)[0] == k {
      SpreadKeys(ms, states, map[], k);
      var m :| m in ms && m.segs[0] == k;
      var e :| e in entries && Covers(q, e.0) && m == Match(Rel(q, e.0), e.1);
    }
  }

  lemma RootMatches()
    ensures Covers("/", "/a/x") && Rel("/", "/a/x") == ["a", "x"]
    ensures Covers("/", "/a/y") && Rel("/", "/a/y") == ["a", "y"]
  {
    CoversIsSegmentPrefix([], ["a", "x"]);
    CoversIsSegmentPrefix([], ["a", "y"]);
    assert PathOf(["a", "x"]) == "/a/x";
    assert PathOf(["a", "y"]) == "/a/y";
  }

  /** Two paths that share a first segment below the query, queried at the
      root: the cursor only advances into new keys, so the second state is
      misplaced at the top level instead of beside the first. */
  lemma GetMisplacesSiblings(s1: Value, s2: Value)
    ensures Get([("/a/x", 1), ("/a/y", 2)], "/", map[1 := s1, 2 := s2])
         == Ok(VDict(map["a" := VDict(map["x" := s1]), "y" := s2]))
  {
    SiblingsLookup();
    SiblingsCompose(s1, s2);
  }

  lemma SiblingsLookup()
    ensures Lookup([("/a/x", 1), ("/a/y", 2)], "/") == [Match(["a", "x"], 1), Match(["a", "y"], 2)]
  {
    RootMatches();
    var e: seq<Entry> := [("/a/x", 1), ("/a/y", 2)];
    assert Lookup(e[1..], "/") == [Match(["a", "y"], 2)] by {
      assert e[1..][1..] == [];
    }
  }

  lemma SiblingsCompose(s1: Value, s2: Value)
    ensures ComposeFrom([Match(["a", "x"], 1), Match(["a", "y"], 2)], map[1 := s1, 2 := s2], map[])
         == Ok(VDict(map["a" := VDict(map["x" := s1]), "y" := s2]))
  {
    assert Nest(["x"], s1) == VDict(map["x" := s1]) by {
      assert ["x"][1..] == [];
    }
    assert FirstAbsent(map[], ["a", "x"]) == 0;
    assert ["a", "x"][1..] == ["x"];
    var d1 := Place(map[], ["a", "x"], s1);
    assert d1 == map["a" := VDict(map["x" := s1])];
    assert FirstAbsent(d1, ["a", "y"]) == 1;
    assert ["a", "y"][2..] == [];
    var st := map[1 := s1, 2 := s2];
    var ms := [Match(["a", "x"], 1), Match(["a", "y"], 2)];
    assert ComposeFrom(ms, st, map[]) == ComposeFrom(ms[1..], st, d1);
    var d2 := Place(d1, ["a", "y"], s2);
    assert d2 == map["a" := VDict(map["x" := s1]), "y" := s2];
    assert ComposeFrom(ms[1..], st, d1) == ComposeFrom([], st, d2);
  }

  lemma NestedMatchesChild()
    ensures Covers("/a", "/a/x") && Rel("/a", "/a/x") == ["x"]
  {
    CoversIsSegmentPrefix(["a"], ["a", "x"]);
    assert PathOf(["a"]) == "/a";
    assert PathOf(["a", "x"]) == "/a/x";
    assert ["a", "x"][1..] == ["x"];
  }

  lemma NestedMatchesGrandchild()
    ensures Covers("/a", "/a/x/y") && Rel("/a", "/a/x/y") == ["x", "y"]
  {
    CoversIsSegmentPrefix(["a"], ["a", "x", "y"]);
    assert PathOf(["a"]) == "/a";
    assert PathOf(["a", "x", "y"]) == "/a/x/y";
    assert ["a", "x", "y"][1..] == ["x", "y"];
  }

  /** A path registered after its own descendant overwrites the
      descendant's state in the composed result. */
  lemma GetOverwritesDescendant(s1: Value, s2: Value)
    ensures Get([("/a/x/y", 1), ("/a/x", 2)], "/a", map[1 := s1, 2 := s2])
         == Ok(VDict(map["x" := s2]))
  {
    NestedLookup();
    NestedCompose(s1, s2);
  }

  lemma NestedLookup()
    ensures Lookup([("/a/x/y", 1), ("/a/x", 2)], "/a") == [Match(["x", "y"], 1), Match(["x"], 2)]
  {
    NestedMatchesChild();
    NestedMatchesGrandchild();
    var e: seq<Entry> := [("/a/x/y", 1), ("/a/x", 2)];
    assert Lookup(e[1..], "/a") == [Match(["x"], 2)] by {
      assert e[1..][1..] == [];
    }
  }

  lemma NestedCompose(s1: Value, s2: Value)
    ensures ComposeFrom([Match(["x", "y"], 1), Match(["x"], 2)], map[1 := s1, 2 := s2], map[])
         == Ok(VDict(map["x" := s2]))
  {
    assert Nest(["y"], s1) == VDict(map["y" := s1]) by {
      assert ["y"][1..] == [];
    }
    assert FirstAbsent(map[], ["x", "y"]) == 0;
    assert ["x", "y"][1..] == ["y"];
    var d1 := Place(map[], ["x", "y"], s1);
    assert d1 == map["x" := VDict(map["y" := s1])];
    assert FirstAbsent(d1, ["x"]) == 1;
    var st := map[1 := s1, 2 := s2];
    var ms := [Match(["x", "y"], 1), Match(["x"], 2)];
    assert ComposeFrom(ms, st, map[]) == ComposeFrom(ms[1..], st, d1);
    var d2 := Place(d1, ["x"], s2);
    assert d2 == map["x" := s2];
    assert ComposeFrom(ms[1..], st, d1) == ComposeFrom([], st, d2);
  }

  /** `set_resource` raises `ServiceResourceDoesNotExist` before sending
      anything exactly when the query is empty or covers no registered key
      (an exact match's own handler may raise it too, but only after it was
      sent the payload). */
  lemma SetMissingIff(entries: seq<Entry>, q: Path, data: Value, answers: map<ActorId, Outcome<ServiceError>>)
    ensures Set(entries, q, data, answers) == (Fail(ResourceDoesNotExist), []) <==>
              q == "" || forall e :: e in entries ==> !Covers(q, e.0)
  {
    var ms := Lookup(entries, q);
    SetNeverMissing(ms, data, answers);
    if q != "" && exists e :: e in entries && Covers(q, e.0) {
      var e :| e in entries && Covers(q, e.0);
      assert Match(Rel(q, e.0), e.1) in ms;
    }
    if ms != [] {
      assert ms[0] in ms;
    }
  }

  lemma {:induction false} SetNeverMissing(ms: seq<Match>, data: Value, answers: map<ActorId, Outcome<ServiceError>>)
    ensures SetFrom(ms, data, answers) != (Fail(ResourceDoesNotExist), [])
    ensures SetFrom(ms, data, answers).0 == Fail(ResourceDoesNotExist) ==> SetFrom(ms, data, answers).1 != []
    decreases |ms|
  {
    if ms != [] {
      SetNeverMissing(ms[1..], data, answers);
    }
  }

  /** The first match whose step raises ends `set_resource` with that
      exception, after the messages of the matches before it and its own:
      in particular an exact match whose `set_state` raises makes
      `set_resource` raise the same exception, and later matches are not
      reached. */
  lemma {:induction false} SetStopsAt(ms: seq<Match>, i: nat, data: Value, answers: map<ActorId, Outcome<ServiceError>>)
    requires i < |ms|
    requires SetFrom(ms[..i], data, answers).0 == Pass
    requires SetStep(ms[i], data, answers).0.Some?
    ensures SetFrom(ms, data, answers)
         == (Fail(SetStep(ms[i], data, answers).0.value),
             SetFrom(ms[..i], data, answers).1 + SetStep(ms[i], data, answers).1)
    decreases i
  {
    if i > 0 {
      assert ms[..i][0] == ms[0] && ms[..i][1..] == ms[1..][..i - 1];
      SetStopsAt(ms[1..], i - 1, data, answers);
      Associative(SetStep(ms[0], data, answers).1, SetFrom(ms[1..][..i - 1], data, answers).1,
                  SetStep(ms[i], data, answers).1);
    } else {
      assert ms[..0] == [];
      assert SetFrom(ms[..0], data, answers).1 + SetStep(ms[0], data, answers).1 == SetStep(ms[0], data, answers).1;
    }
  }

  /** When no descent fails and every exact match's `set_state` returns
      normally, `set_resource` succeeds and sends exactly: the
      whole payload to an exact match, and to each descendant the part of the
      payload along its segments when that part exists and is truthy. */
  lemma {:induction false} SetDelivers(ms: seq<Match>, data: Value, answers: map<ActorId, Outcome<ServiceError>>)
    requires forall m :: m in ms && m.segs == [] ==> m.actor in answers && answers[m.actor] == Pass
    requires forall m :: m in ms && m.segs != [] ==> Descend(data, m.segs).Ok?
    ensures SetFrom(ms, data, answers).0 == Pass
    ensures forall a: ActorId, v :: (a, v) in SetFrom(ms, data, answers).1 <==>
              exists m :: m in ms && Receives(m, data, a, v)
    decreases |ms|
  {
    if ms != [] {
      assert forall m :: m in ms[1..] ==> m in ms;
      SetDelivers(ms[1..], data, answers);
      var rest := SetFrom(ms[1..], data, answers).1;
      var step := SetStep(ms[0], data, answers);
      assert step.0.None?;
      assert SetFrom(ms, data, answers).1 == step.1 + rest;
      forall a: ActorId, v
        ensures (a, v) in step.1 + rest <==> exists m :: m in ms && Receives(m, data, a, v)
      {
        if (a, v) in step.1 {
          assert Receives(ms[0], data, a, v);
        } else if (a, v) in rest {
          var m :| m in ms[1..] && Receives(m, data, a, v);
          assert m in ms;
        }
        if exists m :: m in ms && Receives(m, data, a, v) {
          var m :| m in ms && Receives(m, data, a, v);
          if m == ms[0] {
            assert (a, v) in step.1;
          } else {
            var i :| 0 <= i < |ms| && ms[i] == m;
            assert m in ms[1..];
            assert (a, v) in rest;
          }
        }
      }
    }
  }

  /** The actor of match `m` is sent `v` by `set_resource(data)`: all of
      the payload for an exact match, the truthy part along its segments
      for a descendant. */
  predicate Receives(m: Match, data: Value, a: ActorId, v: Value)
  {
    m.actor == a && if m.segs == [] then v == data else Descend(data, m.segs) == Ok(Some(v)) && Truthy(v)
  }

  /** Setting a payload built by nesting `v` under a descendant's relative
      segments hands `v` to that descendant: `set_resource` inverts
      `expand`. */
  lemma SetReachesDescendant(ms: seq<Match>, m: Match, v: Value, answers: map<ActorId, Outcome<ServiceError>>)
    requires m in ms && m.segs != [] && Truthy(v)
    requires forall m' :: m' in ms && m'.segs == [] ==> m'.actor in answers && answers[m'.actor] == Pass
    requires forall m' :: m' in ms && m'.segs != [] ==> Descend(Nest(m.segs, v), m'.segs).Ok?
    ensures (m.actor, v) in SetFrom(ms, Nest(m.segs, v), answers).1
  {
    DescendNest(m.segs, v);
    SetDelivers(ms, Nest(m.segs, v), answers);
    assert Receives(m, Nest(m.segs, v), m.actor, v);
  }

  /** With no actor overriding `delete`, deleting existing paths raises at
      the first one, after exactly one `delete` call. */
  lemma DeleteWithoutOverride(entries: seq<Entry>, paths: seq<Path>)
    requires paths != []
    requires forall i :: 0 <= i < |paths| ==> paths[i] in Keys(entries)
    ensures DeleteFrom(entries, paths, {}) == (Fail(MethodNotImplemented), [ActorAt(entries, paths[0]).value])
  {
  }

  /** When every actor honours `delete`, each listed path's actor is called
      once, in order, and the call succeeds. */
  lemma {:induction false} DeleteCallsEach(entries: seq<Entry>, paths: seq<Path>, deletable: set<ActorId>)
    requires forall i :: 0 <= i < |paths| ==> paths[i] in Keys(entries)
    requires forall e :: e in entries ==> e.1 in deletable
    ensures DeleteFrom(entries, paths, deletable).0 == Pass
    ensures DeleteFrom(entries, paths, deletable).1
         == seq(|paths|, i requires 0 <= i < |paths| => ActorAt(entries, paths[i]).value)
    decreases |paths|
  {
    if paths != [] {
      DeleteCallsEach(entries, paths[1..], deletable);
    }
  }
}
