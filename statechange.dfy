/**
 * `ServiceStateChangeRegistry`: subscriptions of actors to resource paths.
 * A state change at a path is delivered to every subscriber watching that
 * path or one of its ancestors, with the state nested under the segments
 * that lead from the watched path down to the changed one.
 *
 * Deliveries are fire-and-forget `notify` messages, returned as a log.
 */
module StateChange {
  import opened Values
  import opened Strings
  import opened Paths
  import opened Service

  /** A registry key: the subscriber and the path it watches. */
  type Subscription = (ActorId, Path)

  /** One `notify(path, data)` message sent to `to`. */
  datatype Delivery = Delivery(to: ActorId, path: Path, payload: Value)

  predicate Distinct(subs: seq<Subscription>)
  {
    forall i, j :: 0 <= i < j < |subs| ==> subs[i] != subs[j]
  }

  /** `_notify`: in subscription order, each subscriber watching `changed`
      or an ancestor of it receives the state re-rooted by `expand`. */
  function Fanout(subs: seq<Subscription>, changed: Path, state: Value): seq<Delivery>
  {
    if subs == [] then [] else Reach(subs[0], changed, state) + Fanout(subs[1..], changed, state)
  }

  /** The message one subscription receives for a change, if any. */
  function Reach(s: Subscription, changed: Path, state: Value): seq<Delivery>
  {
    if Covers(s.1, changed) then [Delivery(s.0, changed, Nest(Rel(s.1, changed), state))] else []
  }

  /** The fan-out from position `i` on: that subscription's message, then
      the rest's. */
  lemma FanoutAt(subs: seq<Subscription>, i: nat, changed: Path, state: Value)
    requires i < |subs|
    ensures Fanout(subs[i..], changed, state) == Reach(subs[i], changed, state) + Fanout(subs[i + 1..], changed, state)
  {
    assert subs[i..][0] == subs[i] && subs[i..][1..] == subs[i + 1..];
  }

  /** The subscriptions of other actors from position `i` on. */
  lemma OthersAt(subs: seq<Subscription>, i: nat, a: ActorId)
    requires i < |subs|
    ensures Others(subs[i..], a) == (if subs[i].0 != a then [subs[i]] else []) + Others(subs[i + 1..], a)
  {
    assert subs[i..][0] == subs[i] && subs[i..][1..] == subs[i + 1..];
  }

  /** The subscriptions of actors other than `a`, order kept. */
  function Others(subs: seq<Subscription>, a: ActorId): (r: seq<Subscription>)
    ensures forall s :: s in r <==> s in subs && s.0 != a
    ensures Distinct(subs) ==> Distinct(r)
  {
    if subs == [] then []
    else
      var rest := Others(subs[1..], a);
      if subs[0].0 == a then rest else [subs[0]] + rest
  }

  /** `subs` without the one subscription `s`, order kept. */
  function Drop1(subs: seq<Subscription>, s: Subscription): (r: seq<Subscription>)
    ensures forall t :: t in r <==> t in subs && t != s
    ensures Distinct(subs) ==> Distinct(r)
  {
    if subs == [] then []
    else
      var rest := Drop1(subs[1..], s);
      assert Distinct(subs) ==> subs[0] !in rest;
      if subs[0] == s then rest else [subs[0]] + rest
  }

  class StateChangeRegistry {
    var subs: seq<Subscription>

    ghost predicate Valid()
      reads this
    {
      Distinct(subs)
    }

    constructor ()
      ensures Valid() && subs == []
    {
      subs := [];
    }

    /** `register`: idempotent; a repeated pair keeps its place. */
    method Register(a: ActorId, p: Path)
      requires Valid()
      modifies this
      ensures Valid()
      ensures subs == if (a, p) in old(subs) then old(subs) else old(subs) + [(a, p)]
    {
      if (a, p) !in subs {
        subs := subs + [(a, p)];
      }
    }

    /** `register(a, p)` for each of the paths in turn, as a resource's
        start does. */
    method RegisterEach(a: ActorId, paths: seq<Path>)
      requires Valid()
      modifies this
      ensures Valid() && old(subs) <= subs
      ensures forall p :: p in paths ==> (a, p) in subs
      ensures forall s :: s in subs ==> s in old(subs) || (s.0 == a && s.1 in paths)
    {
      var i := 0;
      while i < |paths|
        invariant 0 <= i <= |paths| && Valid() && old(subs) <= subs
        invariant forall p :: p in paths[..i] ==> (a, p) in subs
        invariant forall s :: s in subs ==> s in old(subs) || (s.0 == a && s.1 in paths[..i])
      {
        Register(a, paths[i]);
        assert paths[..i + 1] == paths[..i] + [paths[i]];
        i := i + 1;
      }
      assert paths[..i] == paths;
    }

    /** `unregister`: removes the pair, raising `KeyError` when it is not
        registered. */
    method Unregister(a: ActorId, p: Path) returns (r: Outcome<ServiceError>)
      requires Valid()
      modifies this
      ensures Valid()
      ensures (a, p) !in old(subs) ==> r == Fail(Python(KeyError)) && subs == old(subs)
      ensures (a, p) in old(subs) ==> r == Pass && subs == Drop1(old(subs), (a, p))
    {
      if (a, p) !in subs {
        return Fail(Python(KeyError));
      }
      subs := Drop1(subs, (a, p));
      r := Pass;
    }

    /** `unregister_all`: the loop over a snapshot deleting every
        subscription of `a`. */
    method UnregisterAll(a: ActorId)
      requires Valid()
      modifies this
      ensures Valid()
      ensures subs == Others(old(subs), a)
    {
      var snapshot := subs;
      var kept: seq<Subscription> := [];
      var i := 0;
      while i < |snapshot|
        invariant 0 <= i <= |snapshot|
        invariant kept + Others(snapshot[i..], a) == Others(snapshot, a)
      {
        OthersAt(snapshot, i, a);
        var step := if snapshot[i].0 != a then [snapshot[i]] else [];
        Associative(kept, step, Others(snapshot[i + 1..], a));
        kept := kept + step;
        i := i + 1;
      }
      assert snapshot[i..] == [] && kept + [] == kept;
      subs := kept;
    }

    /** `notify`: the messages sent for a change of `changed` to `state`. */
    method Notify(changed: Path, state: Value) returns (out: seq<Delivery>)
      ensures out == Fanout(subs, changed, state)
    {
      var all := subs;
      out := [];
      var i := 0;
      while i < |all|
        invariant 0 <= i <= |all|
        invariant out + Fanout(all[i..], changed, state) == Fanout(all, changed, state)
      {
        var step := Reach(all[i], changed, state);
        FanoutAt(all, i, changed, state);
        Associative(out, step, Fanout(all[i + 1..], changed, state));
        out := out + step;
        i := i + 1;
      }
      assert all[i..] == [] && out + [] == out;
    }
  }

  // ---------------------------------------------------------------- properties

  /** A change reaches exactly the subscribers watching the changed path or
      an ancestor of it, each with the changed path and the state nested
      under the segments between the two. */
  lemma {:induction false} FanoutExactly(subs: seq<Subscription>, changed: Path, state: Value, d: Delivery)
    ensures d in Fanout(subs, changed, state) <==>
              exists s :: s in subs && Covers(s.1, changed)
                && d == Delivery(s.0, changed, Nest(Rel(s.1, changed), state))
    decreases |subs|
  {
    if subs != [] {
      FanoutExactly(subs[1..], changed, state, d);
      if exists s :: s in subs && Covers(s.1, changed)
           && d == Delivery(s.0, changed, Nest(Rel(s.1, changed), state)) {
        var s :| s in subs && Covers(s.1, changed)
                 && d == Delivery(s.0, changed, Nest(Rel(s.1, changed), state));
        if s != subs[0] {
          var i :| 0 <= i < |subs| && subs[i] == s;
          assert s in subs[1..];
        }
      }
    }
  }

  /** A subscriber watching the changed path itself receives the state
      unchanged. */
  lemma SamePathGetsStateItself(subs: seq<Subscription>, a: ActorId, p: Path, state: Value)
    requires (a, p) in subs
    ensures Delivery(a, p, state) in Fanout(subs, p, state)
  {
    RelSelf(p);
    FanoutExactly(subs, p, state, Delivery(a, p, state));
  }

  /** A subscriber watching the root receives every change. */
  lemma RootSeesEverything(subs: seq<Subscription>, a: ActorId, changed: Path, state: Value)
    requires (a, "/") in subs
    ensures exists d :: d in Fanout(subs, changed, state) && d.to == a
  {
    var d := Delivery(a, changed, Nest(Rel("/", changed), state));
    FanoutExactly(subs, changed, state, d);
  }

  /** After `unregister_all(a)` no change is delivered to `a`, while every
      other subscriber's deliveries are untouched. */
  lemma {:induction false} NoDeliveryAfterUnregisterAll(subs: seq<Subscription>, a: ActorId, changed: Path, state: Value)
    ensures forall d :: d in Fanout(Others(subs, a), changed, state) ==> d.to != a
    ensures forall d :: d in Fanout(subs, changed, state) && d.to != a ==>
              d in Fanout(Others(subs, a), changed, state)
    decreases |subs|
  {
    if subs != [] {
      NoDeliveryAfterUnregisterAll(subs[1..], a, changed, state);
    }
  }

  lemma DetectorPaths()
    ensures Covers("/speech", "/speech/detector")
    ensures Rel("/speech", "/speech/detector") == ["detector"]
  {
    DetectorJoin();
    assert '/' !in "detector" by {
      forall i | 0 <= i < 8 ensures "detector"[i] != '/' {
      }
    }
    ChildPath("/speech", "detector");
  }

  lemma DetectorJoin()
    ensures "/speech" + "/" + "detector" == "/speech/detector"
  {
  }

  lemma NotSpeechless()
    ensures !Covers("/speechless", "/speech/detector")
  {
    assert !StartsWith("/speech/detector", "/speechless") by {
      assert "/speech/detector"[7] != "/speechless"[7];
    }
  }

  /** A detector state change under `/speech/detector` reaches a subscriber
      of `/speech` as `{"detector": state}`, and does not reach one of
      `/speechless`. */
  lemma DetectorExample(state: Value)
    ensures Fanout([(1, "/speech"), (2, "/speechless")], "/speech/detector", state)
         == [Delivery(1, "/speech/detector", Single("detector", state))]
  {
    var subs: seq<Subscription> := [(1, "/speech"), (2, "/speechless")];
    var changed: Path := "/speech/detector";
    ReachSpeech(state);
    ReachSpeechless(state);
    assert subs[1..] == [(2, "/speechless")];
    assert Fanout(subs[1..], changed, state) == Reach(subs[1], changed, state) + Fanout([], changed, state) by {
      assert subs[1..][1..] == [];
    }
  }

  lemma ReachSpeech(state: Value)
    ensures Reach((1, "/speech"), "/speech/detector", state) == [Delivery(1, "/speech/detector", Single("detector", state))]
  {
    DetectorPaths();
    assert Nest(["detector"], state) == Single("detector", state) by {
      assert ["detector"][1..] == [];
    }
  }

  lemma ReachSpeechless(state: Value)
    ensures Reach((2, "/speechless"), "/speech/detector", state) == []
  {
    NotSpeechless();
  }
}
