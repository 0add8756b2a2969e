/**
 * What `ServiceResource` does for every resource: its constructor
 * registers the resource's path, and `on_stop` withdraws every
 * subscription of the resource and then its path.
 */
module Lifecycle {
  import opened Values
  import opened Paths
  import opened Service
  import opened Registry
  import opened StateChange

  /** `ServiceResource.__init__`: the path is registered for the actor,
      raising the path-conflict exception when it is taken. */
  method Start(resources: ResourceRegistry, actor: ActorId, path: Path) returns (r: Outcome<ServiceError>)
    requires resources.Valid()
    modifies resources
    ensures resources.Valid()
    ensures old(resources.Registered(path)) ==> r == Fail(PathConflict(path)) && resources.entries == old(resources.entries)
    ensures !old(resources.Registered(path)) ==> r == Pass && resources.entries == old(resources.entries) + [(path, actor)]
  {
    r := resources.Register(actor, path);
  }

  /** `ServiceResource.on_stop`: every subscription of the actor goes, then
      its path (by key; an empty path sweeps by actor instead). */
  method Stop(resources: ResourceRegistry, changes: StateChangeRegistry, actor: ActorId, path: Path)
    returns (r: Outcome<ServiceError>)
    requires resources.Valid() && changes.Valid()
    modifies resources, changes
    ensures resources.Valid() && changes.Valid()
    ensures changes.subs == Others(old(changes.subs), actor)
    ensures path != "" ==> r == Pass && resources.entries == Without(old(resources.entries), path)
    ensures path == "" && FirstOf(old(resources.entries), actor).None? ==> r == Pass && resources.entries == old(resources.entries)
    ensures path == "" && FirstOf(old(resources.entries), actor).Some? ==>
              var k := FirstOf(old(resources.entries), actor).value;
              r == Fail(Python(RuntimeError)) && resources.entries == old(resources.entries[..k] + resources.entries[k + 1..])
  {
    changes.UnregisterAll(actor);
    r := resources.Unregister(actor, path);
  }

  /** Starting a resource on a free path and stopping it gives the
      registries back without it: the same path table, and no
      subscription of the actor, every other subscription kept. */
  lemma StopUndoesStart(entries: seq<Entry>, subs: seq<Subscription>, actor: ActorId, path: Path, watched: seq<Path>)
    requires path !in Keys(entries) && path != ""
    requires forall s :: s in subs ==> s.0 != actor
    ensures Without(entries + [(path, actor)], path) == entries
    ensures Others(subs + Watching(actor, watched), actor) == subs
  {
    UnregisterUndoesRegister(entries, path, actor);
    OthersDropsActor(subs, actor, watched);
  }

  /** The subscriptions of an actor to each of the paths. */
  function Watching(actor: ActorId, watched: seq<Path>): (r: seq<Subscription>)
    ensures |r| == |watched| && forall i :: 0 <= i < |r| ==> r[i] == (actor, watched[i])
  {
    seq(|watched|, i requires 0 <= i < |watched| => (actor, watched[i]))
  }

  /** Withdrawing an actor's subscriptions keeps the others in order and
      drops all of its own. */
  lemma {:induction false} OthersDropsActor(subs: seq<Subscription>, actor: ActorId, watched: seq<Path>)
    requires forall s :: s in subs ==> s.0 != actor
    ensures Others(subs + Watching(actor, watched), actor) == subs
    decreases |subs|
  {
    if subs == [] {
      OthersNone(Watching(actor, watched), actor);
      assert subs + Watching(actor, watched) == Watching(actor, watched);
    } else {
      OthersDropsActor(subs[1..], actor, watched);
      assert (subs + Watching(actor, watched))[1..] == subs[1..] + Watching(actor, watched);
      assert (subs + Watching(actor, watched))[0] == subs[0];
    }
  }

  /** Only the actor's own subscriptions: nothing is left. */
  lemma {:induction false} OthersNone(subs: seq<Subscription>, actor: ActorId)
    requires forall s :: s in subs ==> s.0 == actor
    ensures Others(subs, actor) == []
    decreases |subs|
  {
    if subs != [] {
      OthersNone(subs[1..], actor);
    }
  }
}
