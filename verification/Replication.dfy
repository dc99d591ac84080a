/** What each step tells whom: the exact events of a move and of an observation. */
module Replication {
  import opened Ids
  import opened Worlds
  import opened Invariants
  import opened Visibility
  import opened Clients
  import opened Coordinates

  function ObserversOf(evs: seq<Event>): (ids: seq<Id>)
    ensures |ids| == |evs| && forall i :: 0 <= i < |evs| ==> ids[i] == evs[i].observer
  {
    seq(|evs|, i requires 0 <= i < |evs| => evs[i].observer)
  }

  function SubjectsOf(evs: seq<Event>): (ids: seq<Id>)
    ensures |ids| == |evs| && forall i :: 0 <= i < |evs| ==> ids[i] == evs[i].subject
  {
    seq(|evs|, i requires 0 <= i < |evs| => evs[i].subject)
  }

  /** The events published between two states. */
  function Published(w: World, w': World): seq<Event>
    requires |w.log| <= |w'.log|
  {
    Events(w'.log[|w.log|..])
  }

  lemma PublishedAll(w: World, evs: seq<Event>)
    ensures Published(w, w.PublishAll(evs)) == evs
  {
    var more := Published(w, w.PublishAll(evs));
    assert |more| == |evs|;
    forall i | 0 <= i < |evs| ensures more[i] == evs[i] { assert w.PublishAll(evs).log[|w.log| + i].event == evs[i]; }
  }

  // ---------- moves ----------

  /** One Move of `x` to `p` for everyone in `near` but `x`, in the order of their ids, and nothing else. */
  ghost predicate TellsMove(evs: seq<Event>, space: string, x: Id, p: Vec, near: set<Id>) {
    && (forall i :: 0 <= i < |evs| ==> evs[i] == Event(Moved, space, evs[i].observer, x, "", p))
    && StrictlySorted(ObserversOf(evs)) && forall o :: o in ObserversOf(evs) <==> o in near && o != x
  }

  lemma {:induction false} MoveEventsTell(space: string, x: Id, p: Vec, observers: seq<Id>)
    requires StrictlySorted(observers)
    ensures TellsMove(MoveEvents(space, x, p, observers), space, x, p, set o | o in observers)
    decreases |observers|
  {
    var evs := MoveEvents(space, x, p, observers);
    if observers != [] {
      var front, o := observers[..|observers| - 1], observers[|observers| - 1];
      MoveEventsTell(space, x, p, front);
      TellsOneMore(MoveEvents(space, x, p, front), space, x, p, front, o);
      assert observers == front + [o];
    }
  }

  lemma TellsOneMore(evs: seq<Event>, space: string, x: Id, p: Vec, front: seq<Id>, o: Id)
    requires TellsMove(evs, space, x, p, set y | y in front) && StrictlySorted(front + [o])
    ensures TellsMove(evs + (if o == x then [] else [Event(Moved, space, o, x, "", p)]), space, x, p, set y | y in front + [o])
  {
    var ids := ObserversOf(evs);
    if o == x {
      assert evs + [] == evs;
    } else {
      assert ObserversOf(evs + [Event(Moved, space, o, x, "", p)]) == ids + [o];
      forall i | 0 <= i < |ids| ensures Leq(ids[i], o) && ids[i] != o { EarlierIsLess(front, o, ids[i], ids, i); }
    }
  }

  lemma EarlierIsLess(front: seq<Id>, o: Id, y: Id, ids: seq<Id>, i: nat)
    requires StrictlySorted(front + [o]) && i < |ids| && ids[i] == y && (y in ids ==> y in front)
    ensures Leq(y, o) && y != o
  {
    assert y in ids;
    var k :| 0 <= k < |front| && front[k] == y;
    assert (front + [o])[k] == y && (front + [o])[|front|] == o;
  }

  lemma EnqueueTells(w: World, x: Id, p: Vec)
    requires x in w.entityZone && w.entityZone[x] in w.zones
    ensures TellsMove(Published(w, EnqueueMove(w, x, p)), w.SpaceOf(x), x, p, w.zones[w.entityZone[x]].grid.InRange(p, AOI_RADIUS))
  {
    var near := w.GridOf(w.entityZone[x]).InRange(p, AOI_RADIUS);
    MoveEventsTell(w.SpaceOf(x), x, p, Sorted(near));
    PublishedAll(w, MoveEvents(w.SpaceOf(x), x, p, Sorted(near)));
    assert (set o | o in Sorted(near)) == near;
  }

  /** The core of realtime position sync: moving a live entity publishes exactly one Move, with its Space
      and its new position, for every other id within 300 of that position in the moved grid, in the
      order of the ids, and publishes nothing else. */
  lemma MoveTellsExactly(w: World, x: Id, p: Vec)
    requires x in w.entities && x in w.entityZone && w.entityZone[x] in w.zones
    ensures var w', z := MoveEntity(w, x, p), w.entityZone[x];
            && z in w'.zones && w'.zones[z].grid == w.zones[z].grid.Move(x, p)
            && TellsMove(Published(w, w'), w.SpaceOf(x), x, p, w'.zones[z].grid.InRange(p, 300.0))
  {
    var e, z := w.entities[x], w.entityZone[x];
    var w1 := w.(objs := w.objs[e := w.Obj(e).(position := p)]);
    var w2 := w1.WithGrid(z, w.GridOf(z).Move(x, p));
    EnqueueTells(w2, x, p);
  }

  lemma MovedScene(w: World, x: Id, p: Vec, o: Id)
    requires Agree(w) && x in w.entities
    ensures var w' := MoveEntity(w, x, p);
            && w'.entities == w.entities && w'.entityZone == w.entityZone && w'.joined == w.joined && w'.entityAOI == w.entityAOI
            && (o in w.entities ==> PositionOf(w', o) == if o == x then p else PositionOf(w, o))
  {
    if o in w.entities {
      assert LiveOk(w, x) && LiveOk(w, o);
      MovedPosition(w, MoveEntity(w, x, p), x, p, o);
    }
  }

  lemma MovedPosition(w: World, w': World, x: Id, p: Vec, o: Id)
    requires x in w.entities && o in w.entities && w'.entities == w.entities
    requires w.entities[x] in w.objs && w.objs[w.entities[x]].id == x && w.entities[o] in w.objs && w.objs[w.entities[o]].id == o
    requires w'.objs == w.objs[w.entities[x] := w.Obj(w.entities[x]).(position := p)]
    ensures PositionOf(w', o) == if o == x then p else PositionOf(w, o)
  {
  }

  /** In a settled zone those are the live entities of the zone within 300, ghosts apart. */
  lemma MoveToldIff(w: World, x: Id, p: Vec, o: Id)
    requires Inv(w) && AllSettled(w) && x in w.entities && x in w.entityZone && IsReal(o)
    ensures o in ObserversOf(Published(w, MoveEntity(w, x, p))) <==>
              o != x && o in w.entities && o in w.entityZone && w.entityZone[o] == w.entityZone[x] && Within300(PositionOf(w, o), p)
  {
    var w', z := MoveEntity(w, x, p), w.entityZone[x];
    MovedSettled(w, x, p);
    MoveTellsExactly(w, x, p);
    MovedScene(w, x, p, o);
    RangeIn300(w', z, p, o);
  }

  lemma MovedSettled(w: World, x: Id, p: Vec)
    requires Inv(w) && AllSettled(w) && x in w.entities && x in w.entityZone
    ensures var w', z := MoveEntity(w, x, p), w.entityZone[x];
            z in w.zones && ZonesOk(w') && Agree(w') && z in w'.zones && Settled(w', z)
  {
    assert LiveOk(w, x);
    MoveKeepsInv(w, x, p);
    MoveSettled(w, x, p);
    assert w.entityZone[x] in MoveEntity(w, x, p).zones;
  }

  lemma RangeIn300(w: World, z: ZoneId, p: Vec, o: Id)
    requires ZonesOk(w) && Agree(w) && z in w.zones && Settled(w, z) && IsReal(o)
    ensures o in w.zones[z].grid.InRange(p, 300.0) <==>
              o in w.entities && o in w.entityZone && w.entityZone[o] == z && Within300(PositionOf(w, o), p)
  {
    RangeOfSettled(w, z, p, AOI_RADIUS, o);
    if o in w.entities { InRadiusIs(PositionOf(w, o), p); }
  }

  lemma InRadiusIs(p: Vec, q: Vec)
    ensures DistSq(p, q) <= AOI_RADIUS * AOI_RADIUS <==> Within300(p, q)
  {
  }

  // ---------- observations ----------

  /** The new neighbours of an observation: in range, not seen so far, live, and not the observer. */
  ghost function Appeared(w: World, x: Id, current: set<Id>): set<Id> {
    set y | y in current && y !in w.Visible(x) && y != x && y in w.entities.Keys
  }

  /** One Spawn each for `subjects`, with the type and position of the live entity. */
  ghost predicate SpawnsOf(w: World, evs: seq<Event>, space: string, x: Id) {
    forall i :: 0 <= i < |evs| ==> evs[i].subject in w.entities && var v := w.Obj(w.entities[evs[i].subject]);
                                     evs[i] == Event(Spawn, space, x, evs[i].subject, v.typ, v.position)
  }

  ghost predicate DespawnsOf(evs: seq<Event>, space: string, x: Id) {
    forall i :: 0 <= i < |evs| ==> evs[i] == Event(Despawn, space, x, evs[i].subject, "", ORIGIN)
  }

  ghost predicate Distinct(ids: seq<Id>) {
    forall i, j :: 0 <= i < j < |ids| ==> ids[i] != ids[j]
  }

  lemma {:induction false} SpawnEventsTell(w: World, space: string, x: Id, order: seq<Id>)
    requires Distinct(order)
    ensures var evs := SpawnEvents(w, space, x, order);
            && SpawnsOf(w, evs, space, x) && Distinct(SubjectsOf(evs))
            && forall y :: y in SubjectsOf(evs) <==> y in order && y !in w.Visible(x) && y != x && y in w.entities
    decreases |order|
  {
    if order != [] {
      var front, y := order[..|order| - 1], order[|order| - 1];
      var evs := SpawnEvents(w, space, x, front);
      SpawnEventsTell(w, space, x, front);
      assert order == front + [y] && y !in front;
      if !(y in w.Visible(x) || y == x || y !in w.entities) {
        var ev := Event(Spawn, space, x, y, w.Obj(w.entities[y]).typ, w.Obj(w.entities[y]).position);
        SubjectsMore(evs, ev);
      } else {
        assert SpawnEvents(w, space, x, order) == evs;
      }
    }
  }

  lemma SubjectsMore(evs: seq<Event>, ev: Event)
    requires Distinct(SubjectsOf(evs)) && ev.subject !in SubjectsOf(evs)
    ensures SubjectsOf(evs + [ev]) == SubjectsOf(evs) + [ev.subject] && Distinct(SubjectsOf(evs + [ev]))
  {
  }

  lemma {:induction false} DespawnEventsTell(current: set<Id>, space: string, x: Id, order: seq<Id>)
    requires Distinct(order)
    ensures var evs := DespawnEvents(current, space, x, order);
            && DespawnsOf(evs, space, x) && Distinct(SubjectsOf(evs))
            && forall y :: y in SubjectsOf(evs) <==> y in order && y !in current
    decreases |order|
  {
    if order != [] {
      var front, y := order[..|order| - 1], order[|order| - 1];
      var evs := DespawnEvents(current, space, x, front);
      DespawnEventsTell(current, space, x, front);
      assert order == front + [y] && y !in front;
      if y !in current {
        SubjectsMore(evs, Event(Despawn, space, x, y, "", ORIGIN));
      } else {
        assert DespawnEvents(current, space, x, order) == evs;
      }
    }
  }

  /** `evs` are one Spawn for everyone who appeared, then one Despawn for everyone who disappeared. */
  ghost predicate TellsSight(w: World, evs: seq<Event>, space: string, x: Id, current: set<Id>, k: nat) {
    && k <= |evs| && SpawnsOf(w, evs[..k], space, x) && DespawnsOf(evs[k..], space, x)
    && Visits(SubjectsOf(evs[..k]), Appeared(w, x, current)) && Visits(SubjectsOf(evs[k..]), w.Visible(x) - current)
  }

  /** An observation tells its observer, in the Space of its entry, exactly who appeared, with type and
      position, and then exactly who disappeared; and the observer now sees what is in range. */
  lemma ObserveTellsExactly(w: World, z: ZoneId, x: Id, spawns: seq<Id>, despawns: seq<Id>)
    requires z in w.zones && x in w.zones[z].entities && Enabled(w, ObserveOne(z, x, spawns, despawns))
    ensures var w', entry := Observe(w, z, x, spawns, despawns), w.Obj(w.zones[z].entities[x]);
            var current := w.zones[z].grid.InRange(entry.position, 300.0);
            && |w.log| <= |w'.log| && (exists k :: TellsSight(w, Published(w, w'), entry.runtimeId, x, current, k))
            && x in w'.entityAOI && w'.entityAOI[x] == AoiState(current, entry.position)
  {
    var space, current := w.Obj(w.zones[z].entities[x]).runtimeId, w.Surroundings(z, x);
    var a, b := SpawnEvents(w, space, x, spawns), DespawnEvents(current, space, x, despawns);
    SightEventsTell(w, space, x, current, spawns, despawns);
    PublishedAll(w, a + b);
    assert Observe(w, z, x, spawns, despawns).log == w.PublishAll(a + b).log;
    assert TellsSight(w, Published(w, Observe(w, z, x, spawns, despawns)), space, x, current, |a|);
  }

  lemma SightEventsTell(w: World, space: string, x: Id, current: set<Id>, spawns: seq<Id>, despawns: seq<Id>)
    requires Visits(spawns, current) && Visits(despawns, w.Visible(x))
    ensures var a, b := SpawnEvents(w, space, x, spawns), DespawnEvents(current, space, x, despawns);
            TellsSight(w, a + b, space, x, current, |a|)
  {
    var a, b := SpawnEvents(w, space, x, spawns), DespawnEvents(current, space, x, despawns);
    SpawnEventsTell(w, space, x, spawns);
    DespawnEventsTell(current, space, x, despawns);
    assert (a + b)[..|a|] == a && (a + b)[|a|..] == b;
  }
}
