/** The range answers in plain coordinates.  Distance is measured in the X/Z plane: heights play no part
    in any query, in what a client should see, or in the grid query of a Space. */
module Coordinates {
  import opened Ids
  import opened Grids
  import opened Objects
  import opened Worlds
  import opened Invariants
  import opened Visibility
  import opened Clients
  import opened Spaces
  import H = GridHistory

  // ---------- queries ----------

  /** A listed position within reach is reported if and only if it lies in the disc around the centre. */
  lemma RangeInCoordinates(g: Grid, c: Vec, r: real, id: Id)
    requires g.Valid() && -g.Reach() <= r <= g.Reach() && id in g.positions
    ensures var p := g.positions[id];
            id in g.InRange(c, r) <==> (p.x - c.x) * (p.x - c.x) + (p.z - c.z) * (p.z - c.z) <= r * r
  {
    PositionedRange(g, c, r, id);
  }

  /** A clean id is in the answer of Query if and only if its cell lies in the square of cells around the
      centre's. */
  lemma QueryInCoordinates(g: Grid, c: Vec, id: Id)
    requires g.Valid() && g.CleanFor(id)
    ensures id in g.Window(c) <==>
              id in g.positions && var p, n := g.positions[id], Ceil(g.radius / g.cellSize);
              && -n <= (p.x / g.cellSize).Floor - (c.x / g.cellSize).Floor <= n
              && -n <= (p.z / g.cellSize).Floor - (c.z / g.cellSize).Floor <= n
  {
    forall k | k in g.cells && id in g.cells[k] ensures id in g.positions && k == g.CellOf(g.positions[id]) {
      assert g.Times(k, id) > 0;
    }
    if id in g.positions { assert id in g.At(g.CellOf(g.positions[id])); }
  }

  /** The same point of the plane, at any height. */
  predicate Above(p: Vec, q: Vec) {
    p.x == q.x && p.z == q.z
  }

  /** Two grids that differ in heights only. */
  ghost predicate Level(g: Grid, h: Grid) {
    && h.cellSize == g.cellSize && h.radius == g.radius && h.cellRange == g.cellRange && h.cells == g.cells
    && h.positions.Keys == g.positions.Keys && forall id :: id in g.positions ==> Above(g.positions[id], h.positions[id])
  }

  lemma LevelAnswers(g: Grid, h: Grid, c: Vec, d: Vec, r: real)
    requires Level(g, h) && Above(c, d)
    ensures h.Window(d) == g.Window(c) && h.InRange(d, r) == g.InRange(c, r)
  {
    assert g.CellOf(c) == h.CellOf(d);
    forall id ensures DistSq(h.PositionOf(id), d) == DistSq(g.PositionOf(id), c) {
      if id in g.positions { SameDistance(g.positions[id], h.positions[id], c, d); } else { SameDistance(ORIGIN, ORIGIN, c, d); }
    }
  }

  lemma SameDistance(p: Vec, q: Vec, c: Vec, d: Vec)
    requires Above(p, q) && Above(c, d)
    ensures DistSq(q, d) == DistSq(p, c)
  {
  }

  /** The same update at another height. */
  predicate LevelOp(a: H.Op, b: H.Op) {
    match a
    case Enter(id, p) => b.Enter? && b.id == id && Above(p, b.p)
    case Leave(id) => b == a
    case Move(id, p) => b.Move? && b.id == id && Above(p, b.p)
  }

  lemma LevelStep(g: Grid, h: Grid, a: H.Op, b: H.Op)
    requires Level(g, h) && LevelOp(a, b)
    ensures Level(H.Apply(g, a), H.Apply(h, b))
  {
    if !a.Leave? { assert g.CellOf(a.p) == h.CellOf(b.p); }
    if a.id in g.positions { assert g.CellOf(g.positions[a.id]) == h.CellOf(h.positions[a.id]); }
  }

  /** Heights play no part in any history: two histories that differ in heights only give the same
      answers to all queries, at whatever heights they are asked. */
  lemma {:induction false} HistoryIgnoresHeight(g: Grid, a: seq<H.Op>, b: seq<H.Op>)
    requires |a| == |b| && forall i :: 0 <= i < |a| ==> LevelOp(a[i], b[i])
    ensures Level(H.Run(g, a), H.Run(g, b))
    ensures forall c, d, r :: Above(c, d) ==> H.Run(g, b).InRange(d, r) == H.Run(g, a).InRange(c, r)
    decreases |a|
  {
    if a != [] {
      var n := |a| - 1;
      HistoryIgnoresHeight(g, a[..n], b[..n]);
      LevelStep(H.Run(g, a[..n]), H.Run(g, b[..n]), a[n], b[n]);
    }
    forall c, d, r | Above(c, d) ensures H.Run(g, b).InRange(d, r) == H.Run(g, a).InRange(c, r) {
      LevelAnswers(H.Run(g, a), H.Run(g, b), c, d, r);
    }
  }

  // ---------- clients ----------

  /** Where the live entity `y` stands. */
  function PositionOf(w: World, y: Id): Vec
    requires y in w.entities
  {
    w.Obj(w.entities[y]).position
  }

  /** At most 300 apart in the X/Z plane. */
  predicate Within300(p: Vec, q: Vec) {
    (p.x - q.x) * (p.x - q.x) + (p.z - q.z) * (p.z - q.z) <= 90000.0
  }

  /** `y` is another live entity of zone `z`, at most 300 away from `x`. */
  predicate InSight(w: World, z: ZoneId, x: Id, y: Id) {
    && x in w.entities && y in w.entities && y != x && y in w.entityZone && w.entityZone[y] == z
    && Within300(PositionOf(w, y), PositionOf(w, x))
  }

  /** What a client should see: the other live entities of the zone within 300 in the plane. */
  lemma ShouldSeeInCoordinates(w: World, z: ZoneId, x: Id, y: Id)
    requires x in w.entities
    ensures y in ShouldSee(w, z, x) <==> InSight(w, z, x, y)
  {
    assert AOI_RADIUS * AOI_RADIUS == 90000.0;
  }

  /** Two worlds that differ in the heights of entities only. */
  ghost predicate LevelWorlds(w: World, w': World) {
    && w'.entities == w.entities && w'.entityZone == w.entityZone && w'.zones.Keys == w.zones.Keys
    && (forall z :: z in w.zones ==> w'.zones[z].zone == w.zones[z].zone && w'.zones[z].entities == w.zones[z].entities)
    && w'.objs.Keys == w.objs.Keys && forall e :: e in w.objs ==> Above(w.objs[e].position, w'.objs[e].position)
  }

  lemma SightIgnoresHeight(w: World, w': World, z: ZoneId, x: Id)
    requires LevelWorlds(w, w') && x in w.entities
    ensures ShouldSee(w', z, x) == ShouldSee(w, z, x)
  {
    forall y | y in w.entities ensures Near(w', z, x, y) <==> Near(w, z, x, y) {
      SameDistance(PositionOf(w, y), PositionOf(w', y), PositionOf(w, x), PositionOf(w', x));
    }
  }

  /** The end-to-end theorem in coordinates: after any disciplined run and one visibility pass, what a
      client of the zone holds after replaying its events. */
  lemma ClientsSeeInCoordinates(ops: seq<Op>, z: ZoneId, pass: seq<Op>, order: seq<Id>, x: Id, y: Id)
    requires AllEnabled(Start(), ops) && AllDisciplined(Start(), ops)
    requires IsPass(Run(Start(), ops), z, pass, order) && AllEnabled(Run(Start(), ops), pass)
    requires x in Run(Start(), ops).entities && x in Run(Start(), ops).entityZone && Run(Start(), ops).entityZone[x] == z
    ensures var w := Run(Run(Start(), ops), pass);
            && x in w.entities && x in w.joined && w.joined[x] <= |w.log|
            && (y in Replay(Events(w.log[w.joined[x]..]), x) <==> InSight(w, z, x, y))
  {
    ClientsSeeExactly(ops, z, pass, order, x);
    SeenInCoordinates(Run(Run(Start(), ops), pass), z, x, y);
  }

  lemma SeenInCoordinates(w: World, z: ZoneId, x: Id, y: Id)
    requires SeesExactly(w, z, x)
    ensures y in Replay(Events(w.log[w.joined[x]..]), x) <==> InSight(w, z, x, y)
  {
    ShouldSeeInCoordinates(w, z, x, y);
  }

  // ---------- the grid query of a Space ----------

  /** The entries a grid query reports: those within the radius of the middle of the zone's square, whose
      side is the zone's size, or 100 for a zone without one. */
  lemma NearZoneInCoordinates(w: World, z: ZoneId, space: string, gridX: int, gridY: int, radius: real, e: Entity)
    requires z in w.zones
    ensures NearZone(w, z, space, gridX, gridY, radius, e) <==>
              w.zones[z].zone.Some? && var zone := w.zones[z].zone.value;
              && zone.runtimeId == space && zone.gridX == gridX && zone.gridY == gridY
              && var side, p := (if zone.size <= 0.0 then 100.0 else zone.size), w.Obj(e).position;
                 var dx, dz := p.x - (gridX as real * side + side / 2.0), p.z - (gridY as real * side + side / 2.0);
                 dx * dx + dz * dz <= radius * radius
  {
  }

  lemma NearGridIgnoresHeight(w: World, w': World, space: string, gridX: int, gridY: int, radius: real, e: Entity)
    requires LevelWorlds(w, w')
    ensures NearGrid(w', space, gridX, gridY, radius, e) <==> NearGrid(w, space, gridX, gridY, radius, e)
  {
    forall z | z in w.zones ensures NearZone(w', z, space, gridX, gridY, radius, e) <==> NearZone(w, z, space, gridX, gridY, radius, e) {
      LevelZone(w, w', z, space, gridX, gridY, radius, e);
    }
  }

  lemma LevelZone(w: World, w': World, z: ZoneId, space: string, gridX: int, gridY: int, radius: real, e: Entity)
    requires z in w.zones && LevelWorlds(w, w')
    ensures NearZone(w', z, space, gridX, gridY, radius, e) <==> NearZone(w, z, space, gridX, gridY, radius, e)
  {
    if w.zones[z].zone.Some? {
      var c := ZoneCenter(w.zones[z].zone.value);
      SameDistance(w.Obj(e).position, w'.Obj(e).position, c, c);
    }
  }
}
