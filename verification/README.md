# Spatial server: verified model

This project models the core of a spatial game server in Dafny and proves what the server promises.
It has three parts.

**Interest management.** A `Game` keeps zones, entities and their visibility in several maps that
point at the same objects, and each zone keeps a hash grid (`AOI`). Module `Grids` is the grid as a
value, `GridHistory` every history of Enter, Leave and Move, `Aoi` the mutable index refined against
it. `Worlds` is the state of one server and every step that changes it; `Invariants`, `Visibility`,
`Clients`, `Coordinates`, `Replication`, `Motion`, `Delivery`, `History`, `Passes`, `Sessions`, `Spaces`,
`Remnants`, `Ghosts`, `Handover`, `Ticks` and `Promises` prove what steps tell, what all runs keep and
what clients end up with; `Leaks`, `Leftovers` and `Stale` give runs that show what does not hold.
`Games` is the server itself as a class whose methods and loops are proved to be such runs.

**Zone ownership.** `Repos` holds the two tables and their repositories, `Nodes` the allocator,
`Lookups` the LookupZone protocol interleaved at the level of single statements, `Capacity` what its
placements do to a server's limit, `Room` the service method proved to be a run of that protocol, and
`Sweepers` the production sweep.

**Smaller pieces.** `SendQueues` is the drop-oldest send queue under interleaving, `RateLimits` the
token buckets, `Npcs` patrol and wander motion, `Codec` the packet frame.

How the model reads the source:

- A loop over a Go map is a run of one step per entry in an arbitrary order that visits each entry
  once (`Visits`). Every theorem about runs therefore holds for every iteration order and for every
  interleaving of the steps that the server's lock makes atomic.
- Entities are objects. Maps hold pointers to them, so an update through one map is seen through the
  others; `objs` is the heap part of the abstract state. Grids are values inside `Game`; whether an
  index entry is the zone's own grid or a separate one is kept explicitly (`OfZone`, `Detached`).
- Floating-point numbers are reals. Clock readings, random draws, neighbour answers and the positions
  a lifecycle wants are parameters; a tick uses one reading of the wall clock for ghosts and one of the
  lifecycle clock for sessions. `sort.Slice` is sorting by the order of strings.
- Real entity ids do not end in `_ghost` or `@ghost`, and an object keeps its id (`Enabled`).
- Server ids in the tables are not empty where a theorem compares names. A packet's value stands for
  the packet, so the only-if half of `NewestIsKeptIff` asks that pushed packets differ.
- A disciplined run (`AllDisciplined`) adds an id only while it is not live, and sweeps a due entity
  only from a zone whose own grid is indexed. Exact visibility needs it, in assigned zones and in
  those that exist only because something was added to them, and `StepSettledIff` shows that no
  weaker condition keeps the grids free of stray listings. Map agreement, ghosts and sessions do not
  need it. The theorems about Spaces ask that an added object is a new one (`AllFresh`).
- A client that replays events (`Replay`, `ReplayAt`) adds an entity on Spawn, drops it on Despawn, and
  on Move changes the position of an entity it holds. A step is sighted (`Sighted`) for a client and an
  entity if it does not move the entity to a new place out of the client's range, nor add it again
  elsewhere while the client holds it.
- A client is at home (`AtHome`) if no zone but its own lists it; `ForeignTurnIff` says exactly when
  a turn of a foreign zone spoils what a client was told.

What does not hold of the code. Each point names a lemma that shows it and the exact condition under
which it does hold.

- Entering an id that is present leaves a second listing (`ReentryLeaksListing`). One answer is exact
  under `RangeExactIff`, all answers after a history under `HistoryExactIff`.
- A ghost that was entered twice is still reported after it expired (`ReenteredGhostStays`,
  `ReenteredLocalGhostStays`); mirrored and local ghosts vanish exactly under `ExpiredGhostHiddenIff`
  and `ExpiredLocalGhostHiddenIff`.
- A client can hold a wrong position of an entity it sees: a move is published to those in range of the
  new position only, and an id that is still visible is not announced again (`MovedOutOfSightIsStale`,
  `ReplacedIsStale`). `PositionsAreRightIff` is the exact condition over runs.
- The disconnect sweep leaves the grid alone in a zone that is not indexed, the case of a default zone
  that apps/game-server/main.go:145 fills with avatars. A neighbour in range is not told and goes on
  seeing the entity (`SweptStaysInSight`); it is told when it observes from out of range, and
  `SweptIsToldIff` is the exact condition over runs.
- The sweep also leaves the entity in its zone's map, where it observes again. Added to another Space
  it hears of the old one (`LeftoverLeaks`); `FaithfulInEveryRunIff` and `SpawnJoinsIff` are the
  conditions. When its zone is released its observer state stays behind (`StrayObserverStays`);
  `ReleaseListedIff` is the condition.
- A zone without a Space takes entities of any Space and shows them to each other (`SpacelessLeaks`).
  `IsolatedInEveryRunIff` is the condition for zones of both kinds, and `MixedZoneLeaks` and
  `MixedZoneTold` show that nothing weaker keeps clients apart.
- A snapshot loaded into a zone that is not assigned gets an index grid no move reaches
  (`UnassignedLoadGoesStale`); `IndexFollowsIff` with `OwnIndexIffAssigned` is the condition.
- A lookup can be answered with a server that does not own the zone at that moment, and two lookups
  with different ones: a claim succeeds on a row that is NULL by the time of its second statement or
  when that statement fails (`ReleaseSplitsAnswers`, `FailedSelectSplitsAnswers`), and an owner that
  was read may be gone when its server is read (`StaleReadSplitsAnswers`). Every answer is true exactly
  under `AnswersAreTrueIff`, with `ExplainIsSoundIff` and `StaleReadIff` for the two reads. True answers
  still differ if the zone changes hands between them: `GuardedAnswersAgreeIff`.
- The documented capacity limit of a node is never applied, because listed nodes carry no load
  (`ListedNodesAlwaysAccept`, `FullServerGetsAnother`); `PlacementOverloadsIff` is the condition.
- The load score does not always put zones before entities (`CrowdedNodeLoses`); `ScoreFollowsOrderIff`
  is the condition.
- With several producers the newest packet can be the one dropped (`TwoProducersLoseTheNewest`);
  `NewestIsKeptIff` is the condition over runs.
- Decoding ignores seven of the eight flag bits (`DecodeThenEncodeIff`).

## Model

| member | source | states |
|---|---|---|
| `Clients.ClientsSeeExactly` | internal/game/simulation.go:530-582 | After any disciplined run and one visibility pass of a zone in any map order, assigned or not, a client of that zone that replays its Spawn and Despawn events from empty holds exactly the other live entities of the zone within the radius; with no event of its own dropped, the accepted events alone give the same set |
| `Coordinates.ClientsSeeInCoordinates` | internal/game/simulation.go:530-582 | The same in plain coordinates: the client holds y if and only if y is another live entity of the zone with dx*dx + dz*dz at most 90000; heights do not count |
| `Motion.ClientsHoldPositions` | internal/game/simulation.go:530-612 | After any disciplined and sighted run and one visibility pass, a client that replays Spawn, Move and Despawn holds exactly the other live entities of the zone within 300, each at the very position where it stands |
| `Delivery.ConsumersSeeExactly` | internal/game/event.go:39-46 | If the backlog never exceeded 4096 events, then once the consumer has taken what is waiting, replaying the events taken since the client was added gives exactly what it should see: nothing is assumed of single events |
| `Ticks.TickUpdatesEveryClient` | internal/game/simulation.go:364-415 | After the zone turns of a tick (boundary detection and visibility pass per zone, zones in any order) every live client that no foreign zone lists is told exactly what it should see |
| `Ticks.ForeignTurnIff` | internal/game/simulation.go:401-405 | The condition on clients is exact: after the turn of a foreign zone that lists it, a client is up to date if and only if nothing is near it in its own zone and nothing is near its old entry |
| `Coordinates.SightIgnoresHeight` | internal/game/simulation.go:530-550 | Changing the heights of entities changes nothing a client should see |
| `Promises.TickKeepsItsPromise` | internal/game/simulation.go:364-415 | From any good state, a whole tick with disciplined commands brings every live client at home up to date by the end of its zone turns; after both sweeps a client that was not swept is up to date if and only if nothing it should have seen was due; the tick ends in a state in order, and a good one if every due entity lived in a zone with its own indexed grid |
| `Promises.OrderlyIsDisciplined` | internal/game/simulation.go:353-362 | Queued commands that add new objects with real ids that are not live are enabled and disciplined, whatever the server does with them |
| `Clients.DeltaReplay` | internal/game/simulation.go:530-582 | The difference sent by one observation turns the replayed old visible set into the replayed new one |
| `Clients.DisciplinedRun` | internal/game/simulation.go:218-268 | Every disciplined run of the server keeps the maps in agreement, the grids free of stray real listings and every client consistent with its visible set |
| `Clients.DisciplinedRunFrom` | internal/game/simulation.go:218-268 | The same from every good state, so that ticks can follow each other |
| `Clients.NothingMissed` | internal/game/event.go:39-46 | If no event for a client was dropped, replaying the accepted events equals replaying all published ones |
| `Clients.EventsDeliveredInOrder` | internal/game/event.go:39-46 | In every run what was taken from the channel followed by what waits in it is the sequence of accepted events, and the channel never exceeds its capacity |
| `Delivery.AcceptedIffRoom` | internal/game/event.go:39-46 | In every state whose accepted events are those taken and those waiting, and for every step, each new event is accepted if and only if fewer than 4096 accepted events are waiting, and a take delivers the oldest |
| `Delivery.NothingDroppedIff` | internal/game/event.go:39-46 | Over every run no event was dropped if and only if at every moment at most 4096 published events had not been taken |
| `Delivery.TakesDeliver` | internal/game/event.go:39-46 | Taking n events delivers exactly the n oldest accepted events that were waiting, or all of them |
| `Replication.MoveTellsExactly` | internal/game/simulation.go:683-708 | Moving a live entity publishes exactly one Move, with its Space and its new position, for every other id within 300 of that position in the moved grid, in the order of the ids, and nothing else |
| `Replication.MoveToldIff` | internal/game/simulation.go:683-708 | In a settled zone, among real ids, those told are the other live entities of the zone within 300 of the new position, in coordinates |
| `Replication.ObserveTellsExactly` | internal/game/simulation.go:545-580 | An observation publishes one Spawn with type and position for each live id newly in range, then one Despawn for each id no longer in range, all in the Space of the observer's entry, and the observer now sees what is in range |
| `Motion.StepRightIff` | internal/game/simulation.go:584-612 | From a good state in which a client holds an entity where it stands, a disciplined step leads to another such state if and only if it is sighted: it does not move the entity to a new place out of the client's range, nor add it again elsewhere while the client holds it |
| `Motion.PositionsAreRightIff` | internal/game/simulation.go:584-612 | Over every disciplined run, at every moment a client holds a live entity, if at all, exactly where it stands if and only if every step is sighted |
| `Stale.MovedOutOfSightIsStale` | internal/game/simulation.go:683-708 | A run from the empty server: an entity moves out of range of a client, the client follows and observes; it sees the entity and holds it at the old position |
| `Stale.ReplacedIsStale` | internal/game/simulation.go:553-566 | A run from the empty server: an entity is removed and another is added under its id within range before the client observes; the client holds it where the first one stood |
| `Invariants.MapsAgreeInEveryRun` | internal/game/simulation.go:152-268 | Over every sequence of steps the live entities are exactly those with a zone, and each is the very object in its zone's map and stands in that zone's grid at exactly its current position |
| `Invariants.StepKeeps` | internal/game/simulation.go:479-522 | Every single step of the server, from any state in order, leaves a state in order |
| `Invariants.RunKeeps` | internal/game/simulation.go:364-415 | Every run from any state in order, not only from the empty server, ends in a state in order |
| `Invariants.SimulateIsRun` | internal/game/simulation.go:662-681 | The simulation pass is a run of position moves, so everything proved of runs covers it |
| `Passes.SimulationLands` | internal/game/simulation.go:662-681 | After the simulation every live entity with a lifecycle that was asked and wants to be somewhere is there, and no other has moved |
| `Passes.MovesLandLast` | internal/game/simulation.go:584-612 | Any sequence of moves leaves each live entity where its latest move put it |
| `History.ZoneIdsFollowInEveryRun` | internal/game/simulation.go:218-250 | In every run the object of a live entity names the zone it lives in |
| `Visibility.StepSettled` | internal/game/simulation.go:479-522 | Every disciplined step keeps real ids listed once and only where they live, whatever ghosts do to the same grids |
| `Visibility.StepSettledIff` | internal/game/simulation.go:218-268 | The discipline is exact: a step from a settled state leaves every zone settled if and only if it is not an addition of a live id and not a sweep of a due entity from a zone whose own grid is not indexed |
| `Visibility.RangeOfSettled` | internal/game/simulation.go:530-550 | In a settled zone a range query finds, among real ids, exactly the zone's live entities within the radius |
| `Grids.EnterKeeps` | internal/game/aoi/aoi.go:42-46 | Enter keeps every positioned id listed in the cell of its position, and keeps every id listed at most there unless a present id is entered again |
| `Grids.LeaveKeeps` | internal/game/aoi/aoi.go:48-62 | Leave keeps every positioned id listed in its cell and creates no stray listing |
| `Grids.MoveKeeps` | internal/game/aoi/aoi.go:64-85 | Move keeps every positioned id listed in its cell and creates no stray listing |
| `Grids.WindowCovers` | internal/game/aoi/aoi.go:87-108 | Every stored id within the reach cellRange * cellSize lies in the scanned window of cells |
| `Grids.RangeIsScanPlusOrphans` | internal/game/aoi/aoi.go:110-123 | EntitiesInRange is the distance scan plus, if the zero vector is in range, the ids listed in the window that have no position |
| `Grids.RangeExactIff` | internal/game/aoi/aoi.go:110-123 | The answer equals the distance scan if and only if the zero vector is out of range or every id listed in the window has a position |
| `Grids.ReachIsTight` | internal/game/aoi/aoi.go:24-33 | Beyond the reach the window does miss stored ids, so the bound on the radius cannot be dropped |
| `Coordinates.RangeInCoordinates` | internal/game/aoi/aoi.go:110-123 | A stored id within reach is reported if and only if dx*dx + dz*dz is at most r*r |
| `Coordinates.QueryInCoordinates` | internal/game/aoi/aoi.go:87-108 | A clean id is in the answer of Query if and only if its cell is at most ceil(radius / cellSize) cells away on both axes |
| `GridHistory.HistoryRefinesScan` | internal/game/aoi/aoi.go:42-123 | After any Enter/Leave/Move history no id stored within the radius is missed; if no present id was entered again the answer is exactly the scan of the positions the history leaves |
| `Coordinates.HistoryIgnoresHeight` | internal/game/aoi/aoi.go:42-123 | Two histories that differ only in heights give the same answers to every query, at whatever heights it is asked |
| `GridHistory.RunTracks` | internal/game/aoi/aoi.go:42-85 | The positions after any history are those a plain map of last positions would hold |
| `GridHistory.ListingsConserved` | internal/game/aoi/aoi.go:42-85 | Over all cells an id is listed as often as it was entered (Move of an absent id included) minus the Leaves that found it |
| `GridHistory.MoveListings` | internal/game/aoi/aoi.go:64-85 | Move of a present id changes no listing count |
| `GridHistory.ReentryLeaksListing` | internal/game/aoi/aoi.go:42-46 | Entering twice and leaving once leaves a listing that a query around the zero vector reports although the id is stored nowhere |
| `GridHistory.NeverReportedIff` | internal/game/aoi/aoi.go:87-123 | An id without a position is reported by no range query, at any centre and radius, if and only if no cell lists it |
| `GridHistory.HistoryExactIff` | internal/game/aoi/aoi.go:42-123 | After any history no query ever reports an absent id if and only if every absent id was entered as often as a Leave found it (or the radius is so negative that every window is empty) |
| `GridHistory.LeaveHidesIff` | internal/game/aoi/aoi.go:48-62 | After Leave an id is never reported again if and only if it was listed exactly as often as it had a position |
| `GridHistory.RestoredGridIsExact` | internal/game/aoi/aoi.go:140-164 | For every grid and every map order the restored grid lists each id once, in its own cell, and answers each query within reach as a scan of the original positions would |
| `Aoi.AOI.constructor` | internal/game/aoi/aoi.go:24-33 | A new index is the empty grid of the given sizes |
| `Aoi.AOI.Enter` | internal/game/aoi/aoi.go:42-46 | The object after Enter is the grid after Enter |
| `Aoi.AOI.Leave` | internal/game/aoi/aoi.go:48-62 | The in-place cut of the first listing and the position give the grid after Leave |
| `Aoi.AOI.Move` | internal/game/aoi/aoi.go:64-85 | The in-place relocation gives the grid after Move, for absent ids and for moves within a cell too |
| `Aoi.AOI.Query` | internal/game/aoi/aoi.go:87-108 | The listing of the ids in the window, strictly sorted |
| `Aoi.AOI.EntitiesInRange` | internal/game/aoi/aoi.go:110-123 | The listing of the ids in range, strictly sorted: those of the window whose position, or the zero vector without one, has dx*dx + dz*dz at most r*r |
| `Aoi.QueryCells` | internal/game/aoi/aoi.go:87-108 | The nested loops over the window's cells with a seen-set collect exactly the window, strictly sorted |
| `Aoi.InRangeOf` | internal/game/aoi/aoi.go:110-123 | Filtering the window by dx*dx + dz*dz gives exactly the range set, strictly sorted |
| `Aoi.SortIds` | internal/game/aoi/aoi.go:104-106 | Sorting distinct ids gives the one sorted listing of their set |
| `Aoi.AOI.Deserialize` | internal/game/aoi/aoi.go:154-164 | The result is the grid rebuilt by entering every saved position in some map order, or the empty grid for unreadable data |
| `Ids.SortedListingUnique` | internal/game/aoi/aoi.go:104-106 | A set of ids has one sorted listing only, so sorting hides the map order |
| `Games.Game.constructor` | internal/game/simulation.go:122-150 | A new server is the empty server |
| `Games.Game.AssignZone` | internal/game/simulation.go:152-167 | The server after assigning a zone; an existing zone is left alone |
| `Games.Game.ReleaseZone` | internal/game/simulation.go:175-201 | The nested deletions leave the server without the zone, its entities, its index entry, its mirrored ghosts and the ghosts that came from it |
| `Games.Game.AddEntity` | internal/game/simulation.go:218-250 | The default zone, the implicit zone, the Space taken over from the zone, and all five maps after an addition |
| `Games.Game.RemoveEntity` | internal/game/simulation.go:254-268 | The maps, the zone and its grid after a removal; nothing for an unknown id |
| `Games.Game.EntitiesNearGrid` | internal/game/simulation.go:282-311 | Scans the entity maps of the zones of the Space at the grid coordinate: every entry whose object stands within the radius of the zone's centre is returned, each once, and nothing else |
| `Games.Game.ApplyCmds` | internal/game/simulation.go:353-362 | At most one buffer of queued commands is run, oldest first; a removal removes its id, an addition adds its object with the object's own id and type, and the first addition of each object with its whole value |
| `Games.Game.DetectZoneBoundaries` | internal/game/simulation.go:479-507 | The loop is a run of one detection step per entity of the zone, each entity once |
| `Games.Game.SweepGhosts` | internal/game/simulation.go:509-522 | The loop is a run of one expiry step per local ghost, each ghost once |
| `Games.Game.UpdateVisibility` | internal/game/simulation.go:530-582 | The loop is a visibility pass: every entity of the zone observes once, in map order |
| `Games.Game.ObserveEntity` | internal/game/simulation.go:545-580 | One observer: Spawn for what is newly seen and live, Despawn for what is no longer seen, and the new visible set |
| `Games.Game.DrainInbox` | internal/game/simulation.go:376-395 | At most the packet limit is dispatched, oldest first; position packets become moves and the rest of the queue stays |
| `Games.Game.PacketsLand` | internal/game/simulation.go:376-395 | Handling packets leaves each live client at the position of its latest packet that carried one, and moves nobody else |
| `Games.Game.MoveEntity` | internal/game/simulation.go:584-612 | A position packet moves the object and its grid entry and tells the observers in range |
| `Games.Game.Simulate` | internal/game/simulation.go:662-681 | Every entity is asked once; the autonomous ones that moved are moved in object, grid and events |
| `Games.Game.EnqueueMove` | internal/game/simulation.go:683-708 | One Move event per observer in range other than the mover, in sorted order |
| `Games.Game.Publish` | internal/game/event.go:39-46 | An event is appended if the channel has room and dropped otherwise; the attempt is recorded either way |
| `Games.Game.Tick` | internal/game/simulation.go:364-415 | A tick is commands, packets, simulation, one turn for every zone, ghost expiry by the wall clock and the disconnect sweep by the lifecycle clock, in that order and each a run of model steps tied to what was queued |
| `Games.Game.TickInOrder` | internal/game/simulation.go:364-415 | The executed tick of a good server keeps that promise: queued additions of new objects with real ids that are not live are disciplined, every live client at home is up to date after the turns, a client that stays is up to date in the final state if and only if nothing it should see was due, all are if no session was due, and the server stays in order |
| `Games.Game.MarkDisconnected` | internal/game/lifecycle.go:22-35 | Only a live entity gets a disconnect mark |
| `Games.Game.MarkReconnected` | internal/game/lifecycle.go:37-47 | The id gets an active session, whether it had one before or not |
| `Games.Game.SweepDisconnected` | internal/game/lifecycle.go:56-77 | The loop is a run of one session step per stored session, each once |
| `Games.Game.ReconcileNeighborGhosts` | internal/game/boundary.go:36-80 | The two loops are a reconcile of the model: every report stored and placed, then every unreported expired ghost removed |
| `Games.Game.QueryLocal` | internal/game/boundary.go:82-104 | Returns, by id, exactly the live entities the indexed grid reports around (100 * gridX, 100 * gridY), each with its type and position |
| `Games.Game.ApplyEntityEnter` | internal/game/boundary.go:122-140 | The mirrored ghost is stored and entered |
| `Games.Game.ApplyEntityLeave` | internal/game/boundary.go:142-153 | The mirrored ghost is removed from store and grid |
| `Games.Game.ApplyEntityUpdate` | internal/game/boundary.go:155-171 | A known mirrored ghost is moved and its life extended; an unknown one is ignored |
| `Games.Game.MigrateEntityIn` | internal/game/boundary.go:173-179 | A new object with the travelled type and position is added to the target zone |
| `Games.Game.SnapshotZone` | internal/game/boundary.go:185-213 | The snapshot lists exactly the live entities of the zone, each with its type and position, and the positions of its indexed grid; none for a zone that is not indexed |
| `Games.Game.LoadZoneSnapshot` | internal/game/boundary.go:215-229 | The index is loaded if it has no entry and the entities are added one by one as distinct new objects |
| `Games.Game.HandOver` | internal/game/boundary.go:185-237 | Snapshot, assignment, load and release on two server objects make exactly the handover of the model, or change nothing if the zone is not indexed |
| `Sessions.SessionIsLatestMark` | internal/game/lifecycle.go:22-47 | In every run the stored session is the latest effective mark, whatever ticks, adds and removes came between |
| `Sessions.SweepRemovesExactly` | internal/game/lifecycle.go:56-77 | In every run a sweep of a session takes the entity from all four maps exactly if its latest effective mark is a disconnect older than the window, and changes no other entry |
| `Sessions.SweepRemovesTheDue` | internal/game/lifecycle.go:56-77 | In every run the whole sweep, in any map order, takes from all four maps exactly the ids whose latest effective mark is a disconnect older than the window, and no other |
| `Remnants.SweptIsToldIff` | internal/game/lifecycle.go:65-75 | After the sweep of an entity, over every run that neither adds it again nor releases its zone: an observation in that zone publishes its Despawn if and only if the observer was seeing it and either the zone's own grid was indexed or the observer's entry is out of range of the place of the sweep, and the entity is seen afterwards if and only if neither holds |
| `Remnants.RunKeepsEntry` | internal/game/lifecycle.go:65-75 | Over every such run, whatever else happens in the zone, the grid keeps the entry of an id that is not live as it is, and its listings clean if they were |
| `Leftovers.SweptStaysInSight` | apps/game-server/main.go:142-150 | A run from the empty server: two avatars in the default zone, one observes, the other disconnects and is swept; the next observation publishes no Despawn, and the client goes on holding an entity that is not live |
| `Sessions.ObserversListedInEveryRun` | internal/game/lifecycle.go:71-74 | In every run that releases no zone with a stray observer, an id that is not live has an observer state only if some zone still lists it |
| `Sessions.ReleaseListedIff` | internal/game/simulation.go:175-201 | Releasing a zone keeps that invariant if and only if no observer that is not live is listed by that zone alone |
| `Leftovers.StrayObserverStays` | internal/game/simulation.go:175-201 | A run from the empty server (assign, add, disconnect, sweep, observe, release) that leaves the observer state of an id that is not live and that no zone lists |
| `Spaces.SpaceCarriedInEveryRun` | internal/game/simulation.go:234-250 | In every run each live entity of a zone with a Space carries that Space |
| `Spaces.ListedCarryInEveryRun` | internal/game/simulation.go:234-250 | With fresh objects the same holds for every entity a zone lists, live or left over |
| `Spaces.NearGridStaysInSpace` | internal/game/simulation.go:282-311 | In every run with fresh objects a grid query for a Space returns only entities of that Space |
| `Coordinates.NearZoneInCoordinates` | internal/game/simulation.go:282-311 | An entry is near if its zone has the Space and the grid coordinate and it stands, in X and Z, within the radius of the middle of the zone's square, whose side is the zone's size or 100 |
| `Coordinates.NearGridIgnoresHeight` | internal/game/simulation.go:282-311 | Changing heights changes no answer of the grid query |
| `Spaces.SpawnsStayInSpace` | internal/game/simulation.go:553-566 | A Spawn published for a zone with a Space names that Space and a subject that carries it |
| `Spaces.SpawnsJoinOneSpace` | internal/game/simulation.go:553-566 | In every run whose additions are welcome to their Space, every Spawn for a live observer joins an observer and a subject of one Space, in zones with and without a Space |
| `Spaces.SpawnJoinsIff` | internal/game/simulation.go:553-566 | A Spawn published for a zone with a Space joins two entities of one Space if and only if the observer carries the zone's Space |
| `Spaces.FaithfulInEveryRunIff` | internal/game/simulation.go:218-250 | Over every run: each live entity a zone with a Space lists carries that Space at every moment if and only if no addition is made while a zone of another Space still lists the id |
| `Spaces.IsolatedInEveryRunIff` | internal/game/simulation.go:218-250 | Over every run: any live observer and any live entity it can meet in a zone share a Space at every moment if and only if every addition is welcome, a test on the state before the addition |
| `Spaces.MixedZoneLeaks` | internal/game/simulation.go:530-566 | Where isolation fails it leaks: if a live observer and a live entity of a zone differ in Space and have not seen each other, moving the one to the other publishes a Spawn across Spaces |
| `Spaces.MixedZoneTold` | internal/game/simulation.go:530-566 | If they have seen each other, the client has been told of the entity of the other Space |
| `Spaces.NewcomerJoinsIff` | internal/game/simulation.go:234-250 | An entity added beside an observer is announced to it at once, and the two share a Space if and only if the Space the newcomer takes is the observer's |
| `Leaks.LeftoverLeaks` | internal/game/lifecycle.go:71-74 | A run from the empty server (assign two Spaces, add, disconnect, sweep, add the id in the other Space, add a neighbour) after which an observation publishes a Spawn across the two Spaces |
| `Leaks.SpacelessLeaks` | internal/game/simulation.go:234-250 | A run from the empty server (assign a zone without a Space, add two entities of different Spaces) after which an observation publishes a Spawn across the two Spaces |
| `Ghosts.GhostsStandInEveryRun` | internal/game/boundary.go:36-80 | In every run each mirrored ghost stands in its zone's indexed grid at the stored position |
| `History.MirrorIsLatestNews` | internal/game/boundary.go:122-171 | In every run the stored entry of a mirrored ghost is the latest news of it: announcements, updates of known ghosts and reports set position and origin and let it live 30 seconds longer; leaves, timeouts and new or released zones end it |
| `History.LocalGhostIsLatestCrossing` | internal/game/simulation.go:479-522 | In every run a local ghost is what the latest crossing into another cell left, at the place of the last observation and for five seconds, until its time is over or its zone is released |
| `History.LocalGhostsHaveZones` | internal/game/simulation.go:175-201 | In every run each local ghost belongs to a zone that still exists |
| `Passes.CrossingsLeaveGhosts` | internal/game/simulation.go:479-507 | Boundary detection of a zone leaves a ghost for exactly the entities that crossed into another cell since they were last observed |
| `Passes.GhostsSweptExactly` | internal/game/simulation.go:509-522 | The ghost sweep, in any map order, takes exactly the ghosts whose time is over |
| `Ghosts.ReconciledStore` | internal/game/boundary.go:36-80 | After a reconcile the store holds exactly the reported ghosts and the unreported ones not yet expired |
| `Ghosts.RepeatedReconcileAddsNothing` | internal/game/boundary.go:54-69 | Reconciling again with the same answer adds no listing of any id |
| `Ghosts.ExpiredGhostIsGone` | internal/game/boundary.go:70-78 | An unreported ghost has neither a store entry nor a grid position after the first reconcile past its expiry; whether queries still report it is settled by the next row |
| `Ghosts.ExpiredGhostHiddenIff` | internal/game/boundary.go:70-78 | No range query reports an unreported ghost after the reconcile past its expiry if and only if it was listed exactly once before |
| `Ghosts.ExpiredLocalGhostHiddenIff` | internal/game/simulation.go:509-522 | The same for a local ghost and its origin zone: hidden after expiry if and only if it was listed as often as it had a position |
| `Ghosts.ReenteredGhostStays` | internal/game/boundary.go:122-140 | A run from the empty server that enters a mirrored ghost twice and times it out: it is out of the store and still reported by a query around the zero vector |
| `Leftovers.ReenteredLocalGhostStays` | internal/game/simulation.go:497-506 | A run from the empty server in which an entity crosses into another cell, is observed and crosses back: past its expiry the local ghost is out of the ghosts, and some query still reports it |
| `Handover.HandoverMoves` | internal/game/boundary.go:185-229 | Assigning, loading the saved grid and the entities on the target and releasing on the source: every entity of the zone arrives with its type and position, names the zone and carries its Space if it has one, and is gone from the source |
| `Handover.HandoverLeavesOthers` | internal/game/boundary.go:185-229 | No other entity of either server is gained, lost or changed |
| `Handover.HandoverKeepsAnswers` | internal/game/boundary.go:215-229 | If the zone is settled on the source, the target answers every range query among real ids as the source did, whatever the other zones of both servers hold |
| `Handover.LoadArrives` | internal/game/boundary.go:215-229 | Loading adds exactly the snapshot's entities to the zone and its grid |
| `Handover.UnassignedLoadGoesStale` | internal/game/boundary.go:215-229 | The failing input: loaded without an assignment, the index keeps answering with the snapshot's positions while the zone's grid follows the entity |
| `Handover.IndexFollowsIff` | internal/game/simulation.go:584-612 | From any state in order, a move to a position the index does not hold yet reaches the index if and only if the index entry is the zone's own grid |
| `Handover.OwnIndexIffAssigned` | internal/game/simulation.go:152-167 | Over every run the index entry of a zone is the zone's own grid if and only if the zone was assigned when the server had no such zone and was not released since |
| `Lookups.AnswersAgree` | apps/room-service/main.go:70-96 | For any number of calls interleaved statement by statement, with the row present and no step that takes the zone from its owner, all successful answers name one server, and it is the stored owner from the first answer on |
| `Lookups.InsertPrepares` | internal/storage/room/zone_repo.go:18-26 | Ensuring a row gives the zone what the agreement theorem asks: a row, unowned if there was none, and no other row changes |
| `Lookups.RunAgrees` | internal/storage/room/zone_repo.go:28-45 | What every call knows about the row stays true of it over every undisturbed run, and an owner once stored stays |
| `Lookups.ExplainIsSoundIff` | internal/storage/room/zone_repo.go:34-44 | The claim's follow-up read answers truly if and only if the row is neither NULL nor empty by then |
| `Lookups.AnswersAreTrueIff` | apps/room-service/main.go:70-96 | Over every run, releases, deletions and failing statements included, every answer names the stored owner when it is given if and only if every answering step finds its guard: the row is again what the call read, the claim's follow-up read finds a name, a failing one would have answered |
| `Lookups.GuardedAnswersAgreeIff` | apps/room-service/main.go:70-96 | In a guarded run all answers for a zone name one server if and only if one server is the stored owner at every step that answers for the zone |
| `Lookups.AnswerIsTrueIff` | apps/room-service/main.go:70-96 | The same for one answering step from any state |
| `Lookups.StaleReadIff` | apps/room-service/main.go:70-82 | Whatever other calls and writers do between reading the owner and reading its server, the answer is true if and only if the row is again what was read |
| `Lookups.StaleReadSplitsAnswers` | apps/room-service/main.go:70-82 | A run with a release and a second lookup between those two reads, after which two calls are answered with different servers |
| `Lookups.ReferencedInEveryRun` | internal/storage/migrations/001_initial.up.sql:21-30 | Over every run each owner in the zones table is a row of the servers table |
| `Lookups.ReadOwnerIsAnswered` | apps/room-service/main.go:70-82 | With the tables referenced, an owner that was read and is still stored is answered: the server row cannot be missing |
| `Lookups.ReleaseSplitsAnswers` | internal/storage/room/zone_repo.go:34-44 | With a release between the two statements of a claim two calls are answered with different servers and the zone belongs to neither |
| `Lookups.FailedSelectSplitsAnswers` | internal/storage/room/zone_repo.go:36-44 | A follow-up read that fails is taken for success, so two calls are answered with different servers |
| `Room.RoomServer.LookupZone` | apps/room-service/main.go:70-96 | A lone call is a run of the protocol; the node answered carries the host, port and limit of its row; a zone with a known, named owner is answered with it and nothing changes; an unowned zone is given to an active server if and only if there is one; tables that are referenced stay so, and then every named owner is known |
| `Repos.ZoneRepository.Claim` | internal/storage/room/zone_repo.go:28-45 | Success exactly for an unowned row and a known server, the server's own row or an empty owner; only an unowned row changes |
| `Repos.ZoneRepository.Release` | internal/storage/room/zone_repo.go:47-62 | Only the owner's own row is freed, and the error tells a missing row from another owner's |
| `Repos.ZoneRepository.ListByServer` | internal/storage/room/zone_repo.go:64-79 | Lists the zones the server owns, each once |
| `Repos.ZoneRepository.Lookup` | internal/storage/room/zone_repo.go:81-94 | The stored owner, or not found for a missing row, NULL or the empty name |
| `Repos.ServerRepository.Register` | internal/storage/room/server_repo.go:20-30 | A new server gets a row; a known one keeps its status and last heartbeat |
| `Repos.ServerRepository.Heartbeat` | internal/storage/room/server_repo.go:32-42 | A known server becomes active with the new time; an unknown one is an error |
| `Repos.ServerRepository.Get` | internal/storage/room/server_repo.go:44-47 | The node of the row, column by column: id, host, port and limit, reported active and without load; or not found |
| `Repos.ServerRepository.List` | internal/storage/room/server_repo.go:49-67 | One node per active row, with the row's host, port and limit, and no other |
| `Repos.ServerRepository.ListDead` | internal/storage/room/server_repo.go:69-86 | Exactly the active servers whose heartbeat is older than the threshold, each once |
| `Repos.ServerRepository.MarkShutdown` | internal/storage/room/server_repo.go:88-94 | Only that server's status changes |
| `Repos.RegisteredIsReadBack` | internal/storage/room/server_repo.go:20-47 | After a registration and any heartbeats, shutdown marks, removals and registrations of others, a node read back under that id carries the registered host, port and limit, and it can be read back unless it was removed |
| `Repos.ListedNodesAlwaysAccept` | internal/storage/room/server_repo.go:49-67 | Load is not read back, so every listed node accepts and the allocator takes the first one, however many zones it owns |
| `Capacity.PlacementOverloadsIff` | internal/room/allocator.go:26-40 | Giving an unowned zone to the chosen server exceeds that server's declared limit if and only if the first listed server is already full |
| `Capacity.TrueLoadNeverOverloads` | internal/room/node.go:67-76 | Had the listed nodes carried the number of zones they own, no placement would exceed a limit |
| `Capacity.FullServerGetsAnother` | apps/room-service/main.go:70-96 | A run of the lookup protocol that gives a second zone to a server that allows one and owns one |
| `Nodes.Select` | internal/room/allocator.go:26-40 | The first of the least loaded nodes among those that are active and below their limit, by 100000 * zones + entities, and none only if no node is active and below its limit |
| `Nodes.ChoiceUnique` | internal/room/allocator.go:26-44 | The list determines the choice |
| `Nodes.ScoreFollowsOrderIff` | internal/room/allocator.go:17-44 | The score follows the documented order, zones first and entities second, if and only if a difference of entities does not outweigh the difference of zones at 100000 per zone |
| `Nodes.CrowdedNodeLoses` | internal/room/allocator.go:17-44 | A node with one zone and 100001 entities loses to one with two zones and none |
| `Sweepers.ProductionSweeper.Sweep` | internal/room/sweeper_production.go:54-79 | Exactly the active servers without a recent heartbeat are shut down and no other column changes; each of their zones ends with an active server outside the dead list, and the last broadcast about it carries that zone, server, host and port, or it is unowned exactly if there is no such server; every other zone keeps its owner and is not mentioned |
| `Sweepers.ProductionSweeper.ReassignZonesFor` | internal/room/sweeper_production.go:81-122 | Every zone of the given server is given to an active server, and the last broadcast about it carries that zone, server, host and port, or it is left unowned if none is active; other zones are untouched |
| `Sweepers.MidwayOn` | internal/room/sweeper_production.go:66-78 | Dealing with one more dead server keeps the sweep's invariant, also for zones it was handed earlier in the same sweep |
| `SendQueues.EveryPushIsAccountedFor` | apps/game-server/main.go:46-61 | Over every interleaving of producers and consumer, completed pushes are delivered plus queued plus drops |
| `SendQueues.RunConserves` | apps/game-server/main.go:46-61 | Over every interleaving the channel is first in, first out within its capacity, and the delivered packets are exactly the received part of what left it |
| `SendQueues.NewestIsNeverLost` | apps/game-server/main.go:46-61 | With one producer what is delivered is an in-order subsequence of what was pushed, the queue holds the latest pushes, and the newest packet is never the one lost |
| `SendQueues.NewestIsKeptIff` | apps/game-server/main.go:46-61 | Over every interleaving, for any capacity and number of producers, whenever no push is under way: the packet of the push that completed last is last in the queue or last delivered if that push did not find the channel full on its second send, and, for packets that can be told apart, only if |
| `SendQueues.TwoProducersLoseTheNewest` | apps/game-server/main.go:46-61 | For every capacity of at least one: a run from the empty queue that fills it and then interleaves two pushes, after which the packet of the push that completed last is the one lost |
| `SendQueues.PushAlone` | apps/game-server/main.go:46-61 | Undisturbed, the separate channel steps do what one push does |
| `SendQueues.BoundedSendQueue.Push` | apps/game-server/main.go:46-61 | A full queue gives up its oldest packet, counted as a drop; the new packet is last |
| `RateLimits.WindowBound` | internal/gateway/ratelimit.go:22-37 | In any stretch of calls of any run of a clock that does not go back, at most burst + rate * T are allowed |
| `RateLimits.TokensStayInRange` | internal/gateway/ratelimit.go:22-37 | Tokens stay within [0, burst] over every such run |
| `RateLimits.SpacedCallsPass` | internal/gateway/ratelimit.go:22-37 | A caller whose calls are spaced so that each gap earns a token is never refused |
| `RateLimits.PassAtOnce` | internal/gateway/ratelimit.go:22-37 | Of n calls at one moment exactly min(n, floor(held)) pass, where held is what was left plus rate times the time since, capped at the burst |
| `RateLimits.NewBucketPassesItsBurst` | internal/gateway/ratelimit.go:22-37 | A new bucket passes its whole burst at once and not one call more |
| `RateLimits.AddressesDoNotInterfere` | internal/gateway/ratelimit.go:72-80 | An address is answered exactly as if it were the only caller |
| `RateLimits.AddressWindowBound` | internal/gateway/ratelimit.go:72-80 | The window bound holds for each address, whatever the others do |
| `RateLimits.CallsAreAllowedOrDropped` | internal/gateway/ratelimit.go:72-80 | Calls are allowed plus dropped over every run |
| `RateLimits.TokenBucket.Allow` | internal/gateway/ratelimit.go:22-37 | Refill capped at the burst, then one token taken if there is one |
| `RateLimits.ConnectionLimiter.Allow` | internal/gateway/ratelimit.go:48-54 | Over the object's whole life calls are allowed plus dropped and the answers are the bucket's |
| `RateLimits.IpLimiter.Allow` | internal/gateway/ratelimit.go:72-80 | The address's own bucket answers, made full on the first call; no other bucket changes |
| `Npcs.WalkLeaves` | internal/game/npc.go:80-94 | After k moves on an axis max(0, d - k * delta) is left |
| `Npcs.LegWalks` | internal/game/npc.go:23-35 | On the way to a waypoint that holds for both axes and the target stays |
| `Npcs.LegArrives` | internal/game/npc.go:23-35 | A waypoint is reached after exactly max(1, ceil(d / delta)) steps and not earlier, and then the next in the cycle is the target |
| `Npcs.VisitsInCyclicOrder` | internal/game/npc.go:23-35 | For every m the m-th next waypoint is reached, in cyclic order |
| `Npcs.PatrolBehavior.Step` | internal/game/npc.go:23-35 | One step moves both axes and advances the target on arrival; without waypoints nothing happens |
| `Npcs.WandererStaysHome` | internal/game/npc.go:55-94 | A wanderer that starts inside the square Origin plus or minus Radius never leaves it, for every draw, every time step and every pattern of pauses |
| `Npcs.WandererArrives` | internal/game/npc.go:71-94 | At a steady pace a wanderer stands on its target after ceil(dx / delta) + ceil(dz / delta) steps, X before Z, and the next step starts the 500 ms pause and clears the target |
| `Npcs.RestLasts` | internal/game/npc.go:55-62 | With steady time steps a wanderer rests, where it stands, for exactly ceil(pause / dt) of them |
| `Npcs.WandererSetsOut` | internal/game/npc.go:62-78 | Rested and without a target, it sets out for the drawn point around its home, on X first |
| `Npcs.WanderBehavior.Step` | internal/game/npc.go:55-78 | One step: pause, draw a target if there is none, move on X or else on Z, and pause on arrival |
| `Codec.EncodeThenDecode` | pkg/protocol/protocol.go:37-96 | Every packet decodes to version 1 and the id, payload and sequence number it was encoded with, and a frame is at most 8 bytes longer than its payload |
| `Codec.DecodeThenEncodeIff` | pkg/protocol/protocol.go:67-96 | A frame that decodes uncompressed re-encodes to itself if and only if its flags byte is zero |
| `Codec.CompressedIff` | pkg/protocol/protocol.go:37-65 | A frame carries the compressed payload, and says so, if and only if that was asked for, the payload is longer than 128 bytes and compressing makes it shorter |
| `Codec.DecodesByBytes` | pkg/protocol/protocol.go:67-96 | When each decoding error is given, and what a good frame says, byte by byte |
| `Codec.WireLayout` | pkg/protocol/protocol.go:58-64 | Byte by byte: version 1, the id and the sequence number big-endian, a flags byte of 0 or 1 |
| `Codec.Encode` | pkg/protocol/protocol.go:37-65 | The filled buffer is the frame |

## Left out

- gRPC and WebSocket relays, main functions, configuration, logging, metrics and tracing: input and output only.
- The EntityAction and EntityState branches of `dispatch`, entity attributes and lifecycle callbacks other than a wanted position.
- Periodic snapshots to storage inside `tick`: they read the state and write it elsewhere.
- EnsureRow, ServerRepository.Remove and AOI.Serialize as methods: one statement each; the first two are the steps `Insert` and `Delete` of the lookup protocol, the third is the record `Save` that snapshots and `RestoredGridIsExact` use.
- gzip, gob, protobuf and JSON: the codec takes any compressor with an inverse, and a saved grid is its record of positions.
- Floating-point rounding, overflow of counters and of the 32-bit port in a broadcast: numbers are mathematical.
- sin and cos in a wander target: the model only uses that the draw is within the radius on each axis.
- An unbuffered send queue with a waiting receiver: capacity zero is modelled as a queue that never has room.
- The in-memory sweeper, registry and ownership maps, the migration coordinator, the zone state machine, JWT validation and the session store: small state machines or thin wrappers that would only add easy members.
- Failing statements and other writers during a production sweep: its loops are proved as one sequential run.
- The time step given to lifecycles in `simulate`: the position each one ends at is a parameter.
