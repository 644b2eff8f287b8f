/** `DungeonGenerator`: grows a dungeon from a start room by alternating
    hallways and rooms, rejecting modules that overlap earlier ones, closes
    loops between near connection points, caps what stays open, and retries
    whole layouts until enough modules were placed.

    Placed modules live in an arena `modules`, indexed in the order they were
    accepted; `spawnedRooms` and `spawnedHallways` hold arena indices, as the
    source's lists hold `Room` references. `ClearDungeon` empties the arena
    with the lists. Every `Random.Range` call reads the supplied stream `rand`
    at the next draw number. */
module DungeonGeneration {
  import opened Common
  import opened Rooms
  import opened DungeonLayout

  /** A boss room prefab, which may lack a `Room` component. */
  datatype Prefab = Prefab(room: Option<Module>)

  /** How `TryGenerateDungeon` ended: the boss layout was built, attempt
      `attempt` (counting from 0) was kept, or every attempt fell short. */
  datatype Outcome = BossLayout | Success(attempt: nat) | Failed

  /** The share of `roomCount` a layout must reach to be kept. */
  const KeepRatio: real := 0.7

  /** `TryGenerateDungeon`'s default number of attempts. */
  const DefaultAttempts: nat := 10

  /** The room count `Start` uses when no dungeon data was loaded. */
  const FallbackRoomCount: int := 20

  /** Modules are attached as a tree rooted at the start module: every later
      module hangs off an earlier one through a pair of coinciding connected
      connectors, and rooms and hallways alternate along every link. */
  predicate TreeShaped(ms: seq<Module>, parents: seq<Link>) {
    && |parents| == |ms|
    && forall j :: 1 <= j < |ms| ==>
         LinkHolds(ms, j, parents[j])
         && (ms[j].roleTag == Hallway <==> ms[parents[j].parent].roleTag != Hallway)
  }

  lemma TreeStable(a: seq<Module>, b: seq<Module>, parents: seq<Link>)
    requires TreeShaped(a, parents) && FlagsOnlyRise(a, b)
    ensures TreeShaped(b, parents)
  {
    forall j | 1 <= j < |b|
      ensures LinkHolds(b, j, parents[j])
    {
      assert LinkHolds(a, j, parents[j]);
    }
  }

  /** Attaching module `m` by its connector `entry` at a free-or-not
      connector `src` of an earlier module keeps the tree shape. */
  lemma AttachKeepsTree(ms: seq<Module>, parents: seq<Link>, src: ConnRef, m: Module, entry: nat)
    requires TreeShaped(ms, parents) && |ms| > 0
    requires ValidRef(ms, src) && entry < |m.connectors|
    requires m.connectors[entry].position == PosOf(ms, src)
    requires m.roleTag == Hallway <==> ms[src.id].roleTag != Hallway
    ensures TreeShaped(SetConnectedAt(ms, src) + [MarkConnected(m, entry)], parents + [Link(src.id, src.c, entry)])
  {
    var raised := SetConnectedAt(ms, src);
    SetConnectedRaises(ms, src);
    TreeStable(ms, raised, parents);
    var ms' := raised + [MarkConnected(m, entry)];
    var parents' := parents + [Link(src.id, src.c, entry)];
    forall j | 1 <= j < |ms'|
      ensures LinkHolds(ms', j, parents'[j])
    {
      if j < |ms| {
        assert LinkHolds(raised, j, parents[j]);
      }
    }
  }

  /** `b` keeps every module of `a` with its role tag and its number of
      connectors, and may add more. */
  ghost predicate Extends(a: seq<Module>, b: seq<Module>) {
    |a| <= |b| && forall i :: 0 <= i < |a| ==>
      b[i].roleTag == a[i].roleTag && |b[i].connectors| == |a[i].connectors|
  }

  /** Every module's bounds miss the expanded bounds of every earlier module. */
  predicate Separated(ms: seq<Module>) {
    forall i, j :: 0 <= i < j < |ms| ==> !Intersects(ms[j].bounds, Expand(ms[i].bounds, OverlapMargin))
  }

  lemma SeparatedSameBounds(a: seq<Module>, b: seq<Module>)
    requires Separated(a) && |a| == |b|
    requires forall i :: 0 <= i < |a| ==> b[i].bounds == a[i].bounds
    ensures Separated(b)
  {
  }

  /** Room 0 is the start room, tagged Normal; among later rooms exactly the
      one at position `roomCount - 1` of the room list is the Boss room. */
  predicate TaggedRooms(ms: seq<Module>, rooms: seq<nat>, start: Option<nat>, roomCount: int) {
    && |rooms| >= 1 && rooms[0] == 0 && |ms| > 0
    && ms[0].roleTag == Normal && start == Some(0)
    && forall k :: 1 <= k < |rooms| && rooms[k] < |ms| ==>
         ms[rooms[k]].roleTag == if k == roomCount - 1 then Boss else Normal
  }

  class DungeonGenerator {
    const roomPrefabs: seq<Module>
    const hallwayPrefabs: seq<Module>
    const bossRoomPrefab: Option<Prefab>
    var roomCount: int

    var modules: seq<Module>
    ghost var parents: seq<Link>
    var spawnedRooms: seq<nat>
    var spawnedHallways: seq<nat>
    var allSpawnedObjects: seq<SpawnedObject>
    var startRoom: Option<nat>

    /** The lists refer into the arena, rooms and hallways keep their role
        tags, each list is in placement order and every module is listed. */
    ghost predicate ListsValid()
      reads this`modules, this`spawnedRooms, this`spawnedHallways
    {
      && (forall k :: 0 <= k < |spawnedRooms| ==>
            spawnedRooms[k] < |modules| && modules[spawnedRooms[k]].roleTag != Hallway)
      && (forall k :: 0 <= k < |spawnedHallways| ==>
            spawnedHallways[k] < |modules| && modules[spawnedHallways[k]].roleTag == Hallway)
      && Increasing(spawnedRooms) && Increasing(spawnedHallways)
      && (forall id :: 0 <= id < |modules| ==> id in spawnedRooms || id in spawnedHallways)
    }

    /** Every recorded object refers to a placed module or connector. */
    ghost predicate ObjectsValid()
      reads this`modules, this`allSpawnedObjects
    {
      forall o :: o in allSpawnedObjects ==>
        match o
        case ModuleObject(id) => id < |modules|
        case WallCap(owner, c) => owner < |modules| && c < |modules[owner].connectors|
    }

    ghost predicate Valid()
      reads this
    {
      ListsValid() && ObjectsValid()
    }

    ghost predicate Empty()
      reads this
    {
      modules == [] && parents == [] && spawnedRooms == [] && spawnedHallways == [] && allSpawnedObjects == []
    }

    /** The configuration `GenerateDungeon` indexes into is non-empty. */
    predicate Configured()
      reads this
    {
      |roomPrefabs| > 0 && |hallwayPrefabs| > 0
    }

    ghost predicate NoCaps()
      reads this`allSpawnedObjects
    {
      forall o :: o in allSpawnedObjects ==> o.ModuleObject?
    }

    /** Every connector that is not connected carries exactly one wall cap,
        and a connected one none. */
    ghost predicate Reconciled()
      reads this`modules, this`allSpawnedObjects
    {
      forall id, c :: 0 <= id < |modules| && 0 <= c < |modules[id].connectors| ==>
        multiset(allSpawnedObjects)[WallCap(id, c)] == if modules[id].connectors[c].isConnected then 0 else 1
    }

    ghost predicate Tagged()
      reads this`modules, this`spawnedRooms, this`startRoom, this`roomCount
    {
      TaggedRooms(modules, spawnedRooms, startRoom, roomCount)
    }

    /** What a finished `GenerateDungeon` leaves behind. */
    ghost predicate Layout()
      reads this
    {
      && Valid() && TreeShaped(modules, parents) && Separated(modules) && Reconciled() && Tagged()
      && |spawnedRooms| <= Max(1, roomCount)
    }

    /** The growth loop's invariant, with `n` rooms placed. */
    ghost predicate Growing(n: int)
      reads this
    {
      && Valid() && TreeShaped(modules, parents) && Separated(modules) && NoCaps() && Tagged()
      && |spawnedRooms| == n && n <= Max(1, roomCount)
    }

    /** The field initialisers: ten rooms by default, nothing placed. */
    constructor (roomPrefabs: seq<Module>, hallwayPrefabs: seq<Module>, bossRoomPrefab: Option<Prefab>)
      ensures this.roomPrefabs == roomPrefabs && this.hallwayPrefabs == hallwayPrefabs
      ensures this.bossRoomPrefab == bossRoomPrefab
      ensures roomCount == 10 && startRoom == None
      ensures Valid() && Empty()
    {
      this.roomPrefabs := roomPrefabs;
      this.hallwayPrefabs := hallwayPrefabs;
      this.bossRoomPrefab := bossRoomPrefab;
      roomCount := 10;
      modules := [];
      parents := [];
      spawnedRooms := [];
      spawnedHallways := [];
      allSpawnedObjects := [];
      startRoom := None;
    }

    /** `Start`: the room count comes from the loaded dungeon data, or 20
        without it; then up to ten layouts are tried. `bossAvailable` is the
        progress manager's answer (false when there is none). */
    method Start(loadedRoomCount: Option<int>, bossAvailable: bool, rand: nat -> nat)
      returns (outcome: Outcome, ghost sizes: seq<int>)
      requires (bossAvailable || Configured()) && Valid() && Empty()
      modifies this`roomCount, this`modules, this`parents, this`spawnedRooms, this`spawnedHallways,
               this`allSpawnedObjects, this`startRoom
      ensures roomCount == if loadedRoomCount.Some? then loadedRoomCount.value else FallbackRoomCount
      ensures outcome.BossLayout? <==> bossAvailable
      ensures outcome.BossLayout? ==> BossLayoutBuilt()
      ensures outcome.Success? ==> outcome.attempt < DefaultAttempts && Layout() && Kept()
      ensures outcome.Failed? ==> Empty()
      ensures AttemptsRecorded(sizes, outcome, DefaultAttempts)
      ensures outcome.Success? ==> sizes[outcome.attempt] == |spawnedRooms| + |spawnedHallways|
    {
      if loadedRoomCount.Some? {
        roomCount := loadedRoomCount.value;
      } else {
        roomCount := FallbackRoomCount;
      }
      outcome, sizes := TryGenerateDungeon(bossAvailable, DefaultAttempts, rand);
    }

    /** The 70% threshold on rooms and hallways together. */
    predicate Kept()
      reads this
    {
      Reaches(|spawnedRooms| + |spawnedHallways|)
    }

    /** A layout of `size` rooms and hallways reaches the 70% threshold. */
    predicate Reaches(size: int)
      reads this`roomCount
    {
      size as real >= roomCount as real * KeepRatio
    }

    /** `sizes[i]` is the number of rooms and hallways the `i`-th attempt
        produced: the kept layout is the first to reach the threshold, and a
        failure means every one of the `maxAttempts` attempts fell short. */
    ghost predicate AttemptsRecorded(sizes: seq<int>, outcome: Outcome, maxAttempts: nat)
      reads this`roomCount
    {
      match outcome
      case BossLayout => sizes == []
      case Success(a) =>
        |sizes| == a + 1 && Reaches(sizes[a]) && forall i :: 0 <= i < a ==> !Reaches(sizes[i])
      case Failed =>
        |sizes| == maxAttempts && forall i :: 0 <= i < |sizes| ==> !Reaches(sizes[i])
    }

    /** `TryGenerateDungeon`: the boss layout when the boss dungeon is
        available; otherwise layouts are generated until one reaches 70% of
        `roomCount`, each rejected one being cleared. */
    method TryGenerateDungeon(bossAvailable: bool, maxAttempts: nat, rand: nat -> nat)
      returns (outcome: Outcome, ghost sizes: seq<int>)
      requires (bossAvailable || Configured()) && Valid() && Empty()
      modifies this`modules, this`parents, this`spawnedRooms, this`spawnedHallways,
               this`allSpawnedObjects, this`startRoom
      ensures outcome.BossLayout? <==> bossAvailable
      ensures outcome.BossLayout? ==> BossLayoutBuilt()
      ensures outcome.Success? ==> outcome.attempt < maxAttempts && Layout() && Kept()
      ensures outcome.Failed? ==> Empty()
      ensures AttemptsRecorded(sizes, outcome, maxAttempts)
      ensures outcome.Success? ==> sizes[outcome.attempt] == |spawnedRooms| + |spawnedHallways|
      ensures !bossAvailable && maxAttempts > 0 && roomCount as real * KeepRatio <= 1.0 ==> outcome == Success(0)
    {
      sizes := [];
      if bossAvailable {
        GenerateBossDungeon();
        return BossLayout, sizes;
      }
      var attempt := 0;
      var draws: nat := 0;
      while attempt < maxAttempts
        invariant Valid() && Empty()
        invariant attempt <= maxAttempts
        invariant |sizes| == attempt && forall i :: 0 <= i < attempt ==> !Reaches(sizes[i])
        invariant roomCount as real * KeepRatio <= 1.0 ==> attempt == 0
      {
        ghost var passes;
        draws, passes := GenerateDungeon(rand, draws);
        sizes := sizes + [|spawnedRooms| + |spawnedHallways|];
        if Reaches(|spawnedRooms| + |spawnedHallways|) {
          return Success(attempt), sizes;
        }
        ClearDungeon();
        attempt := attempt + 1;
      }
      return Failed, sizes;
    }

    /** `ClearDungeon`: every placed object is released and the lists emptied
        (`startRoom` keeps its stale value). */
    method ClearDungeon()
      modifies this`modules, this`parents, this`spawnedRooms, this`spawnedHallways, this`allSpawnedObjects
      ensures Valid() && Empty()
    {
      modules := [];
      parents := [];
      spawnedRooms := [];
      spawnedHallways := [];
      allSpawnedObjects := [];
    }

    /** The boss layout: the single boss room when the prefab and its `Room`
        component exist, an empty dungeon otherwise. */
    ghost predicate BossLayoutBuilt()
      reads this
    {
      && Valid() && TreeShaped(modules, parents) && Separated(modules) && NoCaps()
      && if bossRoomPrefab.Some? && bossRoomPrefab.value.room.Some? then
           && modules == [bossRoomPrefab.value.room.value.(roleTag := Boss)]
           && spawnedRooms == [0] && spawnedHallways == [] && allSpawnedObjects == [ModuleObject(0)]
           && startRoom == Some(0)
         else
           Empty()
    }

    /** `GenerateBossDungeon`: clear, then place only the boss room, at the origin. */
    method GenerateBossDungeon()
      modifies this`modules, this`parents, this`spawnedRooms, this`spawnedHallways,
               this`allSpawnedObjects, this`startRoom
      ensures BossLayoutBuilt()
      ensures !(bossRoomPrefab.Some? && bossRoomPrefab.value.room.Some?) ==> startRoom == old(startRoom)
    {
      ClearDungeon();
      if bossRoomPrefab.None? {
        return;
      }
      if bossRoomPrefab.value.room.None? {
        return;
      }
      var bossRoom := bossRoomPrefab.value.room.value.(roleTag := Boss);
      modules := [bossRoom];
      parents := [Link(0, 0, 0)];
      spawnedRooms := [0];
      allSpawnedObjects := [ModuleObject(0)];
      startRoom := Some(0);
    }

    /** The overlap test: the candidate's bounds meet the bounds, expanded
        by `OverlapMargin`, of some placed room or hallway. */
    ghost predicate OverlapsPlaced(b: Box)
      reads this
    {
      || (exists k :: 0 <= k < |spawnedRooms| && spawnedRooms[k] < |modules|
            && Intersects(b, Expand(modules[spawnedRooms[k]].bounds, OverlapMargin)))
      || (exists k :: 0 <= k < |spawnedHallways| && spawnedHallways[k] < |modules|
            && Intersects(b, Expand(modules[spawnedHallways[k]].bounds, OverlapMargin)))
    }

    /** `IsObjectOverlapping`: rooms are scanned, then hallways, stopping at
        the first hit. A candidate that overlaps nothing placed keeps the
        layout separated once added. */
    method IsObjectOverlapping(candidate: Module) returns (r: bool)
      requires Valid()
      ensures r == OverlapsPlaced(candidate.bounds)
      ensures !r ==> Separated(modules) ==> Separated(modules + [candidate])
    {
      var newBounds := candidate.bounds;
      var i := 0;
      while i < |spawnedRooms|
        invariant 0 <= i <= |spawnedRooms|
        invariant forall k :: 0 <= k < i ==>
          !Intersects(newBounds, Expand(modules[spawnedRooms[k]].bounds, OverlapMargin))
      {
        var existingBounds := Expand(modules[spawnedRooms[i]].bounds, OverlapMargin);
        if Intersects(newBounds, existingBounds) {
          return true;
        }
        i := i + 1;
      }
      i := 0;
      while i < |spawnedHallways|
        invariant 0 <= i <= |spawnedHallways|
        invariant forall k :: 0 <= k < i ==>
          !Intersects(newBounds, Expand(modules[spawnedHallways[k]].bounds, OverlapMargin))
      {
        var hallwayBounds := Expand(modules[spawnedHallways[i]].bounds, OverlapMargin);
        if Intersects(newBounds, hallwayBounds) {
          return true;
        }
        i := i + 1;
      }
      r := false;
      if Separated(modules) {
        SeparatedAfterAdding(candidate);
      }
    }

    /** A module overlapping nothing placed keeps the layout separated. */
    lemma SeparatedAfterAdding(m: Module)
      requires Valid() && Separated(modules) && !OverlapsPlaced(m.bounds)
      ensures Separated(modules + [m])
    {
      forall j | 0 <= j < |modules|
        ensures !Intersects(m.bounds, Expand(modules[j].bounds, OverlapMargin))
      {
        if j in spawnedRooms {
          var k :| 0 <= k < |spawnedRooms| && spawnedRooms[k] == j;
        } else {
          var k :| 0 <= k < |spawnedHallways| && spawnedHallways[k] == j;
        }
      }
    }

    /** Accepting a placed module: the connector it was aligned to and its
        own entry connector are marked connected, and it joins its list. */
    method Accept(src: ConnRef, m: Module, entry: nat, asRoom: bool)
      requires Valid() && TreeShaped(modules, parents) && Separated(modules) && NoCaps()
      requires ValidRef(modules, src) && entry < |m.connectors|
      requires m.connectors[entry].position == PosOf(modules, src)
      requires !OverlapsPlaced(m.bounds)
      requires asRoom <==> m.roleTag != Hallway
      requires m.roleTag == Hallway <==> modules[src.id].roleTag != Hallway
      modifies this`modules, this`parents, this`spawnedRooms, this`spawnedHallways, this`allSpawnedObjects
      ensures modules == SetConnectedAt(old(modules), src) + [MarkConnected(m, entry)]
      ensures parents == old(parents) + [Link(src.id, src.c, entry)]
      ensures asRoom ==> spawnedRooms == old(spawnedRooms) + [|old(modules)|] && spawnedHallways == old(spawnedHallways)
      ensures !asRoom ==> spawnedHallways == old(spawnedHallways) + [|old(modules)|] && spawnedRooms == old(spawnedRooms)
      ensures allSpawnedObjects == old(allSpawnedObjects) + [ModuleObject(|old(modules)|)]
      ensures Valid() && TreeShaped(modules, parents) && Separated(modules) && NoCaps()
      ensures Extends(old(modules), modules)
    {
      var before := modules;
      var id := |before|;
      SeparatedAfterAdding(m);
      AttachKeepsTree(before, parents, src, m, entry);
      modules := SetConnectedAt(before, src) + [MarkConnected(m, entry)];
      parents := parents + [Link(src.id, src.c, entry)];
      if asRoom {
        spawnedRooms := spawnedRooms + [id];
      } else {
        spawnedHallways := spawnedHallways + [id];
      }
      allSpawnedObjects := allSpawnedObjects + [ModuleObject(id)];
      SeparatedSameBounds(before + [m], modules);
    }

    /** A hallway at a free connector of a room, entered by its first free
        connector, kept when it overlaps nothing; its arena index when kept. */
    method AttachHallwayAt(src: ConnRef, hallway: Module, entry: nat) returns (hid: Option<nat>)
      requires Growing(|spawnedRooms|)
      requires ValidRef(modules, src) && modules[src.id].roleTag != Hallway
      requires hallway.roleTag == Hallway && entry < |hallway.connectors|
      modifies this`modules, this`parents, this`spawnedRooms, this`spawnedHallways, this`allSpawnedObjects
      ensures Growing(|spawnedRooms|) && spawnedRooms == old(spawnedRooms)
      ensures Extends(old(modules), modules)
      ensures hid.Some? ==>
        hid.value == |old(modules)| && hid.value < |modules| && modules[hid.value].roleTag == Hallway
        && |modules[hid.value].connectors| == |hallway.connectors|
        && spawnedHallways == old(spawnedHallways) + [hid.value]
      ensures hid.None? ==>
        modules == old(modules) && spawnedHallways == old(spawnedHallways)
        && allSpawnedObjects == old(allSpawnedObjects)
    {
      var placedHallway := Align(hallway, entry, PosOf(modules, src));
      var hallwayOverlaps := IsObjectOverlapping(placedHallway);
      if hallwayOverlaps {
        return None;
      }
      Accept(src, placedHallway, entry, false);
      hid := Some(|modules| - 1);
    }

    /** The walk over a kept hallway's remaining free connectors, one room
        attempt at each, stopping once `roomCount` rooms exist. */
    method PlaceRoomsAtExits(hid: nat, exits: seq<nat>, n0: int, rand: nat -> nat, d0: nat) returns (n: int, d: nat)
      requires Configured() && Growing(n0)
      requires hid < |modules| && modules[hid].roleTag == Hallway
      requires forall k :: 0 <= k < |exits| ==> exits[k] < |modules[hid].connectors|
      modifies this`modules, this`parents, this`spawnedRooms, this`spawnedHallways, this`allSpawnedObjects
      ensures Growing(n) && n >= n0 && d >= d0
      ensures Extends(old(modules), modules)
    {
      n, d := n0, d0;
      var k := 0;
      while k < |exits|
        invariant 0 <= k <= |exits|
        invariant Growing(n) && n >= n0 && d >= d0
        invariant Extends(old(modules), modules)
      {
        if n >= roomCount {
          break;
        }
        var placed;
        placed, d := AttachRoomAt(ConnRef(hid, exits[k]), n, rand, d);
        if placed {
          n := n + 1;
        }
        k := k + 1;
      }
    }

    /** One room at a hallway exit: a random room prefab, tagged Boss when it
        would become room `roomCount - 1` and Normal otherwise, entered by a
        random free connector and kept when it overlaps nothing. */
    method AttachRoomAt(exitRef: ConnRef, n: int, rand: nat -> nat, d0: nat) returns (placed: bool, d: nat)
      requires Configured() && Growing(n) && n < roomCount
      requires ValidRef(modules, exitRef) && modules[exitRef.id].roleTag == Hallway
      modifies this`modules, this`parents, this`spawnedRooms, this`spawnedHallways, this`allSpawnedObjects
      ensures Growing(if placed then n + 1 else n)
      ensures Extends(old(modules), modules)
      ensures d >= d0
      ensures placed ==> spawnedRooms == old(spawnedRooms) + [|old(modules)|] && spawnedHallways == old(spawnedHallways)
      ensures !placed ==>
        modules == old(modules) && spawnedRooms == old(spawnedRooms)
        && spawnedHallways == old(spawnedHallways) && allSpawnedObjects == old(allSpawnedObjects)
    {
      d := d0;
      var tag := if n == roomCount - 1 then Boss else Normal;
      var newRoom := roomPrefabs[Pick(rand, d, |roomPrefabs|)].(roleTag := tag);
      d := d + 1;
      var roomEntryPoint := GetAvailableConnection(newRoom.connectors, rand(d));
      if roomEntryPoint.None? {
        return false, d;
      }
      d := d + 1;
      var placedRoom := Align(newRoom, roomEntryPoint.value, PosOf(modules, exitRef));
      var roomOverlaps := IsObjectOverlapping(placedRoom);
      if roomOverlaps {
        return false, d;
      }
      Accept(exitRef, placedRoom, roomEntryPoint.value, true);
      placed := true;
    }

    /** `GenerateDungeon`: a start room at the origin, then up to
        `5 * roomCount` growth attempts, each picking a room with a free
        connector, attaching a hallway by its first free connector and one
        new room at each further free hallway connector until `roomCount`
        rooms exist; finally loops are closed and open connectors capped.
        Returns the next unused draw number and the number of growth passes
        made, which never exceeds `5 * roomCount`. */
    method GenerateDungeon(rand: nat -> nat, d0: nat) returns (d: nat, ghost passes: nat)
      requires Configured() && Valid() && Empty()
      modifies this`modules, this`parents, this`spawnedRooms, this`spawnedHallways,
               this`allSpawnedObjects, this`startRoom
      ensures d >= d0
      ensures Layout()
      ensures passes <= Max(0, roomCount * 5)
    {
      d := PlaceStartRoom(rand, d0);
      var currentRoomCount;
      currentRoomCount, d, passes := GrowRooms(rand, d);
      ghost var grown := modules;
      ghost var rooms, start := spawnedRooms, startRoom;
      assert TaggedRooms(grown, rooms, start, roomCount);
      CapUnusedConnections();
      CappedLayout(grown);
    }

    /** The growth loop of `GenerateDungeon`: growth passes from the start
        room until `roomCount` rooms exist, no room has a free connector
        left, or `5 * roomCount` passes have been made. */
    method GrowRooms(rand: nat -> nat, d0: nat) returns (n: int, d: nat, ghost passes: nat)
      requires Configured() && Growing(1)
      modifies this`modules, this`parents, this`spawnedRooms, this`spawnedHallways, this`allSpawnedObjects
      ensures Growing(n) && n >= 1 && d >= d0
      ensures passes <= Max(0, roomCount * 5)
    {
      n, d := 1, d0;
      var attempts := 0;
      var maxAttempts := roomCount * 5;
      while n < roomCount && attempts < maxAttempts
        invariant Growing(n) && n >= 1
        invariant d >= d0
        invariant attempts <= Max(0, maxAttempts)
        decreases maxAttempts - attempts
      {
        attempts := attempts + 1;
        var exhausted;
        n, d, exhausted := GrowthAttempt(n, rand, d);
        if exhausted {
          break;
        }
      }
      passes := attempts;
    }

    /** Capping raises flags only, so the grown layout's shape, separation
        and tags carry over to the finished one. */
    lemma CappedLayout(grown: seq<Module>)
      requires Valid() && Reconciled() && FlagsOnlyRise(grown, modules)
      requires TreeShaped(grown, parents) && Separated(grown) && TaggedRooms(grown, spawnedRooms, startRoom, roomCount)
      requires |spawnedRooms| <= Max(1, roomCount)
      ensures Layout()
    {
      TreeStable(grown, modules, parents);
      SeparatedSameBounds(grown, modules);
    }

    /** One pass of the growth loop: a random room with a free connector, a
        hallway at one of its free connectors, rooms at the hallway's other
        free connectors. `exhausted` when no room has a free connector left
        (the loop's `break`); every other failure ends the pass (`continue`). */
    method GrowthAttempt(n0: int, rand: nat -> nat, d0: nat) returns (n: int, d: nat, exhausted: bool)
      requires Configured() && Growing(n0)
      modifies this`modules, this`parents, this`spawnedRooms, this`spawnedHallways, this`allSpawnedObjects
      ensures Growing(n) && n >= n0 && d >= d0
      ensures exhausted <==> WithFreeConnectors(old(modules), old(spawnedRooms)) == []
      ensures exhausted ==>
        n == n0 && d == d0 && modules == old(modules) && spawnedRooms == old(spawnedRooms)
        && spawnedHallways == old(spawnedHallways)
      /** A hallway prefab without a free connector is destroyed: nothing is
          placed or connected, and three draws are spent. */
      ensures !exhausted && AvailableConnections(hallwayPrefabs[Pick(rand, d0 + 2, |hallwayPrefabs|)].connectors) == [] ==>
        n == n0 && d == d0 + 3 && modules == old(modules) && parents == old(parents)
        && spawnedRooms == old(spawnedRooms) && spawnedHallways == old(spawnedHallways)
        && allSpawnedObjects == old(allSpawnedObjects)
    {
      n, d, exhausted := n0, d0, false;
      var roomsWithConnections := WithFreeConnectors(modules, spawnedRooms);
      if |roomsWithConnections| == 0 {
        return n, d, true;
      }
      var existingRoom := roomsWithConnections[Pick(rand, d, |roomsWithConnections|)];
      d := d + 1;
      var fromPoint := GetAvailableConnection(modules[existingRoom].connectors, rand(d));
      if fromPoint.None? {
        // The room was picked for having a free connector.
        CountPositiveIffFree(modules[existingRoom].connectors);
        assert false;
        return;
      }
      d := d + 1;
      var hallway := hallwayPrefabs[Pick(rand, d, |hallwayPrefabs|)].(roleTag := Hallway);
      d := d + 1;
      var hallwayPoints := AvailableConnections(hallway.connectors);
      if |hallwayPoints| == 0 {
        return;
      }
      var hallwayId := AttachHallwayAt(ConnRef(existingRoom, fromPoint.value), hallway, hallwayPoints[0]);
      if hallwayId.None? {
        return;
      }
      n, d := PlaceRoomsAtExits(hallwayId.value, hallwayPoints[1..], n, rand, d);
    }

    /** The start room: a random room prefab at the origin, tagged Normal. */
    method PlaceStartRoom(rand: nat -> nat, d0: nat) returns (d: nat)
      requires Configured() && Valid() && Empty()
      modifies this`modules, this`parents, this`spawnedRooms, this`allSpawnedObjects, this`startRoom
      ensures Growing(1) && d == d0 + 1
      ensures modules == [roomPrefabs[Pick(rand, d0, |roomPrefabs|)].(roleTag := Normal)]
    {
      var startRoomModule := roomPrefabs[Pick(rand, d0, |roomPrefabs|)].(roleTag := Normal);
      d := d0 + 1;
      modules := [startRoomModule];
      parents := [Link(0, 0, 0)];
      spawnedRooms := [0];
      allSpawnedObjects := [ModuleObject(0)];
      startRoom := Some(0);
    }

    /** The rooms and hallways listed one after the other are distinct. */
    lemma ListedOnce()
      requires Valid()
      ensures Distinct(spawnedRooms + spawnedHallways)
    {
      var ids := spawnedRooms + spawnedHallways;
      forall i, j | 0 <= i < j < |ids|
        ensures ids[i] != ids[j]
      {
        if j < |spawnedRooms| {
        } else if i >= |spawnedRooms| {
          assert ids[i] == spawnedHallways[i - |spawnedRooms|];
          assert ids[j] == spawnedHallways[j - |spawnedRooms|];
        } else {
          assert modules[ids[i]].roleTag != Hallway;
          assert modules[ids[j]].roleTag == Hallway;
        }
      }
    }

    /** Every placed module's free connectors, rooms first, then hallways. */
    method CollectUnusedPoints() returns (pts: seq<ConnRef>)
      requires Valid()
      ensures pts == FreeRefs(modules, spawnedRooms + spawnedHallways)
    {
      var fromRooms := CollectFrom(spawnedRooms);
      var fromHallways := CollectFrom(spawnedHallways);
      pts := fromRooms + fromHallways;
      FreeRefsAppend(modules, spawnedRooms, spawnedHallways);
    }

    /** One collecting `foreach`: the free connectors of the modules `ids`. */
    method CollectFrom(ids: seq<nat>) returns (pts: seq<ConnRef>)
      requires forall k :: 0 <= k < |ids| ==> ids[k] < |modules|
      ensures pts == FreeRefs(modules, ids)
    {
      pts := [];
      var i := 0;
      while i < |ids|
        invariant 0 <= i <= |ids|
        invariant pts == FreeRefs(modules, ids[..i])
      {
        assert ids[..i + 1][..i] == ids[..i];
        pts := pts + FreeRefsOf(modules, ids[i]);
        i := i + 1;
      }
      assert ids[..i] == ids;
    }

    /** The inner scan of loop closure: the first point after `i` lying
        nearer than `MergeDistance` to point `i`. */
    method FindPartner(pts: seq<ConnRef>, i: nat) returns (partner: Option<nat>)
      requires AllValid(modules, pts) && i < |pts|
      ensures partner == FirstClose(modules, pts, i, i + 1)
    {
      var currentPoint := pts[i];
      var j := i + 1;
      while j < |pts|
        invariant i + 1 <= j <= |pts|
        invariant FirstClose(modules, pts, i, i + 1) == FirstClose(modules, pts, i, j)
      {
        var otherPoint := pts[j];
        if Near(PosOf(modules, currentPoint), PosOf(modules, otherPoint)) {
          return Some(j);
        }
        j := j + 1;
      }
      return None;
    }

    /** The loop-closure scan: each point, in order, is marked connected
        together with the first later point near it, if any. */
    method CloseLoops(pts: seq<ConnRef>)
      requires AllValid(modules, pts)
      modifies this`modules
      ensures ClosedUpTo(old(modules), modules, pts, |pts|)
    {
      ghost var ms0 := modules;
      var i := 0;
      while i < |pts|
        invariant 0 <= i <= |pts|
        invariant ClosedUpTo(ms0, modules, pts, i)
      {
        CloseStepAdvances(ms0, modules, pts, i);
        var partner := FindPartner(pts, i);
        if partner.Some? {
          modules := SetConnectedAt(modules, pts[i]);
          modules := SetConnectedAt(modules, pts[partner.value]);
        }
        i := i + 1;
      }
    }

    /** `CapRoomConnections`: one wall cap per connector of the module that
        is not connected. */
    method CapRoomConnections(id: nat)
      requires Valid() && id < |modules|
      modifies this`allSpawnedObjects
      ensures allSpawnedObjects == old(allSpawnedObjects) + CapsFor(id, modules[id].connectors)
      ensures Valid()
    {
      var cs := modules[id].connectors;
      var k := 0;
      while k < |cs|
        invariant 0 <= k <= |cs|
        invariant allSpawnedObjects == old(allSpawnedObjects) + CapsFor(id, cs[..k])
        invariant Valid()
      {
        assert cs[..k + 1][..k] == cs[..k];
        if !cs[k].isConnected {
          allSpawnedObjects := allSpawnedObjects + [WallCap(id, k)];
        }
        k := k + 1;
      }
      assert cs[..k] == cs;
    }

    /** `CapUnusedConnections`: free connectors are collected, near pairs
        marked connected, and every connector still free gets one wall cap. */
    method CapUnusedConnections()
      requires Valid() && NoCaps()
      modifies this`modules, this`allSpawnedObjects
      ensures var pts := FreeRefs(old(modules), old(spawnedRooms) + old(spawnedHallways));
        ClosedUpTo(old(modules), modules, pts, |pts|)
      ensures FlagsOnlyRise(old(modules), modules)
      ensures allSpawnedObjects == old(allSpawnedObjects) + CapsOfAll(modules, spawnedRooms + spawnedHallways)
      ensures Valid() && Reconciled()
    {
      var allUnusedPoints := CollectUnusedPoints();
      CloseLoops(allUnusedPoints);
      CapAllModules();
    }

    /** The capping pass: rooms first, then hallways. */
    method CapAllModules()
      requires Valid() && NoCaps()
      modifies this`allSpawnedObjects
      ensures allSpawnedObjects == old(allSpawnedObjects) + CapsOfAll(modules, spawnedRooms + spawnedHallways)
      ensures Valid() && Reconciled()
    {
      ghost var objects0 := allSpawnedObjects;
      CapEach(spawnedRooms);
      CapEach(spawnedHallways);
      CapsOfAllAppend(modules, spawnedRooms, spawnedHallways);
      AppendAssoc(objects0, CapsOfAll(modules, spawnedRooms), CapsOfAll(modules, spawnedHallways));
      CappedOnce(objects0);
    }

    /** One capping `foreach`: `CapRoomConnections` on each module of `ids`. */
    method CapEach(ids: seq<nat>)
      requires Valid() && forall k :: 0 <= k < |ids| ==> ids[k] < |modules|
      modifies this`allSpawnedObjects
      ensures allSpawnedObjects == old(allSpawnedObjects) + CapsOfAll(modules, ids)
      ensures Valid()
    {
      var i := 0;
      while i < |ids|
        invariant 0 <= i <= |ids|
        invariant Valid()
        invariant allSpawnedObjects == old(allSpawnedObjects) + CapsOfAll(modules, ids[..i])
      {
        assert ids[..i + 1][..i] == ids[..i];
        CapRoomConnections(ids[i]);
        i := i + 1;
      }
      assert ids[..i] == ids;
    }

    /** Capping every listed module once, on top of a cap-free record,
        leaves every connector reconciled. */
    lemma CappedOnce(objects0: seq<SpawnedObject>)
      requires Valid()
      requires forall o :: o in objects0 ==> o.ModuleObject?
      requires allSpawnedObjects == objects0 + CapsOfAll(modules, spawnedRooms + spawnedHallways)
      ensures Reconciled()
    {
      ListedOnce();
      forall id, c | 0 <= id < |modules| && 0 <= c < |modules[id].connectors|
        ensures multiset(allSpawnedObjects)[WallCap(id, c)] == if modules[id].connectors[c].isConnected then 0 else 1
      {
        CapsOfAllCount(modules, spawnedRooms + spawnedHallways, WallCap(id, c));
        assert WallCap(id, c) !in objects0;
        assert id in spawnedRooms + spawnedHallways;
      }
    }
  }
}
