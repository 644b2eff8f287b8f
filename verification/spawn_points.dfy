/** `RoomSpawnPoints`: the spawn zones of a room, found among the room's
    child objects by their name. */
module SpawnPoints {
  import opened Common
  import opened Rooms

  const SpawnPointPrefix: string := "SpawnPoint"

  /** `child.name.StartsWith("SpawnPoint")`, compared ordinally. */
  predicate IsSpawnPoint(name: string) {
    SpawnPointPrefix <= name
  }

  /** The children named as spawn points, in child order. */
  function SpawnPointsOf(children: seq<GameObject>): (r: seq<GameObject>)
    reads set c | c in children
    ensures forall z :: z in r ==> z in children && IsSpawnPoint(z.name)
    ensures forall c :: c in children && IsSpawnPoint(c.name) ==> c in r
  {
    if |children| == 0 then []
    else
      var front := SpawnPointsOf(children[..|children| - 1]);
      var last := children[|children| - 1];
      if IsSpawnPoint(last.name) then front + [last] else front
  }

  /** The filter keeps the children's order: filtering a list made of two
      parts lists the first part's spawn points before the second's. */
  lemma {:induction false} SpawnPointsOfAppend(a: seq<GameObject>, b: seq<GameObject>)
    ensures SpawnPointsOf(a + b) == SpawnPointsOf(a) + SpawnPointsOf(b)
    decreases |b|
  {
    if |b| > 0 {
      var ab := a + b;
      assert ab[..|ab| - 1] == a + b[..|b| - 1];
      assert ab[|ab| - 1] == b[|b| - 1];
      SpawnPointsOfAppend(a, b[..|b| - 1]);
    } else {
      assert a + b == a;
    }
  }

  class RoomSpawnPoints {
    /** The zones, as set by the inspector or found by `AutoPopulateChildren`;
        a destroyed zone reads as null. */
    var spawnZones: seq<GameObject?>
    const spawnRadius: real
    var isPopulated: bool
    var roomType: RoomType
    /** The room's child objects, in `transform` order, and the room's
        position. */
    const children: seq<GameObject>
    const position: Point

    constructor (children: seq<GameObject>, position: Point, roomType: RoomType)
      ensures this.children == children && this.position == position && this.roomType == roomType
      ensures spawnZones == [] && spawnRadius == 3.0 && !isPopulated
    {
      this.children := children;
      this.position := position;
      this.roomType := roomType;
      spawnZones := [];
      spawnRadius := 3.0;
      isPopulated := false;
    }

    /** `AutoPopulateChildren`: the previous zones are dropped and every child
        named as a spawn point is listed, in child order. */
    method AutoPopulateChildren()
      modifies this`spawnZones
      ensures spawnZones == SpawnPointsOf(children)
    {
      spawnZones := [];
      var i := 0;
      while i < |children|
        invariant 0 <= i <= |children|
        invariant spawnZones == SpawnPointsOf(children[..i])
      {
        var child := children[i];
        assert children[..i + 1][..i] == children[..i];
        if SpawnPointPrefix <= child.name {
          spawnZones := spawnZones + [child];
        }
        i := i + 1;
      }
      assert children[..i] == children;
    }
  }
}
