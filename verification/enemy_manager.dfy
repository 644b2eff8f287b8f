/** `DungeonEnemyManager`: which enemy type a room gets, how a room's
    enemies are spread over its spawn zones, the rooms kept active around
    the player, the enemy count the portal waits for, and the bookkeeping
    when an enemy goes back to the pool. */
module EnemyManagement {
  import opened Common
  import opened Rooms
  import opened Sampling
  import opened EnemyStatistics
  import opened ObjectPools
  import opened SpawnPoints
  import opened Portal

  /** An enemy type, its relative spawn weight and the room types it may
      appear in. */
  datatype EnemyTypeConfig = EnemyTypeConfig(stats: EnemyStats, spawnWeight: real, validRoomTypes: seq<RoomType>)

  /** The field initialisers of a new `EnemyTypeConfig`. */
  function DefaultConfig(stats: EnemyStats): EnemyTypeConfig {
    EnemyTypeConfig(stats, 1.0, [RoomType.Normal])
  }

  /** `Random.Range(lo, hi)` for floats, both ends included, answered by the
      supplied stream of reals at draw number `k`. */
  function RangeReal(roll: nat -> real, k: nat, lo: real, hi: real): (r: real)
    ensures lo <= hi ==> lo <= r <= hi
  {
    if roll(k) < lo then lo else if roll(k) > hi then hi else roll(k)
  }

  // ---------------------------------------------------------------------
  // Choosing an enemy type

  /** The configurations that list `roomType`, in their order (the
      `Where(...).ToList()` filter). */
  function ValidEnemies(configs: seq<EnemyTypeConfig>, roomType: RoomType): (r: seq<EnemyTypeConfig>)
    ensures |r| <= |configs|
  {
    if configs == [] then []
    else
      var rest := ValidEnemies(configs[1..], roomType);
      if roomType in configs[0].validRoomTypes then [configs[0]] + rest else rest
  }

  /** The filter keeps exactly the configurations that list the room type. */
  lemma {:induction false} ValidEnemiesExactly(configs: seq<EnemyTypeConfig>, roomType: RoomType)
    ensures forall c :: c in ValidEnemies(configs, roomType) ==> c in configs && roomType in c.validRoomTypes
    ensures forall c :: c in configs && roomType in c.validRoomTypes ==> c in ValidEnemies(configs, roomType)
    decreases |configs|
  {
    if configs != [] {
      ValidEnemiesExactly(configs[1..], roomType);
      assert forall c :: c in configs ==> c == configs[0] || c in configs[1..];
    }
  }

  /** The summed spawn weight (`Sum(e => e.spawnWeight)`), added front to back. */
  function TotalWeight(cs: seq<EnemyTypeConfig>): real
  {
    if cs == [] then 0.0 else TotalWeight(cs[..|cs| - 1]) + cs[|cs| - 1].spawnWeight
  }

  lemma TotalWeightSnoc(cs: seq<EnemyTypeConfig>, i: nat)
    requires i < |cs|
    ensures TotalWeight(cs[..i + 1]) == TotalWeight(cs[..i]) + cs[i].spawnWeight
  {
    assert cs[..i + 1][..i] == cs[..i];
  }

  /** The weighted choice: the first configuration whose running weight,
      starting from `acc`, reaches `value`; none when no running weight
      does. */
  function WeightedPick(cs: seq<EnemyTypeConfig>, value: real, acc: real): (r: Option<EnemyTypeConfig>)
  {
    if cs == [] then Option.None
    else if value <= acc + cs[0].spawnWeight then Some(cs[0])
    else WeightedPick(cs[1..], value, acc + cs[0].spawnWeight)
  }

  /** The weighted choice is one of the configurations scanned. */
  lemma {:induction false} WeightedPickIn(cs: seq<EnemyTypeConfig>, value: real, acc: real)
    ensures WeightedPick(cs, value, acc).Some? ==> WeightedPick(cs, value, acc).value in cs
    decreases |cs|
  {
    if cs != [] && value > acc + cs[0].spawnWeight {
      WeightedPickIn(cs[1..], value, acc + cs[0].spawnWeight);
    }
  }

  /** One step of the scan, at position `i`. */
  lemma WeightedPickStep(cs: seq<EnemyTypeConfig>, i: nat, value: real, acc: real, next: real)
    requires i < |cs| && next == acc + cs[i].spawnWeight
    ensures value <= next ==> WeightedPick(cs[i..], value, acc) == Some(cs[i])
    ensures value > next ==> WeightedPick(cs[i..], value, acc) == WeightedPick(cs[i + 1..], value, next)
  {
    assert cs[i..][0] == cs[i] && cs[i..][1..] == cs[i + 1..];
  }

  /** With weights that are not negative, a value that does not exceed the
      total weight always finds a configuration. */
  lemma {:induction false} WeightedPickFinds(cs: seq<EnemyTypeConfig>, value: real, acc: real)
    requires cs != [] && forall c :: c in cs ==> c.spawnWeight >= 0.0
    requires value <= acc + TotalWeightFrom(cs)
    ensures WeightedPick(cs, value, acc).Some?
    decreases |cs|
  {
    if value > acc + cs[0].spawnWeight {
      WeightedPickFinds(cs[1..], value, acc + cs[0].spawnWeight);
    }
  }

  /** The summed weight, added back to front; it equals `TotalWeight`. */
  function TotalWeightFrom(cs: seq<EnemyTypeConfig>): real
  {
    if cs == [] then 0.0 else cs[0].spawnWeight + TotalWeightFrom(cs[1..])
  }

  lemma {:induction false} TotalWeightBothWays(cs: seq<EnemyTypeConfig>)
    ensures TotalWeight(cs) == TotalWeightFrom(cs)
    decreases |cs|
  {
    if cs != [] {
      var n := |cs| - 1;
      TotalWeightBothWays(cs[..n]);
      if n > 0 {
        TotalWeightBothWays(cs[1..]);
        assert cs[1..][..n - 1] == cs[..n][1..];
        TotalWeightBothWays(cs[..n][1..]);
        TotalWeightBothWays(cs[1..][..n - 1]);
        assert TotalWeight(cs[1..]) == TotalWeight(cs[1..][..n - 1]) + cs[n].spawnWeight;
      }
    }
  }

  /** `GetRandomEnemyForRoomType` for the rolled `value`: none when no
      configuration lists the room type, otherwise the weighted choice
      among those that do, falling back to the first of them. */
  function ChooseEnemy(configs: seq<EnemyTypeConfig>, roomType: RoomType, value: real): (r: Option<EnemyTypeConfig>)
    ensures r.None? <==> forall c :: c in configs ==> roomType !in c.validRoomTypes
    ensures r.Some? ==> r.value in configs && roomType in r.value.validRoomTypes
  {
    ValidEnemiesExactly(configs, roomType);
    var validEnemies := ValidEnemies(configs, roomType);
    WeightedPickIn(validEnemies, value, 0.0);
    if validEnemies == [] then Option.None
    else
      match WeightedPick(validEnemies, value, 0.0)
      case Some(c) => Some(c)
      case None => Some(validEnemies[0])
  }

  /** When every weight is non-negative and the roll lies within the total
      weight, the fallback to the first valid configuration is never
      needed: the weighted choice decides. */
  lemma NoFallbackNeeded(configs: seq<EnemyTypeConfig>, roomType: RoomType, value: real)
    requires forall c :: c in configs ==> c.spawnWeight >= 0.0
    requires ValidEnemies(configs, roomType) != []
    requires value <= TotalWeight(ValidEnemies(configs, roomType))
    ensures ChooseEnemy(configs, roomType, value) == WeightedPick(ValidEnemies(configs, roomType), value, 0.0)
  {
    var v := ValidEnemies(configs, roomType);
    ValidEnemiesExactly(configs, roomType);
    TotalWeightBothWays(v);
    WeightedPickFinds(v, value, 0.0);
  }

  // ---------------------------------------------------------------------
  // Spreading a room's enemies over its spawn zones

  /** The spawn zones that are set, in order. */
  function NonNullZones(zones: seq<GameObject?>): (r: seq<GameObject>)
    ensures |r| <= |zones|
  {
    if zones == [] then []
    else
      var last := zones[|zones| - 1];
      var earlier := NonNullZones(zones[..|zones| - 1]);
      if last != null then earlier + [last] else earlier
  }

  /** Exactly the zones that are set are kept. */
  lemma {:induction false} NonNullZonesExactly(zones: seq<GameObject?>)
    ensures forall i :: 0 <= i < |NonNullZones(zones)| ==> NonNullZones(zones)[i] in zones
    ensures forall i :: 0 <= i < |zones| && zones[i] != null ==> zones[i] in NonNullZones(zones)
    decreases |zones|
  {
    if zones != [] {
      var n := |zones| - 1;
      NonNullZonesExactly(zones[..n]);
      assert forall i :: 0 <= i < n ==> zones[i] == zones[..n][i];
    }
  }

  lemma NonNullZonesSnoc(zones: seq<GameObject?>, i: nat)
    requires i < |zones|
    ensures NonNullZones(zones[..i + 1]) ==
      NonNullZones(zones[..i]) + (if zones[i] != null then [zones[i]] else [])
  {
    assert zones[..i + 1][..i] == zones[..i];
  }

  /** How many zones are used: `Min(Random.Range(1, n + 1), n)`. */
  function ZonesToUse(rand: nat -> nat, k: nat, available: nat): (r: nat)
    ensures available > 0 ==> 1 <= r <= available
    ensures r <= available
  {
    Max(0, Min(RangeInt(rand, k, 1, available + 1), available))
  }

  /** The zones drawn from the available ones, the number to use being
      drawn first (at draw `k`). */
  function SelectedZones(available: seq<GameObject>, rand: nat -> nat, k: nat): (r: seq<GameObject>)
    ensures |r| == ZonesToUse(rand, k, |available|)
  {
    DrawSteps(available, ZonesToUse(rand, k, |available|), rand, k + 1).offers
  }

  /** Zones that are all different give selected zones that are all
      different. */
  lemma SelectedZonesDistinct(available: seq<GameObject>, rand: nat -> nat, k: nat)
    requires Distinct(available)
    ensures Distinct(SelectedZones(available, rand, k))
  {
    DrawStepsKeepPool(available, ZonesToUse(rand, k, |available|), rand, k + 1);
    SubsetOfDistinct(SelectedZones(available, rand, k), available);
  }

  /** `Mathf.CeilToInt((float)a / b)` for a positive `a` and `b`. */
  function CeilDiv(a: int, b: int): (r: int)
    requires a > 0 && b > 0
    ensures r * b >= a && (r - 1) * b < a
    ensures 1 <= r <= a
  {
    (a + b - 1) / b
  }

  /** One zone's share of the `remaining` enemies when `zones` zones were
      selected: the rounded-up even share, but no more than remain. */
  function ZoneShare(remaining: int, zones: int): (r: int)
    requires remaining > 0 && zones > 0
    ensures 1 <= r <= remaining
  {
    Min(CeilDiv(remaining, zones), remaining)
  }

  /** The enemies still unassigned after the first `z` selected zones; a
      zone met with none remaining ends the distribution. */
  function Remaining(enemyCount: int, zones: int, z: nat): (r: int)
    requires zones > 0
  {
    if z == 0 then enemyCount
    else
      var before := Remaining(enemyCount, zones, z - 1);
      if before <= 0 then before else before - ZoneShare(before, zones)
  }

  /** The remainder never goes below zero and never grows; a count that is
      not positive assigns nothing. */
  lemma {:induction false} RemainingBounds(enemyCount: int, zones: int, z: nat)
    requires zones > 0
    ensures enemyCount >= 0 ==> 0 <= Remaining(enemyCount, zones, z) <= enemyCount
    ensures enemyCount <= 0 ==> Remaining(enemyCount, zones, z) == enemyCount
  {
    if z > 0 {
      RemainingBounds(enemyCount, zones, z - 1);
    }
  }

  /** The enemies requested over all `zones` selected zones: at most the
      drawn count, and none for a count that is not positive. */
  function Requested(enemyCount: int, zones: int): (r: int)
    requires zones > 0
    ensures 0 <= r <= Max(0, enemyCount)
  {
    RemainingBounds(enemyCount, zones, zones);
    enemyCount - Remaining(enemyCount, zones, zones)
  }

  /** Once nothing remains, later zones assign nothing either. */
  lemma {:induction false} RemainingStays(enemyCount: int, zones: int, z: nat, w: nat)
    requires zones > 0 && z <= w && Remaining(enemyCount, zones, z) <= 0
    ensures Remaining(enemyCount, zones, w) == Remaining(enemyCount, zones, z)
    decreases w - z
  {
    if z < w {
      RemainingStays(enemyCount, zones, z, w - 1);
    }
  }

  /** A single zone receives all the enemies. */
  lemma OneZoneTakesAll(enemyCount: int)
    requires enemyCount >= 0
    ensures Requested(enemyCount, 1) == enemyCount
  {
    assert Remaining(enemyCount, 1, 0) == enemyCount;
  }

  /** The count is not always reached: five enemies over three zones are
      requested as 2, 1 and 1. */
  lemma FiveOverThreeRequestsFour()
    ensures Requested(5, 3) == 4
  {
    assert Remaining(5, 3, 1) == 3;
    assert Remaining(5, 3, 2) == 2;
    assert Remaining(5, 3, 3) == 1;
  }

  /** The first loop of `PopulateRoom`: the spawn zones that are set. */
  method CollectZones(zones: seq<GameObject?>) returns (available: seq<GameObject>)
    ensures available == NonNullZones(zones)
  {
    available := [];
    var i := 0;
    while i < |zones|
      invariant 0 <= i <= |zones|
      invariant available == NonNullZones(zones[..i])
    {
      NonNullZonesSnoc(zones, i);
      if zones[i] != null {
        available := available + [zones[i]];
      }
      i := i + 1;
    }
    assert zones[..i] == zones;
  }

  /** The zone draw of `PopulateRoom`: how many zones to use is drawn at
      `d0`, then each selected zone is drawn from those not yet taken. */
  method SelectZones(available: seq<GameObject>, rand: nat -> nat, d0: nat) returns (selected: seq<GameObject>, d: nat)
    ensures selected == SelectedZones(available, rand, d0)
    ensures d == d0 + 1 + |selected|
  {
    var rest := available;
    selected := [];
    var zonesToUse := ZonesToUse(rand, d0, |rest|);
    d := d0 + 1;
    var j := 0;
    while j < zonesToUse
      invariant 0 <= j <= zonesToUse
      invariant d == d0 + 1 + j
      invariant DrawSteps(available, j, rand, d0 + 1) == Drawing(selected, rest)
    {
      selected, rest := DrawZone(available, j, rand, d, selected, rest);
      d := d + 1;
      j := j + 1;
    }
  }

  /** One pass of the zone draw: the zone at `Random.Range(0, rest.Count)`
      is selected and taken out of the rest. */
  method DrawZone(available: seq<GameObject>, j: nat, rand: nat -> nat, d: nat,
                  selected: seq<GameObject>, rest: seq<GameObject>)
    returns (selected': seq<GameObject>, rest': seq<GameObject>)
    requires j < |available| && j < d && DrawSteps(available, j, rand, d - j) == Drawing(selected, rest)
    ensures DrawSteps(available, j + 1, rand, d - j) == Drawing(selected', rest')
  {
    var randomIndex := Pick(rand, d, |rest|);
    DrawStepsStep(available, j, rand, d - j, selected, rest, randomIndex);
    selected' := selected + [rest[randomIndex]];
    rest' := RemoveAt(rest, randomIndex);
  }

  // ---------------------------------------------------------------------
  // Tracking spawned enemies per room

  /** `List.Remove`: the list without the first occurrence of `x`. */
  function RemoveFirst(s: seq<GameObject>, x: GameObject): (r: seq<GameObject>)
  {
    if s == [] then []
    else if s[0] == x then s[1..]
    else [s[0]] + RemoveFirst(s[1..], x)
  }

  /** Removing takes out exactly one occurrence when there is one, and
      changes nothing otherwise. */
  lemma {:induction false} RemoveFirstTakesOne(s: seq<GameObject>, x: GameObject)
    ensures x in s ==> |RemoveFirst(s, x)| == |s| - 1 && multiset(RemoveFirst(s, x)) == multiset(s) - multiset{x}
    ensures x !in s ==> RemoveFirst(s, x) == s
    decreases |s|
  {
    if s != [] && s[0] != x {
      RemoveFirstTakesOne(s[1..], x);
      assert s == [s[0]] + s[1..];
    } else if s != [] {
      assert s == [s[0]] + s[1..];
    }
  }

  /** Every room of `order` has a list in `m`. */
  predicate AllTracked(order: seq<RoomSpawnPoints>, m: map<RoomSpawnPoints, seq<GameObject>>) {
    forall i :: 0 <= i < |order| ==> order[i] in m
  }

  /** The number of enemies listed for the rooms of `order`. */
  function TrackedCount(order: seq<RoomSpawnPoints>, m: map<RoomSpawnPoints, seq<GameObject>>): (r: nat)
    requires AllTracked(order, m)
  {
    if order == [] then 0
    else TrackedCount(order[..|order| - 1], m) + |m[order[|order| - 1]]|
  }

  /** Changing the list of a room outside `order` does not change the count. */
  lemma {:induction false} TrackedCountOther(order: seq<RoomSpawnPoints>, m: map<RoomSpawnPoints, seq<GameObject>>,
                                             room: RoomSpawnPoints, s: seq<GameObject>)
    requires AllTracked(order, m) && room !in order
    ensures AllTracked(order, m[room := s]) && TrackedCount(order, m[room := s]) == TrackedCount(order, m)
    decreases |order|
  {
    if order != [] {
      var n := |order| - 1;
      assert room !in order[..n] by {
        assert forall k :: 0 <= k < n ==> order[..n][k] == order[k];
      }
      TrackedCountOther(order[..n], m, room, s);
    }
  }

  /** Replacing the list of a room listed once in `order` changes the count
      by the difference in length. */
  lemma {:induction false} TrackedCountUpdate(order: seq<RoomSpawnPoints>, m: map<RoomSpawnPoints, seq<GameObject>>,
                                              room: RoomSpawnPoints, s: seq<GameObject>)
    requires AllTracked(order, m) && Distinct(order) && room in order
    ensures AllTracked(order, m[room := s])
    ensures TrackedCount(order, m[room := s]) == TrackedCount(order, m) - |m[room]| + |s|
    decreases |order|
  {
    var n := |order| - 1;
    assert order == order[..n] + [order[n]];
    assert Distinct(order[..n]) && AllTracked(order[..n], m);
    if order[n] == room {
      assert room !in order[..n];
      TrackedCountOther(order[..n], m, room, s);
    } else {
      assert room in order[..n];
      TrackedCountUpdate(order[..n], m, room, s);
    }
  }

  /** Adding a new room with an empty list at the end of `order` keeps the
      count. */
  lemma TrackedCountNewRoom(order: seq<RoomSpawnPoints>, m: map<RoomSpawnPoints, seq<GameObject>>, room: RoomSpawnPoints)
    requires AllTracked(order, m) && room !in order
    ensures AllTracked(order + [room], m[room := []])
    ensures TrackedCount(order + [room], m[room := []]) == TrackedCount(order, m)
  {
    TrackedCountOther(order, m, room, []);
    assert (order + [room])[..|order|] == order;
  }

  /** Tracking a room if it is new and appending `added` to its list adds
      the length of `added` to the count. */
  lemma TrackedCountPopulate(order: seq<RoomSpawnPoints>, m: map<RoomSpawnPoints, seq<GameObject>>,
                             room: RoomSpawnPoints, added: seq<GameObject>)
    requires AllTracked(order, m) && Distinct(order) && (room in m <==> room in order)
    ensures var order' := order + (if room in m then [] else [room]);
      var m' := m[room := (if room in m then m[room] else []) + added];
      && AllTracked(order', m') && Distinct(order')
      && TrackedCount(order', m') == TrackedCount(order, m) + |added|
  {
    if room in m {
      assert order + [] == order;
      TrackedCountUpdate(order, m, room, m[room] + added);
    } else {
      TrackedCountNewRoom(order, m, room);
      var order' := order + [room];
      assert Distinct(order');
      TrackedCountUpdate(order', m[room := []], room, [] + added);
      assert [] + added == added;
      assert m[room := []][room := [] + added] == m[room := added];
    }
  }

  /** The position in `order` of the first room whose list holds `x`,
      looking from `from` on. */
  function FirstHolding(order: seq<RoomSpawnPoints>, m: map<RoomSpawnPoints, seq<GameObject>>, x: GameObject, from: nat): (r: Option<nat>)
    requires AllTracked(order, m) && from <= |order|
    ensures r.Some? ==> from <= r.value < |order| && x in m[order[r.value]]
    ensures r.Some? ==> forall k :: from <= k < r.value ==> x !in m[order[k]]
    ensures r.None? ==> forall k :: from <= k < |order| ==> x !in m[order[k]]
    decreases |order| - from
  {
    if from == |order| then Option.None
    else if x in m[order[from]] then Some(from)
    else FirstHolding(order, m, x, from + 1)
  }

  /** Taking an enemy out of the first list that holds it lowers the count
      by one; when no list holds it nothing changes. */
  lemma TrackedCountReturn(order: seq<RoomSpawnPoints>, m: map<RoomSpawnPoints, seq<GameObject>>, x: GameObject)
    requires AllTracked(order, m) && Distinct(order)
    ensures FirstHolding(order, m, x, 0).Some? ==>
      var room := order[FirstHolding(order, m, x, 0).value];
      && AllTracked(order, m[room := RemoveFirst(m[room], x)])
      && TrackedCount(order, m[room := RemoveFirst(m[room], x)]) == TrackedCount(order, m) - 1
  {
    if FirstHolding(order, m, x, 0).Some? {
      var room := order[FirstHolding(order, m, x, 0).value];
      RemoveFirstTakesOne(m[room], x);
      TrackedCountUpdate(order, m, room, RemoveFirst(m[room], x));
    }
  }

  // ---------------------------------------------------------------------
  // The manager

  class DungeonEnemyManager {
    const enemyTypes: seq<EnemyTypeConfig>
    const minEnemiesPerRoom := 2
    const maxEnemiesPerRoom := 5
    const activationDistance := 30.0
    const deactivationDistance := 40.0
    /** `TeleportingPortal.instance`, when there is one. */
    const portal: TeleportingPortal?
    const enemyPool: ObjectPool?
    /** The enemies spawned per room; `roomOrder` lists the dictionary's
        keys in the order they were added, which is the order it is
        enumerated in. */
    var spawnedEnemiesByRoom: map<RoomSpawnPoints, seq<GameObject>>
    var roomOrder: seq<RoomSpawnPoints>
    var activeRooms: set<RoomSpawnPoints>
    var populatedRooms: set<RoomSpawnPoints>
    const startRoom: RoomSpawnPoints?
    var totalEnemiesInDungeon: int
    var hasRegisteredTotalWithPortal: bool
    var totalSpawnedEnemies: int
    const isBossDungeon: bool

    /** The key order lists every tracked room once, and every populated
        room is tracked. */
    ghost predicate Valid()
      reads this`roomOrder, this`spawnedEnemiesByRoom, this`populatedRooms
    {
      && Distinct(roomOrder)
      && spawnedEnemiesByRoom.Keys == (set r | r in roomOrder)
      && populatedRooms <= spawnedEnemiesByRoom.Keys
    }

    /** The inspector defaults, with the pool and the start room as given
        by the generator's navigation-mesh callback. */
    constructor (enemyTypes: seq<EnemyTypeConfig>, enemyPool: ObjectPool?, startRoom: RoomSpawnPoints?,
                 portal: TeleportingPortal?, isBossDungeon: bool)
      ensures Valid()
      ensures this.enemyTypes == enemyTypes && this.enemyPool == enemyPool && this.startRoom == startRoom
      ensures this.portal == portal && this.isBossDungeon == isBossDungeon
      ensures spawnedEnemiesByRoom == map[] && roomOrder == [] && activeRooms == {} && populatedRooms == {}
      ensures totalEnemiesInDungeon == 0 && totalSpawnedEnemies == 0 && !hasRegisteredTotalWithPortal
    {
      this.enemyTypes := enemyTypes;
      this.portal := portal;
      this.enemyPool := enemyPool;
      spawnedEnemiesByRoom := map[];
      roomOrder := [];
      activeRooms := {};
      populatedRooms := {};
      this.startRoom := startRoom;
      totalEnemiesInDungeon := 0;
      hasRegisteredTotalWithPortal := false;
      totalSpawnedEnemies := 0;
      this.isBossDungeon := isBossDungeon;
    }

    /** `IsStartRoom`: the room the player starts in. */
    predicate IsStartRoom(room: RoomSpawnPoints)
    {
      startRoom != null && startRoom == room
    }

    /** Whether a room is left without enemies: the start room, outside a
        boss dungeon. */
    predicate SkipsRoom(room: RoomSpawnPoints)
    {
      !isBossDungeon && IsStartRoom(room)
    }

    /** `GetRandomEnemyForRoomType`: the float draw is made only when some
        configuration lists the room type. */
    method GetRandomEnemyForRoomType(roomType: RoomType, roll: nat -> real, d0: nat)
      returns (config: Option<EnemyTypeConfig>, d: nat)
      ensures config.Some? <==> ValidEnemies(enemyTypes, roomType) != []
      ensures var validEnemies := ValidEnemies(enemyTypes, roomType);
        && (validEnemies == [] ==> config.None? && d == d0)
        && (validEnemies != [] ==>
              config == ChooseEnemy(enemyTypes, roomType, RangeReal(roll, d0, 0.0, TotalWeight(validEnemies)))
              && d == d0 + 1)
    {
      var validEnemies := ValidEnemies(enemyTypes, roomType);
      if |validEnemies| == 0 {
        return Option.None, d0;
      }
      var totalWeight := TotalWeight(validEnemies);
      var randomValue := RangeReal(roll, d0, 0.0, totalWeight);
      d := d0 + 1;
      var currentWeight := 0.0;
      var i := 0;
      while i < |validEnemies|
        invariant 0 <= i <= |validEnemies|
        invariant currentWeight == TotalWeight(validEnemies[..i])
        invariant WeightedPick(validEnemies, randomValue, 0.0) == WeightedPick(validEnemies[i..], randomValue, currentWeight)
      {
        TotalWeightSnoc(validEnemies, i);
        WeightedPickStep(validEnemies, i, randomValue, currentWeight, currentWeight + validEnemies[i].spawnWeight);
        currentWeight := currentWeight + validEnemies[i].spawnWeight;
        if randomValue <= currentWeight {
          return Some(validEnemies[i]), d;
        }
        i := i + 1;
      }
      return Some(validEnemies[0]), d;
    }

    /** `SpawnEnemyAtZone`: an enemy type is chosen for the room, a
        position is searched near the zone (the navigation-mesh search
        `navMesh`, answering the origin on failure), and an enemy is taken
        from the pool there and recorded for the room. */
    method SpawnEnemyAtZone(room: RoomSpawnPoints, zone: GameObject, roll: nat -> real,
                            navMesh: (Point, real, nat) -> Point, d0: nat)
      returns (spawned: bool, d: nat, ghost added: seq<GameObject>, ghost taken: nat)
      requires enemyPool != null && room in spawnedEnemiesByRoom
      modifies this`spawnedEnemiesByRoom, enemyPool`availableObjects, enemyPool.availableObjects
      ensures taken <= 1 && taken <= old(|enemyPool.availableObjects|)
      ensures enemyPool.availableObjects == old(enemyPool.availableObjects)[taken..]
      ensures spawned == (ValidEnemies(enemyTypes, room.roomType) != []
                          && navMesh(old(zone.position), room.spawnRadius, d0 + 1) != Point(0.0, 0.0, 0.0))
      ensures d == d0 + (if ValidEnemies(enemyTypes, room.roomType) == [] then 0 else 2)
      ensures |added| == (if spawned then 1 else 0)
      ensures spawnedEnemiesByRoom == old(spawnedEnemiesByRoom)[room := old(spawnedEnemiesByRoom)[room] + added]
      ensures spawned ==> added[0].active && added[0].position == navMesh(old(zone.position), room.spawnRadius, d0 + 1)
      ensures !spawned ==> taken == 0
    {
      added, taken := [], 0;
      assert spawnedEnemiesByRoom[room] + added == spawnedEnemiesByRoom[room];
      assert spawnedEnemiesByRoom[room := spawnedEnemiesByRoom[room] + added] == spawnedEnemiesByRoom;
      var enemyType;
      enemyType, d := GetRandomEnemyForRoomType(room.roomType, roll, d0);
      if enemyType.None? {
        return false, d, added, taken;
      }
      var spawnPos := navMesh(zone.position, room.spawnRadius, d);
      d := d + 1;
      if spawnPos == Point(0.0, 0.0, 0.0) {
        return false, d, added, taken;
      }
      taken := if |enemyPool.availableObjects| > 0 then 1 else 0;
      var obj := enemyPool.GetObject(spawnPos);
      added := [obj];
      spawnedEnemiesByRoom := spawnedEnemiesByRoom[room := spawnedEnemiesByRoom[room] + [obj]];
      spawned := true;
    }

    /** Appending to a room's list in two steps appends the two parts. */
    lemma AppendTwice(m: map<RoomSpawnPoints, seq<GameObject>>, room: RoomSpawnPoints, a: seq<GameObject>, b: seq<GameObject>)
      requires room in m
      ensures m[room := m[room] + a][room := m[room] + a + b] == m[room := m[room] + (a + b)]
    {
      assert m[room] + a + b == m[room] + (a + b);
    }

    /** Replacing the list of a tracked room keeps the tracked rooms. */
    lemma KeysKept(m: map<RoomSpawnPoints, seq<GameObject>>, room: RoomSpawnPoints, s: seq<GameObject>)
      requires room in m
      ensures m[room := s].Keys == m.Keys
    {
    }

    /** Replacing a room's list twice keeps the second list. */
    lemma UpdateTwice(m: map<RoomSpawnPoints, seq<GameObject>>, room: RoomSpawnPoints, a: seq<GameObject>, b: seq<GameObject>)
      ensures m[room := a][room := b] == m[room := b]
    {
    }

    /** Dropping from a list in two steps drops the sum. */
    lemma DropTwice(s: seq<GameObject>, a: nat, b: nat)
      requires a + b <= |s|
      ensures s[a..][b..] == s[a + b..]
    {
    }

    /** The list a room had before, or none. */
    function ListOf(m: map<RoomSpawnPoints, seq<GameObject>>, room: RoomSpawnPoints): seq<GameObject> {
      if room in m then m[room] else []
    }

    /** `PopulateRoom`. The start room of an ordinary dungeon is left
        alone. Otherwise the room is tracked, an enemy count is drawn, and a
        room without set spawn zones stays unpopulated. With zones, some of
        them are drawn, each gets its share of the count in turn, and the
        room is marked populated; the enemies actually placed (`added`,
        never more than were requested) are appended to the room's list and
        counted in the total. */
    method PopulateRoom(room: RoomSpawnPoints, rand: nat -> nat, roll: nat -> real,
                        navMesh: (Point, real, nat) -> Point, d0: nat)
      returns (d: nat, ghost added: seq<GameObject>, ghost taken: nat)
      requires Valid() && enemyPool != null
      modifies this`spawnedEnemiesByRoom, this`roomOrder, this`populatedRooms, this`totalSpawnedEnemies
      modifies room`isPopulated, enemyPool`availableObjects, enemyPool.availableObjects
      ensures Valid()
      ensures taken <= old(|enemyPool.availableObjects|)
      ensures enemyPool.availableObjects == old(enemyPool.availableObjects)[taken..]
      ensures SkipsRoom(room) ==>
        && spawnedEnemiesByRoom == old(spawnedEnemiesByRoom) && roomOrder == old(roomOrder)
        && populatedRooms == old(populatedRooms) && totalSpawnedEnemies == old(totalSpawnedEnemies)
        && room.isPopulated == old(room.isPopulated) && taken == 0 && d == d0
      ensures !SkipsRoom(room) ==>
        && roomOrder == old(roomOrder) + (if room in old(spawnedEnemiesByRoom) then [] else [room])
        && spawnedEnemiesByRoom == old(spawnedEnemiesByRoom)[room := ListOf(old(spawnedEnemiesByRoom), room) + added]
        && totalSpawnedEnemies == old(totalSpawnedEnemies) + |added|
      ensures !SkipsRoom(room) && NonNullZones(room.spawnZones) == [] ==>
        && populatedRooms == old(populatedRooms) && room.isPopulated == old(room.isPopulated)
        && added == [] && d == d0 + 1
      ensures !SkipsRoom(room) && NonNullZones(room.spawnZones) != [] ==>
        var enemyCount := RangeInt(rand, d0, minEnemiesPerRoom, maxEnemiesPerRoom + 1);
        var zones := ZonesToUse(rand, d0 + 1, |NonNullZones(room.spawnZones)|);
        && populatedRooms == old(populatedRooms) + {room} && room.isPopulated
        && |added| <= Requested(enemyCount, zones)
    {
      d, added, taken := d0, [], 0;
      if !isBossDungeon && IsStartRoom(room) {
        return;
      }
      TrackRoom(room);
      ghost var tracked := spawnedEnemiesByRoom;
      var enemyCount := RangeInt(rand, d, minEnemiesPerRoom, maxEnemiesPerRoom + 1);
      d := d + 1;
      if |room.spawnZones| != 0 {
        d, added, taken := PlaceInZones(room, enemyCount, rand, roll, navMesh, d);
      } else {
        assert tracked[room] + added == tracked[room];
        assert tracked[room := tracked[room] + added] == tracked;
      }
      UpdateTwice(old(spawnedEnemiesByRoom), room, ListOf(old(spawnedEnemiesByRoom), room), tracked[room] + added);
    }

    /** The part of `PopulateRoom` after the enemy count is drawn: the set
        spawn zones are collected, some are drawn, the count is spread over
        them and the room is marked populated; without set zones nothing
        happens. */
    method PlaceInZones(room: RoomSpawnPoints, enemyCount: int, rand: nat -> nat, roll: nat -> real,
                        navMesh: (Point, real, nat) -> Point, d0: nat)
      returns (d: nat, ghost added: seq<GameObject>, ghost taken: nat)
      requires Valid() && enemyPool != null && room in spawnedEnemiesByRoom
      modifies this`spawnedEnemiesByRoom, this`populatedRooms, this`totalSpawnedEnemies
      modifies room`isPopulated, enemyPool`availableObjects, enemyPool.availableObjects
      ensures Valid()
      ensures taken <= old(|enemyPool.availableObjects|)
      ensures enemyPool.availableObjects == old(enemyPool.availableObjects)[taken..]
      ensures spawnedEnemiesByRoom == old(spawnedEnemiesByRoom)[room := old(spawnedEnemiesByRoom)[room] + added]
      ensures totalSpawnedEnemies == old(totalSpawnedEnemies) + |added|
      ensures NonNullZones(room.spawnZones) == [] ==>
        && populatedRooms == old(populatedRooms) && room.isPopulated == old(room.isPopulated)
        && added == [] && d == d0
      ensures NonNullZones(room.spawnZones) != [] ==>
        && populatedRooms == old(populatedRooms) + {room} && room.isPopulated
        && |added| <= Requested(enemyCount, ZonesToUse(rand, d0, |NonNullZones(room.spawnZones)|))
    {
      d, added, taken := d0, [], 0;
      assert spawnedEnemiesByRoom[room] + added == spawnedEnemiesByRoom[room];
      assert spawnedEnemiesByRoom[room := spawnedEnemiesByRoom[room] + added] == spawnedEnemiesByRoom;
      var availableZones := CollectZones(room.spawnZones);
      if |availableZones| != 0 {
        var selectedZones;
        selectedZones, d := SelectZones(availableZones, rand, d);
        var enemiesPlaced;
        enemiesPlaced, d, added, taken := DistributeEnemies(room, selectedZones, enemyCount, roll, navMesh, d);
        populatedRooms := populatedRooms + {room};
        room.isPopulated := true;
        totalSpawnedEnemies := totalSpawnedEnemies + enemiesPlaced;
      }
      KeysKept(old(spawnedEnemiesByRoom), room, old(spawnedEnemiesByRoom)[room] + added);
    }

    /** A room seen for the first time gets an empty list, added last in
        the key order. */
    method TrackRoom(room: RoomSpawnPoints)
      requires Valid()
      modifies this`spawnedEnemiesByRoom, this`roomOrder
      ensures Valid() && room in spawnedEnemiesByRoom
      ensures spawnedEnemiesByRoom == old(spawnedEnemiesByRoom)[room := ListOf(old(spawnedEnemiesByRoom), room)]
      ensures old(room in spawnedEnemiesByRoom) ==> spawnedEnemiesByRoom == old(spawnedEnemiesByRoom) && roomOrder == old(roomOrder)
      ensures old(room !in spawnedEnemiesByRoom) ==>
        spawnedEnemiesByRoom == old(spawnedEnemiesByRoom)[room := []] && roomOrder == old(roomOrder) + [room]
    {
      if room !in spawnedEnemiesByRoom {
        spawnedEnemiesByRoom := spawnedEnemiesByRoom[room := []];
        roomOrder := roomOrder + [room];
      } else {
        assert spawnedEnemiesByRoom[room := spawnedEnemiesByRoom[room]] == spawnedEnemiesByRoom;
      }
    }

    /** The inner loop of `PopulateRoom`: `count` spawn attempts at one
        zone, of which those that succeed are recorded for the room. */
    method SpawnInZone(room: RoomSpawnPoints, zone: GameObject, count: int,
                       roll: nat -> real, navMesh: (Point, real, nat) -> Point, d0: nat)
      returns (placed: int, d: nat, ghost added: seq<GameObject>, ghost taken: nat)
      requires enemyPool != null && room in spawnedEnemiesByRoom
      modifies this`spawnedEnemiesByRoom, enemyPool`availableObjects, enemyPool.availableObjects
      ensures 0 <= placed <= Max(0, count) && |added| == placed
      ensures spawnedEnemiesByRoom == old(spawnedEnemiesByRoom)[room := old(spawnedEnemiesByRoom)[room] + added]
      ensures taken <= old(|enemyPool.availableObjects|)
      ensures enemyPool.availableObjects == old(enemyPool.availableObjects)[taken..]
    {
      ghost var before := spawnedEnemiesByRoom;
      placed, d, added, taken := 0, d0, [], 0;
      assert before[room] + added == before[room];
      var t := 0;
      while t < count
        invariant 0 <= placed <= t <= Max(0, count)
        invariant |added| == placed
        invariant spawnedEnemiesByRoom == before[room := before[room] + added]
        invariant taken <= old(|enemyPool.availableObjects|)
        invariant enemyPool.availableObjects == old(enemyPool.availableObjects)[taken..]
      {
        var spawned;
        ghost var more, step;
        spawned, d, more, step := SpawnEnemyAtZone(room, zone, roll, navMesh, d);
        AppendTwice(before, room, added, more);
        DropTwice(old(enemyPool.availableObjects), taken, step);
        if spawned {
          placed := placed + 1;
        }
        added := added + more;
        taken := taken + step;
        t := t + 1;
      }
    }

    /** The `foreach` over the selected zones in `PopulateRoom`: each zone in
        turn is asked for its share of what remains, until nothing does. */
    method DistributeEnemies(room: RoomSpawnPoints, selectedZones: seq<GameObject>, enemyCount: int,
                             roll: nat -> real, navMesh: (Point, real, nat) -> Point, d0: nat)
      returns (enemiesPlaced: int, d: nat, ghost added: seq<GameObject>, ghost taken: nat)
      requires enemyPool != null && room in spawnedEnemiesByRoom && |selectedZones| > 0
      modifies this`spawnedEnemiesByRoom, enemyPool`availableObjects, enemyPool.availableObjects
      ensures 0 <= enemiesPlaced <= Requested(enemyCount, |selectedZones|)
      ensures |added| == enemiesPlaced
      ensures spawnedEnemiesByRoom == old(spawnedEnemiesByRoom)[room := old(spawnedEnemiesByRoom)[room] + added]
      ensures taken <= old(|enemyPool.availableObjects|)
      ensures enemyPool.availableObjects == old(enemyPool.availableObjects)[taken..]
    {
      var n := |selectedZones|;
      ghost var before := spawnedEnemiesByRoom;
      var remainingEnemies := enemyCount;
      enemiesPlaced, d, added, taken := 0, d0, [], 0;
      assert before[room] + added == before[room];
      var z := 0;
      while z < n
        invariant 0 <= z <= n
        invariant remainingEnemies == Remaining(enemyCount, n, z)
        invariant 0 <= enemiesPlaced <= enemyCount - remainingEnemies
        invariant |added| == enemiesPlaced
        invariant spawnedEnemiesByRoom == before[room := before[room] + added]
        invariant taken <= old(|enemyPool.availableObjects|)
        invariant enemyPool.availableObjects == old(enemyPool.availableObjects)[taken..]
      {
        if remainingEnemies <= 0 {
          break;
        }
        var enemiesForZone := CeilDiv(remainingEnemies, n);
        enemiesForZone := Min(enemiesForZone, remainingEnemies);
        remainingEnemies := remainingEnemies - enemiesForZone;
        var placed;
        ghost var more, step;
        placed, d, more, step := SpawnInZone(room, selectedZones[z], enemiesForZone, roll, navMesh, d);
        AppendTwice(before, room, added, more);
        DropTwice(old(enemyPool.availableObjects), taken, step);
        enemiesPlaced := enemiesPlaced + placed;
        added := added + more;
        taken := taken + step;
        z := z + 1;
      }
      RemainingBounds(enemyCount, n, z);
      if z < n {
        RemainingStays(enemyCount, n, z, n);
      }
    }
    /** `ReturnEnemyToPool`: without a pool nothing happens. Otherwise the
        enemy is taken out of the first list that holds it, in the order the
        rooms were first tracked, and the count of spawned enemies drops by
        one exactly when a list held it; the enemy then goes back to the
        pool, inactive. */
    method ReturnEnemyToPool(enemy: GameObject)
      requires Valid()
      modifies this`spawnedEnemiesByRoom, this`totalSpawnedEnemies, enemy`active
      modifies if enemyPool != null then {enemyPool} else {}
      ensures Valid() && roomOrder == old(roomOrder)
      ensures enemyPool == null ==>
        && spawnedEnemiesByRoom == old(spawnedEnemiesByRoom) && totalSpawnedEnemies == old(totalSpawnedEnemies)
        && enemy.active == old(enemy.active)
      ensures enemyPool != null ==> enemyPool.availableObjects == old(enemyPool.availableObjects) + [enemy] && !enemy.active
      ensures enemyPool != null && AllTracked(roomOrder, old(spawnedEnemiesByRoom)) ==>
        match FirstHolding(roomOrder, old(spawnedEnemiesByRoom), enemy, 0)
        case Some(i) =>
          var room := roomOrder[i];
          && spawnedEnemiesByRoom == old(spawnedEnemiesByRoom)[room := RemoveFirst(old(spawnedEnemiesByRoom)[room], enemy)]
          && totalSpawnedEnemies == old(totalSpawnedEnemies) - 1
        case None =>
          spawnedEnemiesByRoom == old(spawnedEnemiesByRoom) && totalSpawnedEnemies == old(totalSpawnedEnemies)
    {
      if enemyPool == null {
        return;
      }
      AllRoomsTracked();
      var removed := false;
      var i := 0;
      while i < |roomOrder|
        invariant 0 <= i <= |roomOrder|
        invariant spawnedEnemiesByRoom == old(spawnedEnemiesByRoom)
        invariant FirstHolding(roomOrder, spawnedEnemiesByRoom, enemy, 0) == FirstHolding(roomOrder, spawnedEnemiesByRoom, enemy, i)
      {
        var room := roomOrder[i];
        if enemy in spawnedEnemiesByRoom[room] {
          KeysKept(spawnedEnemiesByRoom, room, RemoveFirst(spawnedEnemiesByRoom[room], enemy));
          spawnedEnemiesByRoom := spawnedEnemiesByRoom[room := RemoveFirst(spawnedEnemiesByRoom[room], enemy)];
          removed := true;
          break;
        }
        i := i + 1;
      }
      if removed {
        totalSpawnedEnemies := totalSpawnedEnemies - 1;
      }
      enemyPool.ReturnObject(enemy);
    }

    /** Every room in the key order is tracked. */
    lemma AllRoomsTracked()
      requires Valid()
      ensures AllTracked(roomOrder, spawnedEnemiesByRoom)
    {
      assert forall i :: 0 <= i < |roomOrder| ==> roomOrder[i] in (set r | r in roomOrder);
    }

    /** `ActivateRoomEnemies`: every enemy listed for the room is set
        active. */
    method ActivateRoomEnemies(room: RoomSpawnPoints)
      modifies ListOf(spawnedEnemiesByRoom, room)
      ensures forall k :: 0 <= k < |ListOf(spawnedEnemiesByRoom, room)| ==> ListOf(spawnedEnemiesByRoom, room)[k].active
      ensures forall k :: 0 <= k < |ListOf(spawnedEnemiesByRoom, room)| ==>
        ListOf(spawnedEnemiesByRoom, room)[k].position == old(ListOf(spawnedEnemiesByRoom, room)[k].position)
    {
      if room in spawnedEnemiesByRoom && |spawnedEnemiesByRoom[room]| > 0 {
        var enemies := spawnedEnemiesByRoom[room];
        var i := 0;
        while i < |enemies|
          invariant 0 <= i <= |enemies|
          invariant forall k :: 0 <= k < i ==> enemies[k].active
          invariant forall k :: 0 <= k < |enemies| ==> enemies[k].position == old(enemies[k].position)
        {
          enemies[i].active := true;
          i := i + 1;
        }
      }
    }

    /** `DeactivateRoom`: every enemy listed for the room that is active is
        set inactive, so afterwards none of them is active. */
    method DeactivateRoom(room: RoomSpawnPoints)
      modifies ListOf(spawnedEnemiesByRoom, room)
      ensures forall k :: 0 <= k < |ListOf(spawnedEnemiesByRoom, room)| ==> !ListOf(spawnedEnemiesByRoom, room)[k].active
      ensures forall k :: 0 <= k < |ListOf(spawnedEnemiesByRoom, room)| ==>
        ListOf(spawnedEnemiesByRoom, room)[k].position == old(ListOf(spawnedEnemiesByRoom, room)[k].position)
    {
      if room in spawnedEnemiesByRoom {
        var enemies := spawnedEnemiesByRoom[room];
        var i := 0;
        while i < |enemies|
          invariant 0 <= i <= |enemies|
          invariant forall k :: 0 <= k < i ==> !enemies[k].active
          invariant forall k :: 0 <= k < |enemies| ==> enemies[k].position == old(enemies[k].position)
        {
          if enemies[i].active {
            enemies[i].active := false;
          }
          i := i + 1;
        }
      }
    }

    /** How many of `rooms` get an enemy count: those that are not skipped
        and have spawn zones. */
    function CountedRooms(rooms: seq<RoomSpawnPoints>): (r: nat)
      reads rooms
      ensures r <= |rooms|
    {
      if rooms == [] then 0
      else
        var room := rooms[|rooms| - 1];
        CountedRooms(rooms[..|rooms| - 1]) + (if !SkipsRoom(room) && |room.spawnZones| > 0 then 1 else 0)
    }

    /** The total `CalculateTotalEnemyCount` draws for `rooms`, and the next
        draw number: every counted room adds a count between the minimum
        and the maximum per room. */
    function DrawnTotal(rooms: seq<RoomSpawnPoints>, rand: nat -> nat, d0: nat): (r: (int, nat))
      reads rooms
      ensures r.1 == d0 + CountedRooms(rooms)
      ensures minEnemiesPerRoom * CountedRooms(rooms) <= r.0 <= maxEnemiesPerRoom * CountedRooms(rooms)
    {
      if rooms == [] then (0, d0)
      else
        var room := rooms[|rooms| - 1];
        var before := DrawnTotal(rooms[..|rooms| - 1], rand, d0);
        if !SkipsRoom(room) && |room.spawnZones| > 0 then
          (before.0 + RangeInt(rand, before.1, minEnemiesPerRoom, maxEnemiesPerRoom + 1), before.1 + 1)
        else
          before
    }

    /** The `foreach` of `CalculateTotalEnemyCount`: an enemy count is
        drawn for every room that is not skipped and has spawn zones, and
        the counts are summed. */
    method DrawTotal(allRooms: seq<RoomSpawnPoints>, rand: nat -> nat, d0: nat) returns (total: int, d: nat)
      ensures (total, d) == DrawnTotal(allRooms, rand, d0)
    {
      total, d := 0, d0;
      var i := 0;
      while i < |allRooms|
        invariant 0 <= i <= |allRooms|
        invariant (total, d) == DrawnTotal(allRooms[..i], rand, d0)
      {
        var room := allRooms[i];
        assert allRooms[..i + 1][..i] == allRooms[..i];
        if !(!isBossDungeon && IsStartRoom(room)) && |room.spawnZones| > 0 {
          total := total + RangeInt(rand, d, minEnemiesPerRoom, maxEnemiesPerRoom + 1);
          d := d + 1;
        }
        i := i + 1;
      }
      assert allRooms[..i] == allRooms;
    }

    /** `CalculateTotalEnemyCount`: the drawn total is kept as the
        dungeon's total and offered to the portal. */
    method CalculateTotalEnemyCount(allRooms: seq<RoomSpawnPoints>, rand: nat -> nat, d0: nat) returns (d: nat)
      modifies this`totalEnemiesInDungeon, this`hasRegisteredTotalWithPortal
      modifies if portal != null then {portal} else {}
      ensures (totalEnemiesInDungeon, d) == DrawnTotal(allRooms, rand, d0)
      ensures hasRegisteredTotalWithPortal == (old(hasRegisteredTotalWithPortal) || portal != null)
      ensures portal != null && !old(hasRegisteredTotalWithPortal) ==>
        portal.totalEnemies == totalEnemiesInDungeon && portal.killedEnemies == 0
      ensures portal != null && old(hasRegisteredTotalWithPortal) ==> unchanged(portal)
      ensures portal != null ==> portal.isPortalActive == old(portal.isPortalActive) && portal.visible == old(portal.visible)
    {
      totalEnemiesInDungeon, d := DrawTotal(allRooms, rand, d0);
      RegisterTotalEnemiesWithPortal();
    }

    /** `RegisterTotalEnemiesWithPortal`: the total is handed to the portal
        once; later calls, and calls without a portal, change nothing. */
    method RegisterTotalEnemiesWithPortal()
      modifies this`hasRegisteredTotalWithPortal
      modifies if portal != null then {portal} else {}
      ensures hasRegisteredTotalWithPortal == (old(hasRegisteredTotalWithPortal) || portal != null)
      ensures portal != null && !old(hasRegisteredTotalWithPortal) ==>
        portal.totalEnemies == totalEnemiesInDungeon && portal.killedEnemies == 0
      ensures portal != null && old(hasRegisteredTotalWithPortal) ==> unchanged(portal)
      ensures portal != null ==> portal.isPortalActive == old(portal.isPortalActive) && portal.visible == old(portal.visible)
    {
      if !hasRegisteredTotalWithPortal && portal != null {
        portal.RegisterTotalEnemyCount(totalEnemiesInDungeon);
        hasRegisteredTotalWithPortal := true;
      }
    }

    /** A room within activation distance of the player (distances are
        compared squared). */
    predicate Near(room: RoomSpawnPoints, player: Point) {
      SqDist(room.position, player) <= activationDistance * activationDistance
    }

    /** A room beyond deactivation distance of the player. */
    predicate Far(room: RoomSpawnPoints, player: Point) {
      SqDist(room.position, player) > deactivationDistance * deactivationDistance
    }

    /** A room the player's approach populates: near, not active yet,
        never populated, not skipped, and with set spawn zones. */
    predicate PopulatesOnVisit(room: RoomSpawnPoints, player: Point, active: set<RoomSpawnPoints>,
                               populated: set<RoomSpawnPoints>)
      reads room`spawnZones
    {
      Near(room, player) && room !in active && room !in populated && !SkipsRoom(room)
      && NonNullZones(room.spawnZones) != []
    }

    /** The rooms of `rooms` within activation distance of `player`,
        gathered in order. */
    function NearRooms(rooms: seq<RoomSpawnPoints>, player: Point): set<RoomSpawnPoints>
    {
      if rooms == [] then {}
      else
        var room := rooms[|rooms| - 1];
        NearRooms(rooms[..|rooms| - 1], player) + (if Near(room, player) then {room} else {})
    }

    /** Gathering one more room adds it when it is near. */
    lemma NearRoomsSnoc(rooms: seq<RoomSpawnPoints>, i: nat, player: Point)
      requires i < |rooms|
      ensures NearRooms(rooms[..i + 1], player)
              == NearRooms(rooms[..i], player) + (if Near(rooms[i], player) then {rooms[i]} else {})
    {
      assert rooms[..i + 1][..i] == rooms[..i];
    }

    /** Gathering the near rooms in order finds exactly the rooms of
        `rooms` within activation distance. */
    lemma {:induction false} NearRoomsExactly(rooms: seq<RoomSpawnPoints>, player: Point)
      ensures NearRooms(rooms, player) == set r | r in rooms && Near(r, player)
    {
      if rooms != [] {
        var n := |rooms| - 1;
        NearRoomsExactly(rooms[..n], player);
        assert rooms == rooms[..n] + [rooms[n]];
      }
    }

    /** The enemies listed for `rooms` in `m`, one list after another. */
    ghost function AllListed(rooms: seq<RoomSpawnPoints>, m: map<RoomSpawnPoints, seq<GameObject>>): seq<GameObject> {
      if rooms == [] then [] else AllListed(rooms[..|rooms| - 1], m) + ListOf(m, rooms[|rooms| - 1])
    }

    /** Each room's list is part of the lists of all the rooms. */
    lemma {:induction false} ListedIn(rooms: seq<RoomSpawnPoints>, m: map<RoomSpawnPoints, seq<GameObject>>, k: nat)
      requires k < |rooms|
      ensures forall e :: e in ListOf(m, rooms[k]) ==> e in AllListed(rooms, m)
    {
      var n := |rooms| - 1;
      if k < n {
        ListedIn(rooms[..n], m, k);
      }
    }

    /** One pass of the `foreach` in `UpdateActiveRooms`. A room within
        activation distance that was not active is populated when it never
        was, is not skipped and has spawn zones; a populated one has its
        enemies woken instead. An active room beyond deactivation distance
        has its enemies put to sleep. */
    method VisitRoom(room: RoomSpawnPoints, player: Point, rand: nat -> nat, roll: nat -> real,
                     navMesh: (Point, real, nat) -> Point, d0: nat)
      returns (d: nat, ghost taken: nat)
      requires Valid() && enemyPool != null
      modifies this`spawnedEnemiesByRoom, this`roomOrder, this`populatedRooms, this`totalSpawnedEnemies
      modifies room`isPopulated, enemyPool`availableObjects, enemyPool.availableObjects
      modifies ListOf(spawnedEnemiesByRoom, room)
      ensures Valid()
      ensures taken <= old(|enemyPool.availableObjects|)
      ensures enemyPool.availableObjects == old(enemyPool.availableObjects)[taken..]
      ensures old(populatedRooms) <= populatedRooms <= old(populatedRooms) + {room}
      ensures forall r :: r != room ==> ListOf(spawnedEnemiesByRoom, r) == ListOf(old(spawnedEnemiesByRoom), r)
      ensures PopulatesOnVisit(room, player, activeRooms, old(populatedRooms)) ==> room in populatedRooms
      ensures Near(room, player) && room !in activeRooms && room in old(populatedRooms) ==>
        forall k :: 0 <= k < |ListOf(spawnedEnemiesByRoom, room)| ==> ListOf(spawnedEnemiesByRoom, room)[k].active
      ensures Far(room, player) && room in activeRooms ==>
        forall k :: 0 <= k < |ListOf(spawnedEnemiesByRoom, room)| ==> !ListOf(spawnedEnemiesByRoom, room)[k].active
    {
      d, taken := d0, 0;
      if Near(room, player) {
        if room !in activeRooms {
          var shouldSkipRoom := !isBossDungeon && IsStartRoom(room);
          if room !in populatedRooms && !shouldSkipRoom && |room.spawnZones| > 0 {
            ghost var added;
            d, added, taken := PopulateRoom(room, rand, roll, navMesh, d);
          } else if room in populatedRooms && room in spawnedEnemiesByRoom {
            ActivateRoomEnemies(room);
          }
        }
      } else if Far(room, player) {
        if room in activeRooms {
          DeactivateRoom(room);
        }
      }
    }

    /** What the first `i` passes of `UpdateActiveRooms` promise about the
        populated rooms, the lists and the pool, from the state before the
        first pass (`active0`, `populated0`, `lists0`, `pool0`): the near
        rooms among them are gathered, those the approach populates are
        populated, only rooms of `allRooms` became populated, the rooms not
        visited yet are as they were, and the pool has only given enemies
        away. */
    ghost predicate Progress(allRooms: seq<RoomSpawnPoints>, i: nat, player: Point, nearSoFar: set<RoomSpawnPoints>,
                             active0: set<RoomSpawnPoints>, populated0: set<RoomSpawnPoints>,
                             lists0: map<RoomSpawnPoints, seq<GameObject>>, pool0: seq<GameObject>, taken: nat,
                             populated: set<RoomSpawnPoints>, lists: map<RoomSpawnPoints, seq<GameObject>>,
                             pool: seq<GameObject>)
      reads allRooms`spawnZones
    {
      && i <= |allRooms|
      && nearSoFar == NearRooms(allRooms[..i], player)
      && populated0 <= populated
      && (forall r :: r in populated && r !in populated0 ==> r in allRooms)
      && (forall k :: i <= k < |allRooms| ==> ListOf(lists, allRooms[k]) == ListOf(lists0, allRooms[k]))
      && (forall k :: i <= k < |allRooms| ==> (allRooms[k] in populated <==> allRooms[k] in populated0))
      && (forall k :: 0 <= k < i && PopulatesOnVisit(allRooms[k], player, active0, populated0) ==>
            allRooms[k] in populated)
      && taken <= |pool0| && pool == pool0[taken..]
    }

    /** One more pass keeps the promises, given what `VisitRoom` ensures
        about the room it visits. */
    lemma ProgressStep(allRooms: seq<RoomSpawnPoints>, i: nat, player: Point, nearSoFar: set<RoomSpawnPoints>,
                       active0: set<RoomSpawnPoints>, populated0: set<RoomSpawnPoints>,
                       lists0: map<RoomSpawnPoints, seq<GameObject>>, pool0: seq<GameObject>, taken: nat,
                       populated1: set<RoomSpawnPoints>, lists1: map<RoomSpawnPoints, seq<GameObject>>,
                       pool1: seq<GameObject>, step: nat,
                       populated2: set<RoomSpawnPoints>, lists2: map<RoomSpawnPoints, seq<GameObject>>)
      requires Distinct(allRooms) && i < |allRooms|
      requires Progress(allRooms, i, player, nearSoFar, active0, populated0, lists0, pool0, taken,
                        populated1, lists1, pool1)
      requires populated1 <= populated2 <= populated1 + {allRooms[i]}
      requires forall r :: r != allRooms[i] ==> ListOf(lists2, r) == ListOf(lists1, r)
      requires PopulatesOnVisit(allRooms[i], player, active0, populated1) ==> allRooms[i] in populated2
      requires step <= |pool1|
      ensures Progress(allRooms, i + 1, player,
                       nearSoFar + (if Near(allRooms[i], player) then {allRooms[i]} else {}),
                       active0, populated0, lists0, pool0, taken + step, populated2, lists2, pool1[step..])
    {
      assert forall k :: i + 1 <= k < |allRooms| ==> allRooms[k] != allRooms[i];
      DropTwice(pool0, taken, step);
      NearRoomsSnoc(allRooms, i, player);
    }

    /** `Progress` on this manager's state, with the active rooms left
        alone until the end. */
    ghost predicate Visited(allRooms: seq<RoomSpawnPoints>, i: nat, player: Point, nearSoFar: set<RoomSpawnPoints>,
                            active0: set<RoomSpawnPoints>, populated0: set<RoomSpawnPoints>,
                            lists0: map<RoomSpawnPoints, seq<GameObject>>, pool0: seq<GameObject>, taken: nat)
      reads this`roomOrder, this`spawnedEnemiesByRoom, this`populatedRooms, this`activeRooms, allRooms`spawnZones
      reads if enemyPool != null then {enemyPool} else {}
    {
      && Valid() && activeRooms == active0 && enemyPool != null
      && Progress(allRooms, i, player, nearSoFar, active0, populated0, lists0, pool0, taken,
                  populatedRooms, spawnedEnemiesByRoom, enemyPool.availableObjects)
    }

    /** Before the first pass nothing has been promised yet. */
    lemma VisitedNone(allRooms: seq<RoomSpawnPoints>, player: Point)
      requires Valid() && enemyPool != null
      ensures Visited(allRooms, 0, player, {}, activeRooms, populatedRooms, spawnedEnemiesByRoom,
                      enemyPool.availableObjects, 0)
    {
      assert allRooms[..0] == [];
      assert enemyPool.availableObjects[0..] == enemyPool.availableObjects;
    }

    /** After the last pass the promises cover every room. */
    lemma VisitedAll(allRooms: seq<RoomSpawnPoints>, player: Point, near: set<RoomSpawnPoints>,
                     active0: set<RoomSpawnPoints>, populated0: set<RoomSpawnPoints>,
                     lists0: map<RoomSpawnPoints, seq<GameObject>>, pool0: seq<GameObject>, taken: nat)
      requires Visited(allRooms, |allRooms|, player, near, active0, populated0, lists0, pool0, taken)
      ensures Valid() && enemyPool != null
      ensures near == set r | r in allRooms && Near(r, player)
      ensures populated0 <= populatedRooms
      ensures forall r :: r in populatedRooms && r !in populated0 ==> r in allRooms
      ensures forall r :: r in allRooms && PopulatesOnVisit(r, player, active0, populated0) ==> r in populatedRooms
      ensures |enemyPool.availableObjects| <= |pool0|
      ensures enemyPool.availableObjects == pool0[|pool0| - |enemyPool.availableObjects|..]
    {
      assert allRooms[..|allRooms|] == allRooms;
      NearRoomsExactly(allRooms, player);
    }

    /** The pass of `UpdateActiveRooms` over `allRooms[i]`. */
    method VisitNext(allRooms: seq<RoomSpawnPoints>, i: nat, player: Point, rand: nat -> nat, roll: nat -> real,
                     navMesh: (Point, real, nat) -> Point, d0: nat, nearSoFar: set<RoomSpawnPoints>,
                     ghost active0: set<RoomSpawnPoints>, ghost populated0: set<RoomSpawnPoints>,
                     ghost lists0: map<RoomSpawnPoints, seq<GameObject>>, ghost pool0: seq<GameObject>, ghost taken0: nat)
      returns (d: nat, near: set<RoomSpawnPoints>, ghost taken: nat)
      requires Distinct(allRooms) && i < |allRooms|
      requires Visited(allRooms, i, player, nearSoFar, active0, populated0, lists0, pool0, taken0)
      modifies this`spawnedEnemiesByRoom, this`roomOrder, this`populatedRooms, this`totalSpawnedEnemies
      modifies allRooms[i..i + 1]`isPopulated, enemyPool`availableObjects, set o | o in pool0
      modifies set e | e in ListOf(lists0, allRooms[i])
      ensures Visited(allRooms, i + 1, player, near, active0, populated0, lists0, pool0, taken)
    {
      var room := allRooms[i];
      assert forall o :: o in enemyPool.availableObjects ==> o in pool0;
      ghost var populated1, lists1, pool1 := populatedRooms, spawnedEnemiesByRoom, enemyPool.availableObjects;
      ghost var step;
      d, step := VisitRoom(room, player, rand, roll, navMesh, d0);
      ProgressStep(allRooms, i, player, nearSoFar, active0, populated0, lists0, pool0, taken0,
                   populated1, lists1, pool1, step, populatedRooms, spawnedEnemiesByRoom);
      taken := taken0 + step;
      near := nearSoFar + (if Near(room, player) then {room} else {});
    }

    /** `UpdateActiveRooms`: every room is visited once; afterwards the
        active rooms are exactly those within activation distance, and every
        such room that was inactive, never populated, not skipped and with
        spawn zones has been populated. */
    method UpdateActiveRooms(allRooms: seq<RoomSpawnPoints>, player: Point, rand: nat -> nat, roll: nat -> real,
                             navMesh: (Point, real, nat) -> Point, d0: nat)
      returns (d: nat)
      requires Valid() && enemyPool != null && Distinct(allRooms)
      modifies this`activeRooms, this`spawnedEnemiesByRoom, this`roomOrder, this`populatedRooms, this`totalSpawnedEnemies
      modifies allRooms`isPopulated, enemyPool`availableObjects, enemyPool.availableObjects
      modifies set e | e in AllListed(allRooms, spawnedEnemiesByRoom)
      ensures Valid()
      ensures activeRooms == set r | r in allRooms && Near(r, player)
      ensures old(populatedRooms) <= populatedRooms
      ensures forall r :: r in populatedRooms && r !in old(populatedRooms) ==> r in allRooms
      ensures forall r :: r in allRooms && PopulatesOnVisit(r, player, old(activeRooms), old(populatedRooms)) ==>
        r in populatedRooms
      ensures |enemyPool.availableObjects| <= old(|enemyPool.availableObjects|)
      ensures enemyPool.availableObjects == old(enemyPool.availableObjects)[old(|enemyPool.availableObjects|) - |enemyPool.availableObjects|..]
    {
      ghost var taken: nat := 0;
      var newActiveRooms := {};
      d := d0;
      var i := 0;
      VisitedNone(allRooms, player);
      while i < |allRooms|
        invariant i <= |allRooms|
        invariant Visited(allRooms, i, player, newActiveRooms, old(activeRooms), old(populatedRooms),
                          old(spawnedEnemiesByRoom), old(enemyPool.availableObjects), taken)
      {
        ListedIn(allRooms, old(spawnedEnemiesByRoom), i);
        d, newActiveRooms, taken := VisitNext(allRooms, i, player, rand, roll, navMesh, d, newActiveRooms, old(activeRooms),
                                              old(populatedRooms), old(spawnedEnemiesByRoom), old(enemyPool.availableObjects), taken);
        i := i + 1;
      }
      VisitedAll(allRooms, player, newActiveRooms, old(activeRooms), old(populatedRooms),
                 old(spawnedEnemiesByRoom), old(enemyPool.availableObjects), taken);
      activeRooms := newActiveRooms;
    }
  }
}
