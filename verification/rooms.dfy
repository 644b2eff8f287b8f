/** A placeable dungeon module (room or hallway) and the three connector
    queries of `Room`. The queries only read the connectors' flags. */
module Rooms {
  import opened Common

  /** The role tag a module's spawn points carry. */
  datatype RoomType = Normal | Hallway | Boss

  /** A connection point: where it stands in the world and whether it is
      already joined to another module's connection point. */
  datatype Connector = Connector(position: Point, isConnected: bool)

  /** A module as the dungeon builder sees it: its role tag, its world
      bounding box (the result of `GetObjectBounds`) and its connection points
      in the order `GetComponentsInChildren` lists them. */
  datatype Module = Module(roleTag: RoomType, bounds: Box, connectors: seq<Connector>)

  predicate Increasing(s: seq<nat>) {
    forall i, j :: 0 <= i < j < |s| ==> s[i] < s[j]
  }

  /** `GetAllAvailableConnections`: the indices of the connectors that are not
      connected, in array order. */
  function AvailableConnections(cs: seq<Connector>): (r: seq<nat>)
    ensures forall k :: 0 <= k < |r| ==> r[k] < |cs| && !cs[r[k]].isConnected
    ensures forall i :: 0 <= i < |cs| && !cs[i].isConnected ==> i in r
    ensures Increasing(r)
  {
    if |cs| == 0 then []
    else
      var front := AvailableConnections(cs[..|cs| - 1]);
      if cs[|cs| - 1].isConnected then front else front + [|cs| - 1]
  }

  /** `GetAvailableConnectionCount`: how many connectors are not connected. */
  function AvailableConnectionCount(cs: seq<Connector>): nat {
    if |cs| == 0 then 0
    else AvailableConnectionCount(cs[..|cs| - 1]) + (if cs[|cs| - 1].isConnected then 0 else 1)
  }

  lemma {:induction false} CountIsLengthOfAvailable(cs: seq<Connector>)
    ensures AvailableConnectionCount(cs) == |AvailableConnections(cs)|
  {
    if |cs| > 0 {
      CountIsLengthOfAvailable(cs[..|cs| - 1]);
    }
  }

  /** The count is positive exactly when some connector is free. */
  lemma CountPositiveIffFree(cs: seq<Connector>)
    ensures AvailableConnectionCount(cs) > 0 <==> exists i :: 0 <= i < |cs| && !cs[i].isConnected
  {
    CountIsLengthOfAvailable(cs);
    var r := AvailableConnections(cs);
    if |r| > 0 {
      assert !cs[r[0]].isConnected;
    }
  }

  /** `GetAvailableConnection`: a free connector chosen by `Random.Range`
      (draw `choice`) among the free ones, or null when none is free. */
  function GetAvailableConnection(cs: seq<Connector>, choice: nat): (r: Option<nat>)
    ensures r.None? <==> forall i :: 0 <= i < |cs| ==> cs[i].isConnected
    ensures r.Some? ==> r.value < |cs| && !cs[r.value].isConnected
    ensures r.Some? ==> r.value in AvailableConnections(cs)
  {
    var available := AvailableConnections(cs);
    if |available| > 0 then Some(available[choice % |available|]) else None
  }
}
