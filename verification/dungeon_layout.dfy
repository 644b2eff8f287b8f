/** The value-level vocabulary of the dungeon builder: references to
    connection points of placed modules, the objects a layout owns, the
    alignment oracle, flag updates, and the specifications of the two passes
    of `CapUnusedConnections` (loop closure and capping). */
module DungeonLayout {
  import opened Common
  import opened Rooms

  /** A connection point of a placed module: arena index and connector index. */
  datatype ConnRef = ConnRef(id: nat, c: nat)

  /** What `allSpawnedObjects` records: a placed module, or a wall cap put on
      connector `connector` of module `owner`. */
  datatype SpawnedObject = ModuleObject(id: nat) | WallCap(owner: nat, connector: nat)

  /** How a module was attached: the connector of an earlier module it hangs
      off, and its own entry connector (bookkeeping for the proofs). */
  datatype Link = Link(parent: nat, parentConnector: nat, entry: nat)

  /** Two connection points closer than this are taken to close a loop. */
  const MergeDistance: real := 1.0

  /** `Bounds.Expand` amount applied to every placed module in the overlap test. */
  const OverlapMargin: real := 0.5

  predicate ValidRef(ms: seq<Module>, r: ConnRef) {
    r.id < |ms| && r.c < |ms[r.id].connectors|
  }

  predicate AllValid(ms: seq<Module>, pts: seq<ConnRef>) {
    forall k :: 0 <= k < |pts| ==> ValidRef(ms, pts[k])
  }

  function PosOf(ms: seq<Module>, r: ConnRef): Point
    requires ValidRef(ms, r)
  {
    ms[r.id].connectors[r.c].position
  }

  predicate IsConn(ms: seq<Module>, r: ConnRef)
    requires ValidRef(ms, r)
  {
    ms[r.id].connectors[r.c].isConnected
  }

  /** `Vector3.Distance(p, q) < 1f`. */
  predicate Near(p: Point, q: Point) {
    SqDist(p, q) < MergeDistance * MergeDistance
  }

  /** The alignment oracle standing for `AlignRoom`: the module is moved so
      that its entry connector lands on `target`; nothing else about it changes.
      The model moves by translation only (rotation is not modelled). */
  function Align(m: Module, entry: nat, target: Point): (r: Module)
    requires entry < |m.connectors|
    ensures r.roleTag == m.roleTag && |r.connectors| == |m.connectors|
    ensures forall k :: 0 <= k < |m.connectors| ==> r.connectors[k].isConnected == m.connectors[k].isConnected
    ensures r.connectors[entry].position == target
  {
    var d := Sub(target, m.connectors[entry].position);
    Module(m.roleTag, TranslateBox(m.bounds, d),
      seq(|m.connectors|, k requires 0 <= k < |m.connectors| =>
        Connector(Add(m.connectors[k].position, d), m.connectors[k].isConnected)))
  }

  /** `point.isConnected = true` on connector `c` of a module. */
  function MarkConnected(m: Module, c: nat): (r: Module)
    requires c < |m.connectors|
    ensures r.roleTag == m.roleTag && r.bounds == m.bounds && |r.connectors| == |m.connectors|
    ensures r.connectors[c].isConnected
    ensures forall k :: 0 <= k < |m.connectors| ==> r.connectors[k].position == m.connectors[k].position
    ensures forall k :: 0 <= k < |m.connectors| && k != c ==> r.connectors[k] == m.connectors[k]
  {
    m.(connectors := m.connectors[c := m.connectors[c].(isConnected := true)])
  }

  /** `point.isConnected = true` on a connector of a placed module. */
  function SetConnectedAt(ms: seq<Module>, r: ConnRef): (res: seq<Module>)
    requires ValidRef(ms, r)
    ensures |res| == |ms|
    ensures res[r.id] == MarkConnected(ms[r.id], r.c)
    ensures forall i :: 0 <= i < |ms| && i != r.id ==> res[i] == ms[i]
  {
    ms[r.id := MarkConnected(ms[r.id], r.c)]
  }

  /** `b` is `a` with some more connectors marked connected and nothing else changed. */
  ghost predicate FlagsOnlyRise(a: seq<Module>, b: seq<Module>) {
    && |a| == |b|
    && (forall i :: 0 <= i < |a| ==>
          b[i].roleTag == a[i].roleTag && b[i].bounds == a[i].bounds
          && |b[i].connectors| == |a[i].connectors|)
    && (forall i, k :: 0 <= i < |a| && 0 <= k < |a[i].connectors| && k < |b[i].connectors| ==>
          b[i].connectors[k].position == a[i].connectors[k].position
          && (a[i].connectors[k].isConnected ==> b[i].connectors[k].isConnected))
  }

  lemma SetConnectedRaises(ms: seq<Module>, r: ConnRef)
    requires ValidRef(ms, r)
    ensures FlagsOnlyRise(ms, SetConnectedAt(ms, r))
    ensures forall q :: ValidRef(ms, q) ==>
      (IsConn(SetConnectedAt(ms, r), q) <==> IsConn(ms, q) || q == r)
  {
  }

  lemma FlagsOnlyRiseTrans(a: seq<Module>, b: seq<Module>, c: seq<Module>)
    requires FlagsOnlyRise(a, b) && FlagsOnlyRise(b, c)
    ensures FlagsOnlyRise(a, c)
  {
  }

  lemma ValidRefStable(a: seq<Module>, b: seq<Module>, r: ConnRef)
    requires FlagsOnlyRise(a, b) && ValidRef(a, r)
    ensures ValidRef(b, r) && PosOf(b, r) == PosOf(a, r)
    ensures IsConn(a, r) ==> IsConn(b, r)
  {
  }

  /** One step of loop closure: point `i` and its first near successor, if
      any, are marked connected. */
  function CloseStep(ms: seq<Module>, pts: seq<ConnRef>, i: nat, partner: Option<nat>): seq<Module>
    requires AllValid(ms, pts) && i < |pts|
    requires partner.Some? ==> partner.value < |pts|
  {
    match partner
    case None => ms
    case Some(j) => SetConnectedAt(SetConnectedAt(ms, pts[i]), pts[j])
  }

  /** Loop closure after outer indices `0 .. i-1`: flags only rose from `ms0`,
      and exactly the marked points became connected. */
  ghost predicate ClosedUpTo(ms0: seq<Module>, ms: seq<Module>, pts: seq<ConnRef>, i: nat)
    requires AllValid(ms0, pts) && i <= |pts|
  {
    && FlagsOnlyRise(ms0, ms)
    && forall r :: ValidRef(ms0, r) ==>
         (IsConn(ms, r) <==> IsConn(ms0, r) || r in MarkedRefs(ms0, pts, i))
  }

  lemma {:induction false} CloseStepAdvances(ms0: seq<Module>, ms: seq<Module>, pts: seq<ConnRef>, i: nat)
    requires AllValid(ms0, pts) && i < |pts|
    requires ClosedUpTo(ms0, ms, pts, i)
    ensures AllValid(ms, pts)
    ensures FirstClose(ms, pts, i, i + 1) == FirstClose(ms0, pts, i, i + 1)
    ensures ClosedUpTo(ms0, CloseStep(ms, pts, i, FirstClose(ms0, pts, i, i + 1)), pts, i + 1)
  {
    PositionsStable(ms0, ms, pts);
    SameFirstClose(ms0, ms, pts, i, i + 1);
    var partner := FirstClose(ms0, pts, i, i + 1);
    if partner.Some? {
      MarkPairKeepsClosed(ms0, ms, pts, i, partner.value);
    } else {
      assert MarkedRefs(ms0, pts, i + 1) == MarkedRefs(ms0, pts, i);
    }
  }

  /** Rising flags move no connection point. */
  lemma {:induction false} PositionsStable(ms0: seq<Module>, ms: seq<Module>, pts: seq<ConnRef>)
    requires AllValid(ms0, pts) && FlagsOnlyRise(ms0, ms)
    ensures AllValid(ms, pts)
    ensures forall k :: 0 <= k < |pts| ==> PosOf(ms, pts[k]) == PosOf(ms0, pts[k])
  {
    forall k | 0 <= k < |pts|
      ensures ValidRef(ms, pts[k]) && PosOf(ms, pts[k]) == PosOf(ms0, pts[k])
    {
      ValidRefStable(ms0, ms, pts[k]);
    }
  }

  /** Marking outer point `i` and its partner `j` extends the closure by index `i`. */
  lemma {:induction false} MarkPairKeepsClosed(ms0: seq<Module>, ms: seq<Module>, pts: seq<ConnRef>, i: nat, j: nat)
    requires AllValid(ms0, pts) && AllValid(ms, pts) && i < |pts|
    requires FirstClose(ms0, pts, i, i + 1) == Some(j)
    requires ClosedUpTo(ms0, ms, pts, i)
    ensures ClosedUpTo(ms0, SetConnectedAt(SetConnectedAt(ms, pts[i]), pts[j]), pts, i + 1)
  {
    var m1 := SetConnectedAt(ms, pts[i]);
    SetConnectedRaises(ms, pts[i]);
    FlagsOnlyRiseTrans(ms0, ms, m1);
    ValidRefStable(ms, m1, pts[j]);
    var m2 := SetConnectedAt(m1, pts[j]);
    SetConnectedRaises(m1, pts[j]);
    FlagsOnlyRiseTrans(ms0, m1, m2);
    assert MarkedRefs(ms0, pts, i + 1) == MarkedRefs(ms0, pts, i) + {pts[i], pts[j]};
    forall r | ValidRef(ms0, r)
      ensures IsConn(m2, r) <==> IsConn(ms0, r) || r in MarkedRefs(ms0, pts, i + 1)
    {
      ValidRefStable(ms0, ms, r);
      ValidRefStable(ms, m1, r);
      assert IsConn(m2, r) <==> IsConn(ms, r) || r == pts[i] || r == pts[j];
    }
  }

  /** The scan sees the same positions whatever flags have risen meanwhile. */
  lemma {:induction false} SameFirstClose(a: seq<Module>, b: seq<Module>, pts: seq<ConnRef>, i: nat, j: nat)
    requires AllValid(a, pts) && AllValid(b, pts) && i < |pts| && j <= |pts|
    requires forall k :: 0 <= k < |pts| ==> PosOf(b, pts[k]) == PosOf(a, pts[k])
    ensures FirstClose(b, pts, i, j) == FirstClose(a, pts, i, j)
    decreases |pts| - j
  {
    if j < |pts| {
      SameFirstClose(a, b, pts, i, j + 1);
    }
  }

  /** The free connection points of one placed module, in array order. */
  function FreeRefsOf(ms: seq<Module>, id: nat): (r: seq<ConnRef>)
    requires id < |ms|
    ensures forall k :: 0 <= k < |r| ==> r[k].id == id && ValidRef(ms, r[k]) && !IsConn(ms, r[k])
    ensures forall c :: 0 <= c < |ms[id].connectors| && !ms[id].connectors[c].isConnected ==> ConnRef(id, c) in r
  {
    var a := AvailableConnections(ms[id].connectors);
    var r := seq(|a|, k requires 0 <= k < |a| => ConnRef(id, a[k]));
    assert forall c :: 0 <= c < |ms[id].connectors| && !ms[id].connectors[c].isConnected ==>
      exists k :: 0 <= k < |a| && a[k] == c && r[k] == ConnRef(id, c);
    r
  }

  /** The free connection points of the modules `ids`, module by module. */
  function FreeRefs(ms: seq<Module>, ids: seq<nat>): (r: seq<ConnRef>)
    requires forall k :: 0 <= k < |ids| ==> ids[k] < |ms|
    ensures forall k :: 0 <= k < |r| ==> ValidRef(ms, r[k]) && !IsConn(ms, r[k]) && r[k].id in ids
  {
    if |ids| == 0 then []
    else FreeRefs(ms, ids[..|ids| - 1]) + FreeRefsOf(ms, ids[|ids| - 1])
  }

  /** Every free connection point of the modules `ids` is collected. */
  lemma {:induction false} FreeRefsComplete(ms: seq<Module>, ids: seq<nat>, r: ConnRef)
    requires forall k :: 0 <= k < |ids| ==> ids[k] < |ms|
    requires r.id in ids && ValidRef(ms, r) && !IsConn(ms, r)
    ensures r in FreeRefs(ms, ids)
  {
    var last := ids[|ids| - 1];
    if r.id == last {
      assert r in FreeRefsOf(ms, last);
    } else {
      assert r.id in ids[..|ids| - 1] by {
        var k :| 0 <= k < |ids| && ids[k] == r.id;
        assert k < |ids| - 1;
        assert ids[..|ids| - 1][k] == r.id;
      }
      FreeRefsComplete(ms, ids[..|ids| - 1], r);
    }
  }

  lemma DropLastOfAppend(a: seq<nat>, b: seq<nat>)
    requires |b| > 0
    ensures (a + b)[..|a + b| - 1] == a + b[..|b| - 1]
    ensures (a + b)[|a + b| - 1] == b[|b| - 1]
  {
  }

  lemma FreeRefsUnfold(ms: seq<Module>, ids: seq<nat>)
    requires forall k :: 0 <= k < |ids| ==> ids[k] < |ms|
    requires |ids| > 0
    ensures FreeRefs(ms, ids) == FreeRefs(ms, ids[..|ids| - 1]) + FreeRefsOf(ms, ids[|ids| - 1])
  {
  }

  lemma AppendAssoc<T>(x: seq<T>, y: seq<T>, z: seq<T>)
    ensures (x + y) + z == x + (y + z)
  {
  }

  lemma {:induction false} FreeRefsAppend(ms: seq<Module>, a: seq<nat>, b: seq<nat>)
    requires forall k :: 0 <= k < |a| ==> a[k] < |ms|
    requires forall k :: 0 <= k < |b| ==> b[k] < |ms|
    ensures FreeRefs(ms, a + b) == FreeRefs(ms, a) + FreeRefs(ms, b)
  {
    if |b| > 0 {
      var front := b[..|b| - 1];
      var last := b[|b| - 1];
      DropLastOfAppend(a, b);
      FreeRefsUnfold(ms, a + b);
      FreeRefsUnfold(ms, b);
      FreeRefsAppend(ms, a, front);
      AppendAssoc(FreeRefs(ms, a), FreeRefs(ms, front), FreeRefsOf(ms, last));
    } else {
      assert a + b == a;
    }
  }

  /** The first index `j' >= j` whose point lies near point `i`: the inner
      scan of loop closure, which stops at the first match. */
  function FirstClose(ms: seq<Module>, pts: seq<ConnRef>, i: nat, j: nat): (r: Option<nat>)
    requires AllValid(ms, pts) && i < |pts| && j <= |pts|
    ensures r.Some? ==> j <= r.value < |pts| && Near(PosOf(ms, pts[i]), PosOf(ms, pts[r.value]))
    ensures r.Some? ==> forall k :: j <= k < r.value ==> !Near(PosOf(ms, pts[i]), PosOf(ms, pts[k]))
    ensures r.None? ==> forall k :: j <= k < |pts| ==> !Near(PosOf(ms, pts[i]), PosOf(ms, pts[k]))
    decreases |pts| - j
  {
    if j == |pts| then None
    else if Near(PosOf(ms, pts[i]), PosOf(ms, pts[j])) then Some(j)
    else FirstClose(ms, pts, i, j + 1)
  }

  /** The points the loop-closure scan has marked connected after handling
      outer indices `0 .. n-1`: each outer point with a near successor, and
      that successor. */
  function MarkedRefs(ms: seq<Module>, pts: seq<ConnRef>, n: nat): set<ConnRef>
    requires AllValid(ms, pts) && n <= |pts|
  {
    if n == 0 then {}
    else
      var prev := MarkedRefs(ms, pts, n - 1);
      match FirstClose(ms, pts, n - 1, n)
      case None => prev
      case Some(j) => prev + {pts[n - 1], pts[j]}
  }

  /** Outer point `i` has a near later point, and `r` is it or its first such partner. */
  predicate PairedBy(ms: seq<Module>, pts: seq<ConnRef>, i: nat, r: ConnRef) {
    && AllValid(ms, pts) && i < |pts|
    && var partner := FirstClose(ms, pts, i, i + 1);
       partner.Some? && (r == pts[i] || r == pts[partner.value])
  }

  /** Outer index `n - 1` adds exactly the points it pairs. */
  lemma MarkedRefsStep(ms: seq<Module>, pts: seq<ConnRef>, n: nat, r: ConnRef)
    requires AllValid(ms, pts) && 0 < n <= |pts|
    ensures r in MarkedRefs(ms, pts, n) <==> r in MarkedRefs(ms, pts, n - 1) || PairedBy(ms, pts, n - 1, r)
  {
  }

  /** Loop closure marks exactly the outer points that have a near later
      point, together with the first such point of each. */
  lemma {:induction false} MarkedRefsExactly(ms: seq<Module>, pts: seq<ConnRef>, n: nat, r: ConnRef)
    requires AllValid(ms, pts) && n <= |pts|
    ensures r in MarkedRefs(ms, pts, n) <==> exists i :: 0 <= i < n && PairedBy(ms, pts, i, r)
  {
    if n > 0 {
      MarkedRefsExactly(ms, pts, n - 1, r);
      MarkedRefsStep(ms, pts, n, r);
      if r in MarkedRefs(ms, pts, n - 1) {
        var i :| 0 <= i < n - 1 && PairedBy(ms, pts, i, r);
        assert 0 <= i < n && PairedBy(ms, pts, i, r);
      } else if PairedBy(ms, pts, n - 1, r) {
        assert 0 <= n - 1 < n;
      } else {
        forall i | 0 <= i < n
          ensures !PairedBy(ms, pts, i, r)
        {
        }
      }
    }
  }

  /** Three connection points in a row, 0.6 apart, on one module. */
  function ChainModule(): Module {
    Module(Normal, Box(Point(0.0, 0.0, 0.0), Point(0.0, 0.0, 0.0)),
           [Connector(Point(0.0, 0.0, 0.0), false), Connector(Point(0.6, 0.0, 0.0), false),
            Connector(Point(1.2, 0.0, 0.0), false)])
  }

  function ChainPoints(): seq<ConnRef> {
    [ConnRef(0, 0), ConnRef(0, 1), ConnRef(0, 2)]
  }

  /** A point already marked as an earlier point's partner is scanned again
      as an outer point and can pair once more: all three points of the row
      end up marked although the outer two are 1.2 apart. */
  lemma PartnerPairsAgainAsOuterPoint()
    ensures FirstClose([ChainModule()], ChainPoints(), 0, 1) == Some(1)
    ensures FirstClose([ChainModule()], ChainPoints(), 1, 2) == Some(2)
    ensures !Near(PosOf([ChainModule()], ChainPoints()[0]), PosOf([ChainModule()], ChainPoints()[2]))
    ensures MarkedRefs([ChainModule()], ChainPoints(), 3) == {ConnRef(0, 0), ConnRef(0, 1), ConnRef(0, 2)}
  {
    var ms, pts := [ChainModule()], ChainPoints();
    assert PosOf(ms, pts[0]) == Point(0.0, 0.0, 0.0);
    assert PosOf(ms, pts[1]) == Point(0.6, 0.0, 0.0);
    assert PosOf(ms, pts[2]) == Point(1.2, 0.0, 0.0);
    assert Near(PosOf(ms, pts[0]), PosOf(ms, pts[1]));
    assert Near(PosOf(ms, pts[1]), PosOf(ms, pts[2]));
    assert FirstClose(ms, pts, 0, 1) == Some(1);
    assert FirstClose(ms, pts, 1, 2) == Some(2);
    assert FirstClose(ms, pts, 2, 3) == None;
    assert MarkedRefs(ms, pts, 1) == {pts[0], pts[1]};
    assert MarkedRefs(ms, pts, 2) == {pts[0], pts[1], pts[2]};
  }

  /** The wall caps `CapRoomConnections` puts on module `id`: one per
      connector that is not connected, in array order. */
  function CapsFor(id: nat, cs: seq<Connector>): (r: seq<SpawnedObject>)
    ensures forall k :: 0 <= k < |r| ==> r[k].WallCap? && r[k].owner == id && r[k].connector < |cs|
  {
    if |cs| == 0 then []
    else CapsFor(id, cs[..|cs| - 1]) + (if cs[|cs| - 1].isConnected then [] else [WallCap(id, |cs| - 1)])
  }

  /** Each free connector of the module receives exactly one cap, a connected
      one none, and no other module's connector any. */
  lemma {:induction false} CapsForCount(id: nat, cs: seq<Connector>, o: SpawnedObject)
    ensures multiset(CapsFor(id, cs))[o] ==
      if o.WallCap? && o.owner == id && o.connector < |cs| && !cs[o.connector].isConnected then 1 else 0
  {
    if |cs| > 0 {
      CapsForCount(id, cs[..|cs| - 1], o);
    }
  }

  /** The caps `CapUnusedConnections` puts on the modules `ids`, in order. */
  function CapsOfAll(ms: seq<Module>, ids: seq<nat>): seq<SpawnedObject>
    requires forall k :: 0 <= k < |ids| ==> ids[k] < |ms|
  {
    if |ids| == 0 then []
    else CapsOfAll(ms, ids[..|ids| - 1]) + CapsFor(ids[|ids| - 1], ms[ids[|ids| - 1]].connectors)
  }

  lemma CapsOfAllUnfold(ms: seq<Module>, ids: seq<nat>)
    requires forall k :: 0 <= k < |ids| ==> ids[k] < |ms|
    requires |ids| > 0
    ensures CapsOfAll(ms, ids) == CapsOfAll(ms, ids[..|ids| - 1]) + CapsFor(ids[|ids| - 1], ms[ids[|ids| - 1]].connectors)
  {
  }

  lemma {:induction false} CapsOfAllAppend(ms: seq<Module>, a: seq<nat>, b: seq<nat>)
    requires forall k :: 0 <= k < |a| ==> a[k] < |ms|
    requires forall k :: 0 <= k < |b| ==> b[k] < |ms|
    ensures CapsOfAll(ms, a + b) == CapsOfAll(ms, a) + CapsOfAll(ms, b)
  {
    if |b| > 0 {
      var front := b[..|b| - 1];
      var last := b[|b| - 1];
      DropLastOfAppend(a, b);
      CapsOfAllUnfold(ms, a + b);
      CapsOfAllUnfold(ms, b);
      CapsOfAllAppend(ms, a, front);
      AppendAssoc(CapsOfAll(ms, a), CapsOfAll(ms, front), CapsFor(last, ms[last].connectors));
    } else {
      assert a + b == a;
    }
  }

  lemma SplitLast(s: seq<nat>)
    requires |s| > 0
    ensures s == s[..|s| - 1] + [s[|s| - 1]]
  {
  }

  predicate Distinct(s: seq<nat>) {
    forall i, j :: 0 <= i < j < |s| ==> s[i] != s[j]
  }

  /** Over modules listed once each, every free connector gets one cap and
      every connected one none. */
  lemma {:induction false} CapsOfAllCount(ms: seq<Module>, ids: seq<nat>, o: SpawnedObject)
    requires forall k :: 0 <= k < |ids| ==> ids[k] < |ms|
    requires Distinct(ids)
    ensures multiset(CapsOfAll(ms, ids))[o] ==
      if o.WallCap? && o.owner in ids && o.connector < |ms[o.owner].connectors|
         && !ms[o.owner].connectors[o.connector].isConnected then 1 else 0
  {
    if |ids| > 0 {
      var front := ids[..|ids| - 1];
      var last := ids[|ids| - 1];
      var capsFront := CapsOfAll(ms, front);
      var capsLast := CapsFor(last, ms[last].connectors);
      assert Distinct(front);
      CapsOfAllCount(ms, front, o);
      CapsForCount(last, ms[last].connectors, o);
      assert CapsOfAll(ms, ids) == capsFront + capsLast;
      assert multiset(capsFront + capsLast)[o] == multiset(capsFront)[o] + multiset(capsLast)[o];
      SplitLast(ids);
      assert o.WallCap? ==> (o.owner in ids <==> o.owner in front || o.owner == last);
      if o.WallCap? && o.owner == last {
        assert o.owner !in front;
      }
    }
  }

  /** Module `j` hangs off connector `l.parentConnector` of an earlier module
      `l.parent`: both connectors are connected and coincide. */
  predicate LinkHolds(ms: seq<Module>, j: nat, l: Link) {
    && l.parent < j < |ms|
    && l.parentConnector < |ms[l.parent].connectors|
    && l.entry < |ms[j].connectors|
    && ms[l.parent].connectors[l.parentConnector].isConnected
    && ms[j].connectors[l.entry].isConnected
    && ms[l.parent].connectors[l.parentConnector].position == ms[j].connectors[l.entry].position
  }

  /** Modules `a` and `b` are joined by a pair of coinciding connected connectors. */
  predicate Joined(ms: seq<Module>, a: nat, b: nat) {
    && a < |ms| && b < |ms|
    && exists ca, cb :: 0 <= ca < |ms[a].connectors| && 0 <= cb < |ms[b].connectors|
         && ms[a].connectors[ca].isConnected && ms[b].connectors[cb].isConnected
         && ms[a].connectors[ca].position == ms[b].connectors[cb].position
  }

  /** A chain of joined modules from the start module 0 to `path`'s last module. */
  predicate ChainFromStart(ms: seq<Module>, path: seq<nat>) {
    && |path| > 0 && path[0] == 0
    && forall k :: 0 <= k < |path| - 1 ==> Joined(ms, path[k], path[k + 1])
  }

  /** With every module after the first attached to an earlier one, every
      module is reachable from the start module. */
  lemma {:induction false} ReachableFromStart(ms: seq<Module>, parents: seq<Link>, j: nat) returns (path: seq<nat>)
    requires |parents| == |ms| && j < |ms|
    requires forall i :: 1 <= i < |ms| ==> LinkHolds(ms, i, parents[i])
    ensures ChainFromStart(ms, path) && path[|path| - 1] == j
    decreases j
  {
    if j == 0 {
      path := [0];
    } else {
      var l := parents[j];
      assert LinkHolds(ms, j, l);
      var front := ReachableFromStart(ms, parents, l.parent);
      assert Joined(ms, l.parent, j) by {
        assert ms[l.parent].connectors[l.parentConnector].isConnected;
        assert ms[j].connectors[l.entry].isConnected;
      }
      path := front + [j];
      forall k | 0 <= k < |path| - 1
        ensures Joined(ms, path[k], path[k + 1])
      {
        if k < |front| - 1 {
          assert path[k] == front[k] && path[k + 1] == front[k + 1];
        } else {
          assert path[k] == l.parent && path[k + 1] == j;
        }
      }
    }
  }

  /** The rooms among `ids` that still have a free connector, in order
      (`spawnedRooms.FindAll(room => room.GetAvailableConnectionCount() > 0)`). */
  function WithFreeConnectors(ms: seq<Module>, ids: seq<nat>): (r: seq<nat>)
    requires forall k :: 0 <= k < |ids| ==> ids[k] < |ms|
    ensures forall k :: 0 <= k < |r| ==>
      r[k] in ids && r[k] < |ms| && AvailableConnectionCount(ms[r[k]].connectors) > 0
    ensures forall id :: id in ids && AvailableConnectionCount(ms[id].connectors) > 0 ==> id in r
  {
    if |ids| == 0 then []
    else
      var front := WithFreeConnectors(ms, ids[..|ids| - 1]);
      var last := ids[|ids| - 1];
      assert forall id :: id in ids ==> id in ids[..|ids| - 1] || id == last;
      if AvailableConnectionCount(ms[last].connectors) > 0 then front + [last] else front
  }
}
