/** Values shared by every component: an optional value standing for a C#
    reference that may be null, world positions and axis-aligned boxes with
    the two Unity operations the dungeon builder uses, the supplied random
    choice, integer powers of reals, and the engine's game objects. */
module Common {

  /** A C# reference that may be null. */
  datatype Option<T> = None | Some(value: T)

  /** A world-space position (Unity Vector3; floats are modelled as reals). */
  datatype Point = Point(x: real, y: real, z: real)

  function Add(p: Point, q: Point): Point {
    Point(p.x + q.x, p.y + q.y, p.z + q.z)
  }

  function Sub(p: Point, q: Point): Point {
    Point(p.x - q.x, p.y - q.y, p.z - q.z)
  }

  /** Squared Euclidean distance; `Vector3.Distance(p, q) < d` for d >= 0 is
      `SqDist(p, q) < d * d`, so no square root is needed. */
  function SqDist(p: Point, q: Point): (r: real)
    ensures r >= 0.0
  {
    (p.x - q.x) * (p.x - q.x) + (p.y - q.y) * (p.y - q.y) + (p.z - q.z) * (p.z - q.z)
  }

  /** An axis-aligned box given by its minimum and maximum corners (Unity Bounds). */
  datatype Box = Box(lo: Point, hi: Point)

  /** Unity's `Bounds.Expand(float amount)`: the SIZE grows by `amount`, so
      every face moves outwards by half of it. */
  function Expand(b: Box, amount: real): (r: Box)
    ensures r.lo == Sub(b.lo, Point(amount / 2.0, amount / 2.0, amount / 2.0))
    ensures r.hi == Add(b.hi, Point(amount / 2.0, amount / 2.0, amount / 2.0))
  {
    var h := Point(amount / 2.0, amount / 2.0, amount / 2.0);
    Box(Sub(b.lo, h), Add(b.hi, h))
  }

  /** Unity's `Bounds.Intersects`: the closed boxes share a point. */
  predicate Intersects(a: Box, b: Box) {
    && a.lo.x <= b.hi.x && a.hi.x >= b.lo.x
    && a.lo.y <= b.hi.y && a.hi.y >= b.lo.y
    && a.lo.z <= b.hi.z && a.hi.z >= b.lo.z
  }

  function TranslateBox(b: Box, d: Point): Box {
    Box(Add(b.lo, d), Add(b.hi, d))
  }

  /** `Random.Range(0, n)` for ints, answered by the supplied random stream at
      draw number `k`; Unity returns 0 for an empty range. */
  function Pick(rand: nat -> nat, k: nat, n: nat): (r: nat)
    ensures n > 0 ==> r < n
    ensures n == 0 ==> r == 0
  {
    if n == 0 then 0 else rand(k) % n
  }

  /** `Random.Range(lo, hi)` for ints (hi exclusive); the model answers `lo`
      when the range is empty. */
  function RangeInt(rand: nat -> nat, k: nat, lo: int, hi: int): (r: int)
    ensures lo < hi ==> lo <= r < hi
  {
    if lo < hi then lo + rand(k) % (hi - lo) else lo
  }

  function Min(a: int, b: int): int { if a <= b then a else b }

  function Max(a: int, b: int): int { if a >= b then a else b }

  function MinReal(a: real, b: real): real { if a <= b then a else b }

  function MaxReal(a: real, b: real): real { if a >= b then a else b }

  /** `Mathf.Pow(x, n)` for a natural exponent. */
  function Pow(x: real, n: nat): real {
    if n == 0 then 1.0 else x * Pow(x, n - 1)
  }

  /** An engine object: whether it is active in the scene, where it stands and
      its name. */
  class GameObject {
    var active: bool
    var position: Point
    var name: string

    constructor (name: string, position: Point, active: bool)
      ensures this.name == name && this.position == position && this.active == active
    {
      this.name := name;
      this.position := position;
      this.active := active;
    }
  }
}
