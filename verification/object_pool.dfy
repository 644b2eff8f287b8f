/** `ObjectPool`: a first-in first-out queue of inactive game objects that
    are handed out again instead of being created anew. */
module ObjectPools {
  import opened Common

  class ObjectPool {
    const prefab: GameObject
    /** `availableObjects`, front first. */
    var availableObjects: seq<GameObject>

    /** The constructor: `initialSize` inactive copies of the prefab (none
        for a size below one), in creation order. */
    constructor (prefab: GameObject, initialSize: int)
      ensures this.prefab == prefab
      ensures |availableObjects| == Max(0, initialSize)
      ensures forall k :: 0 <= k < |availableObjects| ==> fresh(availableObjects[k]) && !availableObjects[k].active
      ensures forall j, k :: 0 <= j < k < |availableObjects| ==> availableObjects[j] != availableObjects[k]
    {
      this.prefab := prefab;
      availableObjects := [];
      new;
      var i := 0;
      while i < initialSize
        invariant 0 <= i && (i <= initialSize || i == 0)
        invariant |availableObjects| == i
        invariant forall k :: 0 <= k < |availableObjects| ==> fresh(availableObjects[k]) && !availableObjects[k].active
        invariant forall j, k :: 0 <= j < k < |availableObjects| ==> availableObjects[j] != availableObjects[k]
      {
        var obj := CreateNewObject();
        availableObjects := availableObjects + [obj];
        i := i + 1;
      }
    }

    /** `CreateNewObject`: an inactive copy of the prefab. */
    method CreateNewObject() returns (obj: GameObject)
      ensures fresh(obj) && !obj.active
      ensures obj.name == prefab.name && obj.position == prefab.position
    {
      obj := new GameObject(prefab.name, prefab.position, true);
      obj.active := false;
    }

    /** `GetObject`: the oldest queued object, or a new one when the queue
        is empty, placed at `position` and activated. */
    method GetObject(position: Point) returns (obj: GameObject)
      modifies this`availableObjects, if |availableObjects| > 0 then {availableObjects[0]} else {}
      ensures old(|availableObjects|) > 0 ==>
        obj == old(availableObjects[0]) && availableObjects == old(availableObjects[1..])
      ensures old(|availableObjects|) == 0 ==> fresh(obj) && availableObjects == []
      ensures obj.active && obj.position == position
      ensures old(|availableObjects|) > 0 ==> obj.name == old(availableObjects[0].name)
      ensures old(|availableObjects|) == 0 ==> obj.name == prefab.name
    {
      if |availableObjects| > 0 {
        obj := availableObjects[0];
        availableObjects := availableObjects[1..];
      } else {
        obj := CreateNewObject();
      }
      obj.position := position;
      obj.active := true;
    }

    /** `ReturnObject`: the object is deactivated and queued at the back. */
    method ReturnObject(obj: GameObject)
      modifies this`availableObjects, obj`active
      ensures !obj.active
      ensures availableObjects == old(availableObjects) + [obj]
    {
      obj.active := false;
      availableObjects := availableObjects + [obj];
    }

    /** `GetAllPooledObjects`: the queued objects, front first. */
    function GetAllPooledObjects(): (r: seq<GameObject>)
      reads this`availableObjects
      ensures |r| == |availableObjects|
      ensures forall k :: 0 <= k < |r| ==> r[k] == availableObjects[k]
    {
      availableObjects
    }
  }

  /** First in, first out: objects returned to an empty pool come back in
      the order they were returned. */
  method FirstInFirstOut(pool: ObjectPool, a: GameObject, b: GameObject, p: Point)
    returns (first: GameObject, second: GameObject)
    requires pool.availableObjects == [] && a != b
    modifies pool, a, b
    ensures first == a && second == b
    ensures first.active && second.active && pool.availableObjects == []
  {
    pool.ReturnObject(a);
    pool.ReturnObject(b);
    first := pool.GetObject(p);
    second := pool.GetObject(p);
  }
}
