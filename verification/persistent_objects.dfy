/** `PersistentObjectManager`: the single manager that instantiates the
    scene-independent objects once and hands them out by name. */
module PersistentObjects {
  import opened Common

  /** The name an instantiated persistent object is given. */
  function PersistentName(name: string): (r: string)
    ensures |r| == |name| + 11 && r[11..] == name
  {
    "PERSISTENT_" + name
  }

  /** The name one registration adds: none when its prefab is unassigned. */
  function NameIf(name: string, prefab: GameObject?): (r: set<string>)
    ensures r == {} || r == {name}
    ensures name in r <==> prefab != null
  {
    if prefab != null then {name} else {}
  }

  /** The names a list of registrations, made in order, registers: those
      whose prefab is assigned. */
  function RegisteredNames(prefabs: seq<(string, GameObject?)>): (r: set<string>)
    ensures forall n :: n in r <==> exists i :: 0 <= i < |prefabs| && prefabs[i].0 == n && prefabs[i].1 != null
  {
    if prefabs == [] then {}
    else
      var last := |prefabs| - 1;
      var earlier := RegisteredNames(prefabs[..last]);
      assert forall i :: 0 <= i < last ==> prefabs[..last][i] == prefabs[i];
      earlier + NameIf(prefabs[last].0, prefabs[last].1)
  }

  lemma RegisteredNamesSnoc(ps: seq<(string, GameObject?)>, j: nat)
    requires j < |ps|
    ensures RegisteredNames(ps[..j + 1]) == RegisteredNames(ps[..j]) + NameIf(ps[j].0, ps[j].1)
  {
    assert ps[..j + 1][..j] == ps[..j];
  }

  /** The names registered by eight registrations made one after the other. */
  lemma RegisteredEight(ps: seq<(string, GameObject?)>, registered: set<string>)
    requires |ps| == 8
    requires registered ==
      {} + NameIf(ps[0].0, ps[0].1) + NameIf(ps[1].0, ps[1].1)
      + NameIf(ps[2].0, ps[2].1) + NameIf(ps[3].0, ps[3].1)
      + NameIf(ps[4].0, ps[4].1) + NameIf(ps[5].0, ps[5].1)
      + NameIf(ps[6].0, ps[6].1) + NameIf(ps[7].0, ps[7].1)
    ensures registered == RegisteredNames(ps)
  {
    assert ps[..0] == [];
    RegisteredNamesSnoc(ps, 0);
    RegisteredNamesSnoc(ps, 1);
    RegisteredNamesSnoc(ps, 2);
    RegisteredNamesSnoc(ps, 3);
    RegisteredNamesSnoc(ps, 4);
    RegisteredNamesSnoc(ps, 5);
    RegisteredNamesSnoc(ps, 6);
    RegisteredNamesSnoc(ps, 7);
    assert ps[..8] == ps;
  }

  class PersistentObjectManager {
    const mainCameraPrefab: GameObject?
    const cinemachineCameraPrefab: GameObject?
    const canvasPrefab: GameObject?
    const uiManagerPrefab: GameObject?
    const playerStatManagerPrefab: GameObject?
    const teleportingPortalPrefab: GameObject?
    const dungeonProgressManagerPrefab: GameObject?
    const pauseManagerPrefab: GameObject?
    var persistentObjects: map<string, GameObject>
    var initialized: bool

    /** The eight registrations, in the order they are made. */
    function Prefabs(): (r: seq<(string, GameObject?)>)
      ensures |r| == 8
      ensures forall i, j :: 0 <= i < j < |r| ==> r[i].0 != r[j].0
    {
      [("MainCamera", mainCameraPrefab),
       ("CinemachineCamera", cinemachineCameraPrefab),
       ("CanvasScreenSpace", canvasPrefab),
       ("UIManager", uiManagerPrefab),
       ("PlayerStatManager", playerStatManagerPrefab),
       ("TeleportingPortal", teleportingPortalPrefab),
       ("DungeonProgressManager", dungeonProgressManagerPrefab),
       ("PauseManager", pauseManagerPrefab)]
    }

    /** Every registered instance carries its persistent name. */
    ghost predicate WellNamed()
      reads this, persistentObjects.Values
    {
      forall k :: k in persistentObjects ==> persistentObjects[k].name == PersistentName(k)
    }

    /** Before initialisation nothing is registered; afterwards exactly the
        assigned prefabs are. */
    ghost predicate Valid()
      reads this, persistentObjects.Values
    {
      && persistentObjects.Keys == (if initialized then RegisteredNames(Prefabs()) else {})
      && WellNamed()
    }

    constructor (mainCameraPrefab: GameObject?, cinemachineCameraPrefab: GameObject?,
                 canvasPrefab: GameObject?, uiManagerPrefab: GameObject?,
                 playerStatManagerPrefab: GameObject?, teleportingPortalPrefab: GameObject?,
                 dungeonProgressManagerPrefab: GameObject?, pauseManagerPrefab: GameObject?)
      ensures Valid() && !initialized && persistentObjects == map[]
      ensures this.mainCameraPrefab == mainCameraPrefab && this.cinemachineCameraPrefab == cinemachineCameraPrefab
      ensures this.canvasPrefab == canvasPrefab && this.uiManagerPrefab == uiManagerPrefab
      ensures this.playerStatManagerPrefab == playerStatManagerPrefab
      ensures this.teleportingPortalPrefab == teleportingPortalPrefab
      ensures this.dungeonProgressManagerPrefab == dungeonProgressManagerPrefab
      ensures this.pauseManagerPrefab == pauseManagerPrefab
    {
      this.mainCameraPrefab := mainCameraPrefab;
      this.cinemachineCameraPrefab := cinemachineCameraPrefab;
      this.canvasPrefab := canvasPrefab;
      this.uiManagerPrefab := uiManagerPrefab;
      this.playerStatManagerPrefab := playerStatManagerPrefab;
      this.teleportingPortalPrefab := teleportingPortalPrefab;
      this.dungeonProgressManagerPrefab := dungeonProgressManagerPrefab;
      this.pauseManagerPrefab := pauseManagerPrefab;
      persistentObjects := map[];
      initialized := false;
    }

    /** `CreatePersistent`: an unassigned prefab is skipped (with a
        warning); otherwise a fresh copy of it, renamed, is registered under
        `name`, replacing any earlier registration. */
    method CreatePersistent(name: string, prefab: GameObject?)
      requires WellNamed()
      modifies this`persistentObjects
      ensures WellNamed()
      ensures persistentObjects.Keys == old(persistentObjects.Keys) + NameIf(name, prefab)
      ensures prefab == null ==> persistentObjects == old(persistentObjects)
      ensures prefab != null ==>
        && name in persistentObjects
        && persistentObjects == old(persistentObjects)[name := persistentObjects[name]]
        && fresh(persistentObjects[name])
        && persistentObjects[name].name == PersistentName(name)
        && persistentObjects[name].position == prefab.position
        && persistentObjects[name].active == prefab.active
    {
      if prefab == null {
        return;
      }
      var obj := new GameObject(prefab.name, prefab.position, prefab.active);
      obj.name := PersistentName(name);
      persistentObjects := persistentObjects[name := obj];
    }

    /** `InitializePersistentObjects`: the eight registrations, made once. */
    method InitializePersistentObjects()
      requires Valid()
      modifies this`persistentObjects, this`initialized
      ensures Valid() && initialized
      ensures old(initialized) ==> persistentObjects == old(persistentObjects)
    {
      if initialized {
        return;
      }
      ghost var registered: set<string> := {};
      CreatePersistent("MainCamera", mainCameraPrefab);
      registered := registered + NameIf("MainCamera", mainCameraPrefab);
      CreatePersistent("CinemachineCamera", cinemachineCameraPrefab);
      registered := registered + NameIf("CinemachineCamera", cinemachineCameraPrefab);
      CreatePersistent("CanvasScreenSpace", canvasPrefab);
      registered := registered + NameIf("CanvasScreenSpace", canvasPrefab);
      CreatePersistent("UIManager", uiManagerPrefab);
      registered := registered + NameIf("UIManager", uiManagerPrefab);
      CreatePersistent("PlayerStatManager", playerStatManagerPrefab);
      registered := registered + NameIf("PlayerStatManager", playerStatManagerPrefab);
      CreatePersistent("TeleportingPortal", teleportingPortalPrefab);
      registered := registered + NameIf("TeleportingPortal", teleportingPortalPrefab);
      CreatePersistent("DungeonProgressManager", dungeonProgressManagerPrefab);
      registered := registered + NameIf("DungeonProgressManager", dungeonProgressManagerPrefab);
      CreatePersistent("PauseManager", pauseManagerPrefab);
      registered := registered + NameIf("PauseManager", pauseManagerPrefab);
      RegisteredEight(Prefabs(), registered);
      initialized := true;
    }

    /** `GetPersistentObject`: the instance registered under `name`, or
        null when there is none. */
    function GetPersistentObject(name: string): (r: GameObject?)
      reads this
      ensures r == null <==> name !in persistentObjects
      ensures r != null ==> r == persistentObjects[name]
    {
      if name in persistentObjects then persistentObjects[name] else null
    }
  }

  /** After initialisation a name finds an object exactly when it is one of
      the eight and its prefab was assigned; the object found is the
      renamed copy. */
  lemma LookupAfterInitialization(m: PersistentObjectManager, name: string)
    requires m.Valid() && m.initialized
    ensures m.GetPersistentObject(name) != null <==>
      exists i :: 0 <= i < 8 && m.Prefabs()[i].0 == name && m.Prefabs()[i].1 != null
    ensures m.GetPersistentObject(name) != null ==> m.GetPersistentObject(name).name == PersistentName(name)
  {
  }

  /** Since each instance is named after its key, no instance is
      registered under two names. */
  lemma DistinctInstances(m: PersistentObjectManager, a: string, b: string)
    requires m.WellNamed() && a in m.persistentObjects && b in m.persistentObjects && a != b
    ensures m.persistentObjects[a] != m.persistentObjects[b]
  {
  }

  /** The scene's single manager slot (`Instance`). */
  class ManagerSlot {
    var instance: PersistentObjectManager?
    var destroyed: set<PersistentObjectManager>

    constructor ()
      ensures instance == null && destroyed == {}
    {
      instance := null;
      destroyed := {};
    }

    /** `Awake`: a second manager destroys itself; the first becomes the
        instance and initialises its objects. */
    method Awake(m: PersistentObjectManager)
      requires m.Valid()
      modifies this, m`persistentObjects, m`initialized
      ensures old(instance) != null ==>
        instance == old(instance) && destroyed == old(destroyed) + {m}
        && unchanged(m)
      ensures old(instance) == null ==>
        instance == m && destroyed == old(destroyed) && m.Valid() && m.initialized
    {
      if instance != null {
        destroyed := destroyed + {m};
        return;
      }
      instance := m;
      m.InitializePersistentObjects();
    }
  }
}
