/** `TomeController`: the three equipped tome instances, the active slot
    and the global damage bonus. Each slot holds an instance (a value: the
    engine instantiates a fresh object per equip, so no two slots share one)
    or nothing. Instances carry the fields the controller and the upgrades
    touch; an instance's `active` flag stands for its game object's active
    state. */
module TomeControllers {
  import opened Common
  import opened TomeTypes

  /** The concrete `Tome` subclass of an instance. */
  datatype TomeKind = Blank | Fireball | Meteorite | IceHail

  datatype TomeState = TomeState(
    tomeType: TomeType,
    kind: TomeKind,
    active: bool,
    damageMultiplier: real,
    projectileSpeed: real,
    scaleMultiplier: real,
    impactRadiusMultiplier: real,
    burnDamagePerSecond: real)

  const SlotCount: nat := 3

  predicate IsSlot(i: int) {
    0 <= i < SlotCount
  }

  /** `Mathf.Clamp` on ints. */
  function Clamp(v: int, lo: int, hi: int): (r: int)
    requires lo <= hi
    ensures lo <= r <= hi
    ensures lo <= v <= hi ==> r == v
    ensures v < lo ==> r == lo
    ensures v > hi ==> r == hi
  {
    if v < lo then lo else if v > hi then hi else v
  }

  predicate Holds(s: Option<TomeState>, t: TomeType) {
    s.Some? && s.value.tomeType == t
  }

  /** How many of the three slots hold an instance of type `t`. */
  function CountOf(slots: seq<Option<TomeState>>, t: TomeType): nat
    requires |slots| == SlotCount
  {
    (if Holds(slots[0], t) then 1 else 0) + (if Holds(slots[1], t) then 1 else 0)
      + (if Holds(slots[2], t) then 1 else 0)
  }

  /** Every equipped instance is active exactly when it sits in the active slot. */
  predicate ActiveConsistent(slots: seq<Option<TomeState>>, activeIndex: int)
    requires |slots| == SlotCount
  {
    forall i :: 0 <= i < SlotCount && slots[i].Some? ==> (slots[i].value.active <==> i == activeIndex)
  }

  /** A fresh instance of `prefab` put into `slot`: active iff the slot is
      the active one, with the global bonus added to its damage multiplier. */
  function Instantiated(prefab: TomeState, slot: int, activeIndex: int, bonus: real): TomeState {
    prefab.(active := slot == activeIndex, damageMultiplier := prefab.damageMultiplier + bonus)
  }

  /** `EquipTome`: slots outside 0..2 are ignored; otherwise the slot's
      instance is replaced by a fresh one. */
  function EquipSlots(slots: seq<Option<TomeState>>, prefab: TomeState, slot: int, activeIndex: int, bonus: real)
    : (r: seq<Option<TomeState>>)
    requires |slots| == SlotCount
    ensures |r| == SlotCount
    ensures !IsSlot(slot) ==> r == slots
    ensures IsSlot(slot) ==>
      && r[slot].Some? && r[slot].value.tomeType == prefab.tomeType
      && (r[slot].value.active <==> slot == activeIndex)
      && r[slot].value.damageMultiplier == prefab.damageMultiplier + bonus
    ensures forall k :: 0 <= k < SlotCount && k != slot ==> r[k] == slots[k]
  {
    if IsSlot(slot) then slots[slot := Some(Instantiated(prefab, slot, activeIndex, bonus))] else slots
  }

  lemma EquipKeepsActiveConsistent(slots: seq<Option<TomeState>>, prefab: TomeState, slot: int, activeIndex: int, bonus: real)
    requires |slots| == SlotCount && ActiveConsistent(slots, activeIndex)
    ensures ActiveConsistent(EquipSlots(slots, prefab, slot, activeIndex, bonus), activeIndex)
  {
  }

  /** The first slot holding an instance of type `t`, scanning from `from`. */
  function FirstOfTypeFrom(slots: seq<Option<TomeState>>, t: TomeType, from: nat): (r: Option<nat>)
    requires from <= |slots|
    ensures r.Some? ==>
      && from <= r.value < |slots| && Holds(slots[r.value], t)
      && forall k :: from <= k < r.value ==> !Holds(slots[k], t)
    ensures r.None? ==> forall k :: from <= k < |slots| ==> !Holds(slots[k], t)
    decreases |slots| - from
  {
    if from == |slots| then Option.None
    else if Holds(slots[from], t) then Some(from)
    else FirstOfTypeFrom(slots, t, from + 1)
  }

  function FirstOfType(slots: seq<Option<TomeState>>, t: TomeType): Option<nat> {
    FirstOfTypeFrom(slots, t, 0)
  }

  /** `allTomePrefabs.Find(t => t.tomeType == tomeType)`: the first prefab of
      that type. */
  function FindPrefab(prefabs: seq<TomeState>, t: TomeType): (r: Option<TomeState>)
    ensures r.None? <==> forall k :: 0 <= k < |prefabs| ==> prefabs[k].tomeType != t
    ensures r.Some? ==> exists k ::
      && 0 <= k < |prefabs| && prefabs[k] == r.value && r.value.tomeType == t
      && forall j :: 0 <= j < k ==> prefabs[j].tomeType != t
  {
    if |prefabs| == 0 then Option.None
    else if prefabs[0].tomeType == t then Some(prefabs[0])
    else
      var rest := FindPrefab(prefabs[1..], t);
      assert forall k :: 1 <= k < |prefabs| ==> prefabs[k] == prefabs[1..][k - 1];
      rest
  }

  /** The slots after an operation, and whether it ran to its end (false
      when it stopped at a C# exception). */
  datatype Assignment = Assignment(slots: seq<Option<TomeState>>, completed: bool)

  /** `AssignTomeToSlot`. A tome already equipped in another slot swaps
      places with the target slot's content, and both get the active state
      of their new slot; a target slot outside 0..2 throws on the first read,
      before anything changes; an empty target slot makes the second
      active-state update throw after the swap. Otherwise the first prefab of
      the type is equipped, and nothing happens if there is none. */
  function Assign(slots: seq<Option<TomeState>>, activeIndex: int, bonus: real, prefabs: seq<TomeState>,
                  t: TomeType, slot: int): (r: Assignment)
    requires |slots| == SlotCount
    ensures |r.slots| == SlotCount
  {
    var existing := FirstOfType(slots, t);
    if existing.Some? && existing.value != slot then
      var e := existing.value;
      if !IsSlot(slot) then Assignment(slots, false)
      else
        var moved := slots[e].value.(active := slot == activeIndex);
        var swapped := slots[slot := Some(moved)][e := slots[slot]];
        match slots[slot]
        case None => Assignment(swapped, false)
        case Some(other) => Assignment(swapped[e := Some(other.(active := e == activeIndex))], true)
    else
      match FindPrefab(prefabs, t)
      case None => Assignment(slots, true)
      case Some(prefab) => Assignment(EquipSlots(slots, prefab, slot, activeIndex, bonus), true)
  }

  /** An already-equipped tome moves into the target slot and the target's
      former instance takes its old place; the third slot is untouched. */
  lemma AssignSwapsEquippedTome(slots: seq<Option<TomeState>>, activeIndex: int, bonus: real,
                                prefabs: seq<TomeState>, t: TomeType, slot: int, e: nat)
    requires |slots| == SlotCount && IsSlot(slot)
    requires FirstOfType(slots, t) == Some(e) && e != slot
    ensures var r := Assign(slots, activeIndex, bonus, prefabs, t, slot);
      && r.slots[slot] == Some(slots[e].value.(active := slot == activeIndex))
      && (r.completed <==> slots[slot].Some?)
      && (slots[slot].Some? ==> r.slots[e] == Some(slots[slot].value.(active := e == activeIndex)))
      && (slots[slot].None? ==> r.slots[e] == Option.None)
      && forall k :: 0 <= k < SlotCount && k != slot && k != e ==> r.slots[k] == slots[k]
  {
  }

  /** Without an equipped instance of the type (or with it already in the
      target slot) the first matching prefab is equipped in the target slot;
      no matching prefab changes nothing. */
  lemma AssignEquipsPrefab(slots: seq<Option<TomeState>>, activeIndex: int, bonus: real,
                           prefabs: seq<TomeState>, t: TomeType, slot: int)
    requires |slots| == SlotCount
    requires FirstOfType(slots, t).None? || FirstOfType(slots, t).value == slot
    ensures var r := Assign(slots, activeIndex, bonus, prefabs, t, slot);
      && r.completed
      && (FindPrefab(prefabs, t).None? ==> r.slots == slots)
      && (FindPrefab(prefabs, t).Some? ==> r.slots == EquipSlots(slots, FindPrefab(prefabs, t).value, slot, activeIndex, bonus))
  {
  }

  function HoldsCount(s: Option<TomeState>, t: TomeType): nat {
    if Holds(s, t) then 1 else 0
  }

  /** Overwriting one slot changes the count by what leaves and what arrives. */
  lemma CountOfUpdate(slots: seq<Option<TomeState>>, i: nat, x: Option<TomeState>, u: TomeType)
    requires |slots| == SlotCount && i < SlotCount
    ensures CountOf(slots[i := x], u) + HoldsCount(slots[i], u) == CountOf(slots, u) + HoldsCount(x, u)
  {
  }

  /** `AssignTomeToSlot` never makes a tome type appear twice: a type held by
      at most one slot before is held by at most one slot after. */
  lemma {:induction false} AssignKeepsAtMostOnce(slots: seq<Option<TomeState>>, activeIndex: int, bonus: real,
                                                 prefabs: seq<TomeState>, t: TomeType, slot: int, u: TomeType)
    requires |slots| == SlotCount && CountOf(slots, u) <= 1
    ensures CountOf(Assign(slots, activeIndex, bonus, prefabs, t, slot).slots, u) <= 1
  {
    var existing := FirstOfType(slots, t);
    if existing.Some? && existing.value != slot {
      if IsSlot(slot) {
        var e := existing.value;
        var moved := Some(slots[e].value.(active := slot == activeIndex));
        var swapped := slots[slot := moved][e := slots[slot]];
        CountOfUpdate(slots, slot, moved, u);
        CountOfUpdate(slots[slot := moved], e, slots[slot], u);
        assert CountOf(swapped, u) == CountOf(slots, u);
        if slots[slot].Some? {
          var other := slots[slot].value;
          CountOfUpdate(swapped, e, Some(other.(active := e == activeIndex)), u);
        }
      }
    } else {
      var prefab := FindPrefab(prefabs, t);
      if prefab.Some? && IsSlot(slot) {
        var k :| 0 <= k < |prefabs| && prefabs[k] == prefab.value && prefab.value.tomeType == t;
        var equipped := Some(Instantiated(prefab.value, slot, activeIndex, bonus));
        CountOfUpdate(slots, slot, equipped, u);
        assert u == t && existing.None? ==> !Holds(slots[0], t) && !Holds(slots[1], t) && !Holds(slots[2], t);
      }
    }
  }

  /** Every equipped instance stays active exactly when it sits in the active slot. */
  lemma AssignKeepsActiveConsistent(slots: seq<Option<TomeState>>, activeIndex: int, bonus: real,
                                    prefabs: seq<TomeState>, t: TomeType, slot: int)
    requires |slots| == SlotCount && ActiveConsistent(slots, activeIndex)
    ensures ActiveConsistent(Assign(slots, activeIndex, bonus, prefabs, t, slot).slots, activeIndex)
  {
    var existing := FirstOfType(slots, t);
    if !(existing.Some? && existing.value != slot) && FindPrefab(prefabs, t).Some? {
      EquipKeepsActiveConsistent(slots, FindPrefab(prefabs, t).value, slot, activeIndex, bonus);
    }
  }

  /** `SetActiveTome`'s two steps: the instance in the old active slot (if
      any) is deactivated, then the one in the new slot (if any) activated. */
  function SetActiveFlag(slots: seq<Option<TomeState>>, i: nat, b: bool): (r: seq<Option<TomeState>>)
    requires i < |slots|
    ensures |r| == |slots|
  {
    match slots[i]
    case None => slots
    case Some(tome) => slots[i := Some(tome.(active := b))]
  }

  function Activate(slots: seq<Option<TomeState>>, oldIndex: nat, newIndex: nat): (r: seq<Option<TomeState>>)
    requires |slots| == SlotCount && oldIndex < SlotCount && newIndex < SlotCount
    ensures |r| == SlotCount
  {
    SetActiveFlag(SetActiveFlag(slots, oldIndex, false), newIndex, true)
  }

  /** Switching the active slot keeps every instance's other fields, turns
      the new slot's instance on, the old one off (when they differ), and
      keeps the active states consistent with the new index. */
  lemma ActivateMovesActiveFlag(slots: seq<Option<TomeState>>, oldIndex: nat, newIndex: nat)
    requires |slots| == SlotCount && oldIndex < SlotCount && newIndex < SlotCount
    requires ActiveConsistent(slots, oldIndex)
    ensures var r := Activate(slots, oldIndex, newIndex);
      && ActiveConsistent(r, newIndex)
      && (forall k :: 0 <= k < SlotCount ==> (r[k].Some? <==> slots[k].Some?))
      && (forall k :: 0 <= k < SlotCount && slots[k].Some? ==> r[k].value.(active := slots[k].value.active) == slots[k].value)
  {
  }

  /** `ApplyGlobalDamageBonus`'s loop from slot `i` on: each instance gains
      the bonus; an empty slot throws and ends the loop there. */
  function BonusFrom(slots: seq<Option<TomeState>>, bonus: real, i: nat): (r: Assignment)
    requires i <= |slots|
    ensures |r.slots| == |slots|
    decreases |slots| - i
  {
    if i == |slots| then Assignment(slots, true)
    else
      match slots[i]
      case None => Assignment(slots, false)
      case Some(tome) => BonusFrom(slots[i := Some(tome.(damageMultiplier := tome.damageMultiplier + bonus))], bonus, i + 1)
  }

  /** The index of the first empty slot at or after `i`, or the length. */
  function FirstEmptyFrom(slots: seq<Option<TomeState>>, i: nat): (r: nat)
    requires i <= |slots|
    ensures i <= r <= |slots|
    ensures forall k :: i <= k < r ==> slots[k].Some?
    ensures r < |slots| ==> slots[r].None?
    decreases |slots| - i
  {
    if i == |slots| || slots[i].None? then i else FirstEmptyFrom(slots, i + 1)
  }

  /** The bonus reaches exactly the instances before the first empty slot,
      changing only their damage multiplier; the loop completes iff no slot
      is empty. */
  lemma {:induction false} BonusReachesUpToFirstEmpty(slots: seq<Option<TomeState>>, bonus: real, i: nat)
    requires i <= |slots|
    ensures var r := BonusFrom(slots, bonus, i);
      var stop := FirstEmptyFrom(slots, i);
      && (r.completed <==> stop == |slots|)
      && forall k :: 0 <= k < |slots| ==>
           r.slots[k] == if i <= k < stop then Some(slots[k].value.(damageMultiplier := slots[k].value.damageMultiplier + bonus))
                         else slots[k]
    decreases |slots| - i
  {
    if i < |slots| && slots[i].Some? {
      var tome := slots[i].value;
      var next := slots[i := Some(tome.(damageMultiplier := tome.damageMultiplier + bonus))];
      BonusReachesUpToFirstEmpty(next, bonus, i + 1);
      SameFirstEmpty(slots, next, i + 1);
    }
  }

  lemma {:induction false} SameFirstEmpty(a: seq<Option<TomeState>>, b: seq<Option<TomeState>>, i: nat)
    requires i <= |a| == |b|
    requires forall k :: i <= k < |a| ==> a[k] == b[k]
    ensures FirstEmptyFrom(a, i) == FirstEmptyFrom(b, i)
    decreases |a| - i
  {
    if i < |a| && a[i].Some? {
      SameFirstEmpty(a, b, i + 1);
    }
  }

  /** An upgrade of one instance; only the four handled pairs of upgrade
      and tome subclass change anything. */
  function UpgradeTome(tome: TomeState, upgrade: UpgradeType, value: real): (r: TomeState)
    ensures r.tomeType == tome.tomeType && r.kind == tome.kind && r.active == tome.active
    ensures r.damageMultiplier == tome.damageMultiplier
    ensures r != tome ==>
      (upgrade, tome.kind) in {(ProjectileSpeed, Fireball), (ProjectileSize, Fireball),
                               (AreaOfEffect, Meteorite), (DamageOverTime, Meteorite)}
  {
    match (upgrade, tome.kind)
    case (ProjectileSpeed, Fireball) => tome.(projectileSpeed := tome.projectileSpeed * (1.0 + value))
    case (ProjectileSize, Fireball) => tome.(scaleMultiplier := tome.scaleMultiplier + value)
    case (AreaOfEffect, Meteorite) => tome.(impactRadiusMultiplier := tome.impactRadiusMultiplier + value)
    case (DamageOverTime, Meteorite) => tome.(burnDamagePerSecond := tome.burnDamagePerSecond + value)
    case _ => tome
  }

  /** `ApplyTomeUpgrade`: only the first equipped instance of the type is upgraded. */
  function UpgradeSlots(slots: seq<Option<TomeState>>, t: TomeType, upgrade: UpgradeType, value: real)
    : (r: seq<Option<TomeState>>)
    ensures |r| == |slots|
    ensures FirstOfType(slots, t).None? ==> r == slots
    ensures FirstOfType(slots, t).Some? ==>
      var i := FirstOfType(slots, t).value;
      r[i] == Some(UpgradeTome(slots[i].value, upgrade, value))
      && forall k :: 0 <= k < |slots| && k != i ==> r[k] == slots[k]
  {
    match FirstOfType(slots, t)
    case None => slots
    case Some(i) => slots[i := Some(UpgradeTome(slots[i].value, upgrade, value))]
  }

  /** Upgrades change no instance's type or active state. */
  lemma UpgradeKeepsCountsAndActivity(slots: seq<Option<TomeState>>, t: TomeType, upgrade: UpgradeType,
                                      value: real, activeIndex: int, u: TomeType)
    requires |slots| == SlotCount
    ensures CountOf(UpgradeSlots(slots, t, upgrade, value), u) == CountOf(slots, u)
    ensures ActiveConsistent(slots, activeIndex) ==> ActiveConsistent(UpgradeSlots(slots, t, upgrade, value), activeIndex)
  {
  }

  class TomeController {
    const allTomePrefabs: seq<TomeState>
    const blankTomePrefab: TomeState
    const equippedTomes: array<Option<TomeState>>
    var activeTomeIndex: int
    var globalDamageBonus: real

    ghost predicate Valid()
      reads this
    {
      equippedTomes.Length == SlotCount && IsSlot(activeTomeIndex)
    }

    /** Field initialisers: three empty slots, slot 0 active, no bonus. */
    constructor (allTomePrefabs: seq<TomeState>, blankTomePrefab: TomeState)
      ensures Valid() && fresh(equippedTomes)
      ensures this.allTomePrefabs == allTomePrefabs && this.blankTomePrefab == blankTomePrefab
      ensures equippedTomes[..] == [Option.None, Option.None, Option.None]
      ensures activeTomeIndex == 0 && globalDamageBonus == 0.0
    {
      this.allTomePrefabs := allTomePrefabs;
      this.blankTomePrefab := blankTomePrefab;
      equippedTomes := new Option<TomeState>[SlotCount](_ => Option.None);
      activeTomeIndex := 0;
      globalDamageBonus := 0.0;
    }

    /** `InitializeTomes`: a blank tome in each of the three slots. */
    method InitializeTomes()
      requires Valid()
      modifies equippedTomes
      ensures forall k :: 0 <= k < SlotCount ==>
        equippedTomes[k] == Some(Instantiated(blankTomePrefab, k, activeTomeIndex, globalDamageBonus))
      ensures ActiveConsistent(equippedTomes[..], activeTomeIndex)
    {
      var i := 0;
      while i < SlotCount
        invariant 0 <= i <= SlotCount
        invariant forall k :: 0 <= k < i ==>
          equippedTomes[k] == Some(Instantiated(blankTomePrefab, k, activeTomeIndex, globalDamageBonus))
      {
        EquipTome(blankTomePrefab, i);
        i := i + 1;
      }
    }

    /** `EquipTome`. */
    method EquipTome(tomePrefab: TomeState, slotIndex: int)
      requires Valid()
      modifies equippedTomes
      ensures equippedTomes[..] == EquipSlots(old(equippedTomes[..]), tomePrefab, slotIndex, activeTomeIndex, globalDamageBonus)
    {
      if slotIndex < 0 || slotIndex > 2 {
        return;
      }
      var newTome := tomePrefab.(active := slotIndex == activeTomeIndex);
      newTome := newTome.(damageMultiplier := newTome.damageMultiplier + globalDamageBonus);
      equippedTomes[slotIndex] := Some(newTome);
    }

    /** `SetActiveTome`: the index is clamped to 0..2. */
    method SetActiveTome(index: int)
      requires Valid()
      modifies this`activeTomeIndex, equippedTomes
      ensures Valid()
      ensures activeTomeIndex == Clamp(index, 0, 2)
      ensures equippedTomes[..] == Activate(old(equippedTomes[..]), old(activeTomeIndex), activeTomeIndex)
    {
      if equippedTomes[activeTomeIndex].Some? {
        equippedTomes[activeTomeIndex] := Some(equippedTomes[activeTomeIndex].value.(active := false));
      }
      activeTomeIndex := Clamp(index, 0, 2);
      if equippedTomes[activeTomeIndex].Some? {
        equippedTomes[activeTomeIndex] := Some(equippedTomes[activeTomeIndex].value.(active := true));
      }
    }

    /** `AssignTomeToSlot`; `completed` is false when the C# code throws. */
    method AssignTomeToSlot(tomeType: TomeType, slotIndex: int) returns (completed: bool)
      requires Valid()
      modifies equippedTomes
      ensures Assignment(equippedTomes[..], completed)
        == Assign(old(equippedTomes[..]), activeTomeIndex, globalDamageBonus, allTomePrefabs, tomeType, slotIndex)
    {
      var existingIndex := FindEquipped(tomeType);
      if existingIndex >= 0 && existingIndex != slotIndex {
        if !IsSlot(slotIndex) {
          return false;
        }
        completed := SwapSlots(existingIndex, slotIndex);
      } else {
        var tomePrefab := FindPrefab(allTomePrefabs, tomeType);
        if tomePrefab.Some? {
          EquipTome(tomePrefab.value, slotIndex);
        }
        completed := true;
      }
    }

    /** The search loop of `AssignTomeToSlot`: the first slot holding an
        instance of the type, or -1. */
    method FindEquipped(tomeType: TomeType) returns (existingIndex: int)
      requires Valid()
      ensures -1 <= existingIndex < SlotCount
      ensures existingIndex == -1 <==> FirstOfType(equippedTomes[..], tomeType).None?
      ensures existingIndex >= 0 ==> FirstOfType(equippedTomes[..], tomeType) == Some(existingIndex as nat)
    {
      var i := 0;
      while i < SlotCount
        invariant 0 <= i <= SlotCount
        invariant FirstOfType(equippedTomes[..], tomeType) == FirstOfTypeFrom(equippedTomes[..], tomeType, i)
      {
        if equippedTomes[i].Some? && equippedTomes[i].value.tomeType == tomeType {
          return i;
        }
        i := i + 1;
      }
      return -1;
    }

    /** The swap branch of `AssignTomeToSlot`: contents of the two slots
        exchanged, then each given its new slot's active state; an empty
        target slot throws at the second update. */
    method SwapSlots(existingIndex: nat, slotIndex: nat) returns (completed: bool)
      requires Valid() && existingIndex < SlotCount && slotIndex < SlotCount && existingIndex != slotIndex
      requires equippedTomes[existingIndex].Some?
      modifies equippedTomes
      ensures var before := old(equippedTomes[..]);
        var moved := before[existingIndex].value.(active := slotIndex == activeTomeIndex);
        var swapped := before[slotIndex := Some(moved)][existingIndex := before[slotIndex]];
        match before[slotIndex]
        case None => equippedTomes[..] == swapped && !completed
        case Some(other) =>
          equippedTomes[..] == swapped[existingIndex := Some(other.(active := existingIndex == activeTomeIndex))] && completed
    {
      var temp := equippedTomes[slotIndex];
      equippedTomes[slotIndex] := equippedTomes[existingIndex];
      equippedTomes[existingIndex] := temp;
      equippedTomes[slotIndex] := Some(equippedTomes[slotIndex].value.(active := slotIndex == activeTomeIndex));
      if equippedTomes[existingIndex].None? {
        return false;
      }
      equippedTomes[existingIndex] := Some(equippedTomes[existingIndex].value.(active := existingIndex == activeTomeIndex));
      return true;
    }

    /** `ApplyGlobalDamageBonus`: the running bonus grows first, then every
        equipped instance gains it; an empty slot throws and ends the loop. */
    method ApplyGlobalDamageBonus(bonus: real) returns (completed: bool)
      requires Valid()
      modifies this`globalDamageBonus, equippedTomes
      ensures globalDamageBonus == old(globalDamageBonus) + bonus
      ensures Assignment(equippedTomes[..], completed) == BonusFrom(old(equippedTomes[..]), bonus, 0)
    {
      globalDamageBonus := globalDamageBonus + bonus;
      var i := 0;
      while i < SlotCount
        invariant 0 <= i <= SlotCount
        invariant globalDamageBonus == old(globalDamageBonus) + bonus
        invariant BonusFrom(equippedTomes[..], bonus, i) == BonusFrom(old(equippedTomes[..]), bonus, 0)
      {
        var tome := equippedTomes[i];
        if tome.None? {
          return false;
        }
        equippedTomes[i] := Some(tome.value.(damageMultiplier := tome.value.damageMultiplier + bonus));
        i := i + 1;
      }
      return true;
    }

    /** `ApplyTomeUpgrade`. */
    method ApplyTomeUpgrade(tomeType: TomeType, upgradeType: UpgradeType, value: real)
      requires Valid()
      modifies equippedTomes
      ensures equippedTomes[..] == UpgradeSlots(old(equippedTomes[..]), tomeType, upgradeType, value)
    {
      var i := 0;
      while i < SlotCount
        invariant 0 <= i <= SlotCount
        invariant FirstOfType(equippedTomes[..], tomeType) == FirstOfTypeFrom(equippedTomes[..], tomeType, i)
      {
        if equippedTomes[i].Some? && equippedTomes[i].value.tomeType == tomeType {
          equippedTomes[i] := Some(UpgradeTome(equippedTomes[i].value, upgradeType, value));
          return;
        }
        i := i + 1;
      }
    }
  }
}
