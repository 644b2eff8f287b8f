/** `TomeInventory`: the three tome types shown in the inventory bar. An
    equip either swaps a type already shown into the target slot or writes
    it there and forwards the equip to the tome controller. */
module TomeInventories {
  import opened Common
  import opened TomeTypes
  import opened TomeControllers

  /** `IsValidSlot`. */
  predicate IsValidSlot(index: int) {
    0 <= index < SlotCount
  }

  /** The first slot showing `t`, scanning from `from`. */
  function FirstIndexFrom(slots: seq<TomeType>, t: TomeType, from: nat): (r: Option<nat>)
    requires from <= |slots|
    ensures r.Some? ==>
      && from <= r.value < |slots| && slots[r.value] == t
      && forall k :: from <= k < r.value ==> slots[k] != t
    ensures r.None? ==> forall k :: from <= k < |slots| ==> slots[k] != t
    decreases |slots| - from
  {
    if from == |slots| then Option.None
    else if slots[from] == t then Some(from)
    else FirstIndexFrom(slots, t, from + 1)
  }

  /** The equip takes the forwarding branch: a valid slot and a type not shown. */
  predicate Forwards(slots: seq<TomeType>, newTome: TomeType, target: int)
    requires |slots| == SlotCount
  {
    IsValidSlot(target) && FirstIndexFrom(slots, newTome, 0).None?
  }

  /** `EquipTome` on the slot contents. */
  function Equip(slots: seq<TomeType>, newTome: TomeType, target: int): (r: seq<TomeType>)
    requires |slots| == SlotCount
    ensures |r| == SlotCount
    ensures !IsValidSlot(target) ==> r == slots
    ensures IsValidSlot(target) ==> r[target] == newTome
    ensures IsValidSlot(target) && FirstIndexFrom(slots, newTome, 0).Some? ==>
      var i := FirstIndexFrom(slots, newTome, 0).value;
      && r[i] == slots[target]
      && forall k :: 0 <= k < SlotCount && k != i && k != target ==> r[k] == slots[k]
    ensures Forwards(slots, newTome, target) ==>
      forall k :: 0 <= k < SlotCount && k != target ==> r[k] == slots[k]
  {
    if !IsValidSlot(target) then slots
    else
      match FirstIndexFrom(slots, newTome, 0)
      case Some(i) => slots[target := newTome][i := slots[target]]
      case None => slots[target := newTome]
  }

  /** A swap rearranges the slots without adding or losing a type. */
  lemma EquipSwapPermutes(slots: seq<TomeType>, newTome: TomeType, target: int)
    requires |slots| == SlotCount && IsValidSlot(target) && FirstIndexFrom(slots, newTome, 0).Some?
    ensures multiset(Equip(slots, newTome, target)) == multiset(slots)
  {
    var i := FirstIndexFrom(slots, newTome, 0).value;
    var s1 := slots[target := newTome];
    assert multiset(s1) == multiset(slots) - multiset{slots[target]} + multiset{newTome};
    assert s1[i] == newTome;
    assert Equip(slots, newTome, target) == s1[i := slots[target]];
    assert multiset(s1[i := slots[target]]) == multiset(s1) - multiset{newTome} + multiset{slots[target]};
  }

  /** A tome type shown at most once before an equip is shown at most once after. */
  lemma EquipKeepsAtMostOnce(slots: seq<TomeType>, newTome: TomeType, target: int, u: TomeType)
    requires |slots| == SlotCount && multiset(slots)[u] <= 1
    ensures multiset(Equip(slots, newTome, target))[u] <= 1
  {
    var r := Equip(slots, newTome, target);
    if IsValidSlot(target) {
      if FirstIndexFrom(slots, newTome, 0).Some? {
        EquipSwapPermutes(slots, newTome, target);
      } else {
        assert slots == [slots[0], slots[1], slots[2]];
        assert r == [r[0], r[1], r[2]];
      }
    }
  }

  class TomeInventory {
    const equippedTomes: array<TomeType>
    const controller: TomeController

    ghost predicate Valid()
      reads this, controller
    {
      equippedTomes.Length == SlotCount && controller.Valid()
    }

    /** `new TomeType[3]`: every slot shows no tome. */
    constructor (controller: TomeController)
      requires controller.Valid()
      ensures Valid() && fresh(equippedTomes) && this.controller == controller
      ensures equippedTomes[..] == [TomeType.None, TomeType.None, TomeType.None]
    {
      this.controller := controller;
      equippedTomes := new TomeType[SlotCount](_ => TomeType.None);
    }

    /** `EquipTome`: the forwarding branch also calls the controller's
        `AssignTomeToSlot`; the swap branch does not. */
    method EquipTome(newTome: TomeType, targetSlotIndex: int)
      requires Valid()
      modifies equippedTomes, controller.equippedTomes
      ensures equippedTomes[..] == Equip(old(equippedTomes[..]), newTome, targetSlotIndex)
      ensures !Forwards(old(equippedTomes[..]), newTome, targetSlotIndex) ==>
        controller.equippedTomes[..] == old(controller.equippedTomes[..])
      ensures Forwards(old(equippedTomes[..]), newTome, targetSlotIndex) ==>
        controller.equippedTomes[..] == Assign(old(controller.equippedTomes[..]), controller.activeTomeIndex,
          controller.globalDamageBonus, controller.allTomePrefabs, newTome, targetSlotIndex).slots
    {
      if !IsValidSlot(targetSlotIndex) {
        return;
      }
      var i := 0;
      while i < SlotCount
        invariant 0 <= i <= SlotCount
        invariant equippedTomes[..] == old(equippedTomes[..])
        invariant FirstIndexFrom(equippedTomes[..], newTome, 0) == FirstIndexFrom(equippedTomes[..], newTome, i)
      {
        if equippedTomes[i] == newTome {
          var oldTome := equippedTomes[targetSlotIndex];
          equippedTomes[targetSlotIndex] := newTome;
          equippedTomes[i] := oldTome;
          return;
        }
        i := i + 1;
      }
      equippedTomes[targetSlotIndex] := newTome;
      var _ := controller.AssignTomeToSlot(newTome, targetSlotIndex);
    }
  }
}
