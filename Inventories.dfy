/**
 * The player's inventory: up to six carried items, one armour slot and up
 * to two equipped weapons, all looked up by item name.
 *
 * Each operation is specified by a function on `Contents`, the three parts
 * of an inventory as values; the lemmas below state what those functions
 * promise, and the `Inventory` methods are proved to follow them.
 */
module Inventories {
  import opened Wrappers
  import opened Items

  const MaxSlots := 6
  const MaxWeapons := 2

  /** `findIndexByName`: the position of the first item called `n`, if any. */
  function FirstIndex(s: seq<Item>, n: string): (r: Option<nat>)
    ensures r.Some? ==> r.value < |s| && s[r.value].name == n
    ensures r.Some? ==> forall j :: 0 <= j < r.value ==> s[j].name != n
    ensures r.None? <==> forall j :: 0 <= j < |s| ==> s[j].name != n
    decreases |s|
  {
    if s == [] then None
    else if s[0].name == n then Some(0)
    else match FirstIndex(s[1..], n)
      case None => None
      case Some(k) => Some(k + 1)
  }

  /** Position `i` holds the first element called `n`. */
  predicate IsFirstNamed(s: seq<Item>, i: int, n: string) {
    0 <= i < |s| && s[i].name == n && forall j :: 0 <= j < i ==> s[j].name != n
  }

  /** `FirstIndex` finds exactly the first position of the name. */
  lemma FirstIndexIsFirst(s: seq<Item>, n: string, i: int)
    ensures FirstIndex(s, n) == Some(i) <==> IsFirstNamed(s, i, n)
  {
    if IsFirstNamed(s, i, n) {
      assert FirstIndex(s, n).Some?;
      var k := FirstIndex(s, n).value;
      assert k <= i;
      assert i <= k;
    }
  }

  function RemoveAt(s: seq<Item>, i: nat): seq<Item>
    requires i < |s|
  {
    s[..i] + s[i + 1..]
  }

  /** `erase(remove_if(...))`: every element called `n` dropped, the others kept in order. */
  function WithoutNamed(s: seq<Item>, n: string): (r: seq<Item>)
    ensures forall i :: 0 <= i < |r| ==> r[i] in s && r[i].name != n
    ensures forall i :: 0 <= i < |s| && s[i].name != n ==> s[i] in r
    ensures |r| <= |s|
    decreases |s|
  {
    if s == [] then []
    else (if s[0].name == n then [] else [s[0]]) + WithoutNamed(s[1..], n)
  }

  /** With nothing called `n`, dropping the elements called `n` changes nothing. */
  lemma {:induction false} WithoutNamedIdle(s: seq<Item>, n: string)
    requires forall j :: 0 <= j < |s| ==> s[j].name != n
    ensures WithoutNamed(s, n) == s
    decreases |s|
  {
    if s != [] {
      WithoutNamedIdle(s[1..], n);
    }
  }

  /** Filtering distributes over concatenation. */
  lemma {:induction false} WithoutNamedAppend(a: seq<Item>, b: seq<Item>, n: string)
    ensures WithoutNamed(a + b, n) == WithoutNamed(a, n) + WithoutNamed(b, n)
    decreases |a|
  {
    if a == [] {
      assert a + b == b;
    } else {
      assert (a + b)[0] == a[0] && (a + b)[1..] == a[1..] + b;
      WithoutNamedAppend(a[1..], b, n);
    }
  }

  /** The carried items, the equipped armour (null when none) and the equipped weapons. */
  datatype Contents = Contents(items: seq<Item>, armor: Item?, weapons: seq<Item>)

  const Empty := Contents([], null, [])

  /** The capacity the inventory promises: six items carried, two weapons equipped. */
  predicate WithinLimits(c: Contents) {
    |c.items| <= MaxSlots && |c.weapons| <= MaxWeapons
  }

  /**
   * `addItem`: a weapon is equipped, or armour replaces the current armour,
   * before the slot check; the item is carried only if a slot is free.
   */
  function AfterAdd(c: Contents, item: Item?): (Contents, bool) {
    if item == null then (c, false)
    else if item.itemType == Weapon && |c.weapons| >= MaxWeapons then (c, false)
    else
      var c1 := if item.itemType == Weapon then c.(weapons := c.weapons + [item])
                else if item.itemType == Armor then c.(armor := item)
                else c;
      if |c1.items| < MaxSlots then (c1.(items := c1.items + [item]), true) else (c1, false)
  }

  /**
   * `removeItem`: the first item called `n` leaves the bag and is returned;
   * armour called `n` is unequipped and every equipped weapon called `n` is
   * dropped. Nothing happens when no item is called `n`.
   */
  function AfterRemove(c: Contents, n: string): (Contents, Item?) {
    match FirstIndex(c.items, n)
    case None => (c, null)
    case Some(i) =>
      (Contents(RemoveAt(c.items, i),
                if c.armor != null && c.armor.name == n then null else c.armor,
                WithoutNamed(c.weapons, n)),
       c.items[i])
  }

  /** `equipArmor`: only a carried item of type Armor can be worn. */
  function AfterEquipArmor(c: Contents, n: string): (Contents, bool) {
    match FirstIndex(c.items, n)
    case None => (c, false)
    case Some(i) => if c.items[i].itemType != Armor then (c, false) else (c.(armor := c.items[i]), true)
  }

  /** `equipWeapon`: a carried Weapon is equipped when fewer than two are. */
  function AfterEquipWeapon(c: Contents, n: string): (Contents, bool) {
    if |c.weapons| >= MaxWeapons then (c, false)
    else match FirstIndex(c.items, n)
      case None => (c, false)
      case Some(i) =>
        if c.items[i].itemType != Weapon then (c, false) else (c.(weapons := c.weapons + [c.items[i]]), true)
  }

  function AfterUnequipArmor(c: Contents): (Contents, bool) {
    if c.armor == null then (c, false) else (c.(armor := null), true)
  }

  /** `unequipWeapon`: only the first equipped weapon called `n` is removed. */
  function AfterUnequipWeapon(c: Contents, n: string): (Contents, bool) {
    match FirstIndex(c.weapons, n)
    case None => (c, false)
    case Some(i) => (c.(weapons := RemoveAt(c.weapons, i)), true)
  }

  /** No operation breaks the capacity limits. */
  lemma OperationsKeepLimits(c: Contents, item: Item?, n: string)
    requires WithinLimits(c)
    ensures WithinLimits(AfterAdd(c, item).0)
    ensures WithinLimits(AfterRemove(c, n).0)
    ensures WithinLimits(AfterEquipArmor(c, n).0)
    ensures WithinLimits(AfterEquipWeapon(c, n).0)
    ensures WithinLimits(AfterUnequipArmor(c).0)
    ensures WithinLimits(AfterUnequipWeapon(c, n).0)
    ensures WithinLimits(Empty)
  {
  }

  /**
   * Adding succeeds exactly for a non-null item with a free slot and, for a
   * weapon, a free weapon slot; a successful add appends the item to the bag
   * and makes it findable by name. A null item or a weapon beyond the two
   * equipped changes nothing.
   */
  lemma AddOutcome(c: Contents, item: Item?)
    ensures AfterAdd(c, item).1
            <==> item != null && |c.items| < MaxSlots && !(item.itemType == Weapon && |c.weapons| >= MaxWeapons)
    ensures AfterAdd(c, item).1 ==> AfterAdd(c, item).0.items == c.items + [item]
    ensures AfterAdd(c, item).1 ==> FirstIndex(AfterAdd(c, item).0.items, item.name).Some?
    ensures item == null || (item.itemType == Weapon && |c.weapons| >= MaxWeapons) ==> AfterAdd(c, item).0 == c
  {
    if AfterAdd(c, item).1 {
      var r := AfterAdd(c, item).0.items;
      assert r[|r| - 1].name == item.name;
    }
  }

  /**
   * With every slot taken, adding a weapon fails yet still equips it, so an
   * equipped weapon need not be carried; armour likewise replaces the worn
   * armour.
   */
  lemma FullBagStillEquips(c: Contents, item: Item)
    requires |c.items| >= MaxSlots
    requires item.itemType == Weapon && |c.weapons| < MaxWeapons
    ensures AfterAdd(c, item) == (c.(weapons := c.weapons + [item]), false)
    ensures item in AfterAdd(c, item).0.weapons
  {
  }

  /**
   * Removing by name returns the first item of that name, takes out exactly
   * that one, and unequips everything of that name; with no such item it
   * returns null and changes nothing.
   */
  lemma RemoveOutcome(c: Contents, n: string)
    ensures AfterRemove(c, n).1 == null <==> forall j :: 0 <= j < |c.items| ==> c.items[j].name != n
    ensures AfterRemove(c, n).1 == null ==> AfterRemove(c, n).0 == c
    ensures AfterRemove(c, n).1 != null ==>
      && AfterRemove(c, n).1.name == n
      && |AfterRemove(c, n).0.items| == |c.items| - 1
      && multiset(AfterRemove(c, n).0.items) + multiset{AfterRemove(c, n).1} == multiset(c.items)
    ensures AfterRemove(c, n).1 != null ==>
      && (AfterRemove(c, n).0.armor == null || AfterRemove(c, n).0.armor.name != n)
      && forall w :: w in AfterRemove(c, n).0.weapons <==> w in c.weapons && w.name != n
    ensures forall i :: IsFirstNamed(c.items, i, n) ==>
      && AfterRemove(c, n).1 == c.items[i]
      && AfterRemove(c, n).0.items == c.items[..i] + c.items[i + 1..]
  {
    match FirstIndex(c.items, n)
    case None =>
    case Some(i) =>
      assert c.items == c.items[..i] + [c.items[i]] + c.items[i + 1..];
      forall k | IsFirstNamed(c.items, k, n)
        ensures k == i
      {
        FirstIndexIsFirst(c.items, n, k);
      }
  }

  /**
   * An item added under a fresh name is removed again by that name, giving
   * back the inventory as it was, unless it was armour that displaced other
   * armour.
   */
  lemma AddThenRemove(c: Contents, item: Item)
    requires forall j :: 0 <= j < |c.items| ==> c.items[j].name != item.name
    requires forall j :: 0 <= j < |c.weapons| ==> c.weapons[j].name != item.name
    requires c.armor != null ==> c.armor.name != item.name && item.itemType != Armor
    requires AfterAdd(c, item).1
    ensures AfterRemove(AfterAdd(c, item).0, item.name) == (c, item)
  {
    var c1 := AfterAdd(c, item).0;
    assert c1.items == c.items + [item];
    assert c1.items[|c.items|].name == item.name;
    assert forall j :: 0 <= j < |c.items| ==> c1.items[j].name != item.name;
    assert FirstIndex(c1.items, item.name) == Some(|c.items|);
    assert RemoveAt(c1.items, |c.items|) == c.items;
    WithoutNamedIdle(c.weapons, item.name);
    if item.itemType == Weapon {
      WithoutNamedAppend(c.weapons, [item], item.name);
      assert WithoutNamed([item], item.name) == [];
    }
  }

  /**
   * Equipping succeeds exactly when a carried item of that name has the right
   * type (and, for weapons, fewer than two are equipped), and never changes
   * what is carried.
   */
  lemma EquipOutcome(c: Contents, n: string)
    ensures AfterEquipArmor(c, n).1
            <==> FirstIndex(c.items, n).Some? && c.items[FirstIndex(c.items, n).value].itemType == Armor
    ensures AfterEquipArmor(c, n).1 ==> AfterEquipArmor(c, n).0.armor.name == n
    ensures AfterEquipWeapon(c, n).1
            <==> |c.weapons| < MaxWeapons && FirstIndex(c.items, n).Some?
                 && c.items[FirstIndex(c.items, n).value].itemType == Weapon
    ensures AfterEquipWeapon(c, n).1 ==> |AfterEquipWeapon(c, n).0.weapons| == |c.weapons| + 1
    ensures AfterEquipArmor(c, n).0.items == c.items && AfterEquipWeapon(c, n).0.items == c.items
    ensures forall i :: IsFirstNamed(c.items, i, n) && AfterEquipArmor(c, n).1 ==>
      AfterEquipArmor(c, n).0 == c.(armor := c.items[i])
    ensures forall i :: IsFirstNamed(c.items, i, n) && AfterEquipWeapon(c, n).1 ==>
      AfterEquipWeapon(c, n).0 == c.(weapons := c.weapons + [c.items[i]])
  {
    forall i | IsFirstNamed(c.items, i, n)
      ensures FirstIndex(c.items, n) == Some(i)
    {
      FirstIndexIsFirst(c.items, n, i);
    }
  }

  /** Unequipping a weapon removes one entry, the first of that name, and fails when there is none. */
  lemma UnequipWeaponOutcome(c: Contents, n: string)
    ensures AfterUnequipWeapon(c, n).1 <==> exists j :: 0 <= j < |c.weapons| && c.weapons[j].name == n
    ensures AfterUnequipWeapon(c, n).1 ==> |AfterUnequipWeapon(c, n).0.weapons| == |c.weapons| - 1
    ensures !AfterUnequipWeapon(c, n).1 ==> AfterUnequipWeapon(c, n).0 == c
    ensures AfterUnequipWeapon(c, n).0.items == c.items && AfterUnequipWeapon(c, n).0.armor == c.armor
    ensures forall i :: IsFirstNamed(c.weapons, i, n) ==>
      AfterUnequipWeapon(c, n).0.weapons == c.weapons[..i] + c.weapons[i + 1..]
  {
    if AfterUnequipWeapon(c, n).1 {
      var i := FirstIndex(c.weapons, n).value;
      assert c.weapons[i].name == n;
    }
    forall i | IsFirstNamed(c.weapons, i, n)
      ensures FirstIndex(c.weapons, n) == Some(i)
    {
      FirstIndexIsFirst(c.weapons, n, i);
    }
  }

  class Inventory {
    var items: seq<Item>
    var equippedArmor: Item?
    var equippedWeapons: seq<Item>

    function Snapshot(): Contents
      reads this
    {
      Contents(items, equippedArmor, equippedWeapons)
    }

    constructor ()
      ensures Snapshot() == Empty
    {
      items := [];
      equippedArmor := null;
      equippedWeapons := [];
    }

    method AddItem(item: Item?) returns (added: bool)
      modifies this
      ensures (Snapshot(), added) == AfterAdd(old(Snapshot()), item)
    {
      if item == null {
        return false;
      }
      if item.itemType == Weapon {
        if |equippedWeapons| >= MaxWeapons {
          return false;
        }
        equippedWeapons := equippedWeapons + [item];
      } else if item.itemType == Armor {
        equippedArmor := item;
      }
      if |items| < MaxSlots {
        items := items + [item];
        return true;
      }
      return false;
    }

    method RemoveItem(name: string) returns (removed: Item?)
      modifies this
      ensures (Snapshot(), removed) == AfterRemove(old(Snapshot()), name)
    {
      var idx := FindIndexByName(name);
      if idx.None? {
        return null;
      }
      removed := items[idx.value];
      items := RemoveAt(items, idx.value);
      if equippedArmor != null && equippedArmor.name == name {
        equippedArmor := null;
      }
      equippedWeapons := WithoutNamed(equippedWeapons, name);
    }

    /** `hasItem`: some carried item has this name. */
    function HasItem(name: string): (r: bool)
      reads this
      ensures r <==> exists j :: 0 <= j < |items| && items[j].name == name
    {
      FirstIndex(items, name).Some?
    }

    /** `getItem`: the first carried item with this name, or null. */
    function GetItem(name: string): (r: Item?)
      reads this
      ensures r == null <==> !HasItem(name)
      ensures r != null ==> r in items && r.name == name
      ensures forall i :: IsFirstNamed(items, i, name) ==> r == items[i]
    {
      match FirstIndex(items, name)
      case None => null
      case Some(i) => items[i]
    }

    method ListItemNames() returns (names: seq<string>)
      ensures |names| == |items|
      ensures forall j :: 0 <= j < |items| ==> names[j] == items[j].name
    {
      names := [];
      for i := 0 to |items|
        invariant |names| == i
        invariant forall j :: 0 <= j < i ==> names[j] == items[j].name
      {
        names := names + [items[i].name];
      }
    }

    method EquipArmor(name: string) returns (ok: bool)
      modifies this
      ensures (Snapshot(), ok) == AfterEquipArmor(old(Snapshot()), name)
    {
      var idx := FindIndexByName(name);
      if idx.None? {
        return false;
      }
      if items[idx.value].itemType != Armor {
        return false;
      }
      equippedArmor := items[idx.value];
      return true;
    }

    method EquipWeapon(name: string) returns (ok: bool)
      modifies this
      ensures (Snapshot(), ok) == AfterEquipWeapon(old(Snapshot()), name)
    {
      if |equippedWeapons| >= MaxWeapons {
        return false;
      }
      var idx := FindIndexByName(name);
      if idx.None? {
        return false;
      }
      if items[idx.value].itemType != Weapon {
        return false;
      }
      equippedWeapons := equippedWeapons + [items[idx.value]];
      return true;
    }

    method UnequipArmor() returns (ok: bool)
      modifies this
      ensures (Snapshot(), ok) == AfterUnequipArmor(old(Snapshot()))
    {
      if equippedArmor == null {
        return false;
      }
      equippedArmor := null;
      return true;
    }

    method UnequipWeapon(name: string) returns (ok: bool)
      modifies this
      ensures (Snapshot(), ok) == AfterUnequipWeapon(old(Snapshot()), name)
    {
      var idx := FirstIndex(equippedWeapons, name);
      if idx.None? {
        return false;
      }
      equippedWeapons := RemoveAt(equippedWeapons, idx.value);
      return true;
    }

    /** `getArmorBonus`: the worn armour's bonus, zero with none. */
    function GetArmorBonus(): (r: int)
      reads this, equippedArmor
      ensures equippedArmor == null ==> r == 0
      ensures equippedArmor != null ==> r == equippedArmor.armorBonus
    {
      if equippedArmor == null then 0 else equippedArmor.armorBonus
    }

    method ClearAll()
      modifies this
      ensures Snapshot() == Empty
    {
      items := [];
      equippedWeapons := [];
      equippedArmor := null;
    }

    method FindIndexByName(name: string) returns (r: Option<nat>)
      ensures r == FirstIndex(items, name)
    {
      for i := 0 to |items|
        invariant forall j :: 0 <= j < i ==> items[j].name != name
      {
        if items[i].name == name {
          return Some(i);
        }
      }
      return None;
    }
  }
}
