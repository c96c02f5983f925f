/**
 * The adventurer: four health totals, the room they stand in, and an
 * inventory; the single shared instance; and what using an item does to
 * them.
 */
module Players {
  import opened Items
  import opened Inventories
  import opened Rooms

  /** C++ `int / 2`: the quotient truncated toward zero (Dafny's `/` rounds down instead). */
  function Half(a: int): int {
    if a >= 0 then a / 2 else -((-a) / 2)
  }

  /**
   * Halving is symmetric about zero and loses at most one unit, on the side
   * of zero; for negative odd amounts it differs from Euclidean division.
   */
  lemma HalfTruncates(a: int)
    ensures Half(-a) == -Half(a)
    ensures a >= 0 ==> 0 <= a - 2 * Half(a) <= 1
    ensures a < 0 ==> -1 <= a - 2 * Half(a) <= 0
    ensures Half(-3) == -1 && (-3) / 2 == -2
  {
  }

  /** The four health fields. */
  datatype Health = Vitals(head: int, thorax: int, arms: int, legs: int)

  const StartingHealth := Vitals(50, 200, 150, 150)

  /** `equipArmorBonus`: every location gains the bonus, without any cap. */
  function Armored(h: Health, bonus: int): Health {
    Vitals(h.head + bonus, h.thorax + bonus, h.arms + bonus, h.legs + bonus)
  }

  /** `useMedkitHeal`: the thorax gains the full amount, every other location half of it. */
  function Healed(h: Health, amount: int): Health {
    Vitals(h.head + Half(amount), h.thorax + amount, h.arms + Half(amount), h.legs + Half(amount))
  }

  /** Armour bonuses add up, and can be taken back by a negative bonus. */
  lemma ArmorBonusesAdd(h: Health, a: int, b: int)
    ensures Armored(Armored(h, a), b) == Armored(h, a + b)
    ensures Armored(Armored(h, a), -a) == h
  {
  }

  /**
   * Two medkits heal like one of their combined size when either is even;
   * two odd ones leave the head, arms and legs one point short of it each,
   * because both halvings drop a remainder.
   */
  lemma HealingComposes(h: Health, a: int, b: int)
    requires a >= 0 && b >= 0
    ensures a % 2 == 0 || b % 2 == 0 ==> Healed(Healed(h, a), b) == Healed(h, a + b)
    ensures a % 2 == 1 && b % 2 == 1 ==>
      var whole := Healed(h, a + b);
      Healed(Healed(h, a), b) == Vitals(whole.head - 1, whole.thorax, whole.arms - 1, whole.legs - 1)
  {
  }

  class Player {
    var headHealth: int
    var thoraxHealth: int
    var armsHealth: int
    var legsHealth: int
    var currentRoom: Room?
    const inventory: Inventory

    function Health(): Health
      reads this
    {
      Vitals(headHealth, thoraxHealth, armsHealth, legsHealth)
    }

    /** A new player: the starting health, nowhere yet, and an empty inventory. */
    constructor ()
      ensures Health() == StartingHealth && currentRoom == null
      ensures fresh(inventory) && inventory.Snapshot() == Empty
    {
      headHealth := 50;
      thoraxHealth := 200;
      armsHealth := 150;
      legsHealth := 150;
      currentRoom := null;
      inventory := new Inventory();
    }

    method SetCurrentRoom(room: Room?)
      modifies this`currentRoom
      ensures currentRoom == room
    {
      currentRoom := room;
    }

    /** `pickUpItem`: exactly the inventory's `addItem`. */
    method PickUpItem(item: Item?) returns (ok: bool)
      modifies inventory
      ensures (inventory.Snapshot(), ok) == AfterAdd(old(inventory.Snapshot()), item)
    {
      ok := inventory.AddItem(item);
    }

    /** `dropItem`: true exactly when an item of that name was carried, and it is then removed. */
    method DropItem(itemName: string) returns (ok: bool)
      modifies inventory
      ensures ok <==> old(inventory.HasItem(itemName))
      ensures inventory.Snapshot() == AfterRemove(old(inventory.Snapshot()), itemName).0
    {
      var removed := inventory.RemoveItem(itemName);
      RemoveOutcome(old(inventory.Snapshot()), itemName);
      ok := removed != null;
    }

    function HasKeycard(cardName: string): (r: bool)
      reads this, inventory
      ensures r <==> exists j :: 0 <= j < |inventory.items| && inventory.items[j].name == cardName
    {
      inventory.HasItem(cardName)
    }

    /** `useKeycard`: the first card of that name leaves the inventory. */
    method UseKeycard(cardName: string)
      modifies inventory
      ensures inventory.Snapshot() == AfterRemove(old(inventory.Snapshot()), cardName).0
    {
      var _ := inventory.RemoveItem(cardName);
    }

    method EquipArmorBonus(bonus: int)
      modifies this`headHealth, this`thoraxHealth, this`armsHealth, this`legsHealth
      ensures Health() == Armored(old(Health()), bonus)
    {
      headHealth := headHealth + bonus;
      thoraxHealth := thoraxHealth + bonus;
      armsHealth := armsHealth + bonus;
      legsHealth := legsHealth + bonus;
    }

    method UseMedkitHeal(amount: int)
      modifies this`headHealth, this`thoraxHealth, this`armsHealth, this`legsHealth
      ensures Health() == Healed(old(Health()), amount)
    {
      thoraxHealth := thoraxHealth + amount;
      headHealth := headHealth + Half(amount);
      armsHealth := armsHealth + Half(amount);
      legsHealth := legsHealth + Half(amount);
    }
  }

  /** The static `playerInstance` slot behind `Player::instance`. */
  class PlayerSlot {
    var instance: Player?

    constructor ()
      ensures instance == null
    {
      instance := null;
    }

    /** The same player on every call; the first call creates a new one. */
    method Instance() returns (p: Player)
      modifies this`instance
      ensures old(instance) != null ==> p == old(instance)
      ensures old(instance) == null ==> fresh(p) && fresh(p.inventory)
      ensures old(instance) == null ==> p.Health() == StartingHealth && p.currentRoom == null
      ensures old(instance) == null ==> p.inventory.Snapshot() == Empty
      ensures instance == p
    {
      if instance == null {
        instance := new Player();
      }
      p := instance;
    }
  }

  /**
   * `Item::use`: armour adds its bonus to every location, a medkit heals by
   * its amount, a keycard removes the first carried item of its own name;
   * weapons and overwrite cards change nothing, and neither does a null
   * player.
   */
  method UseItem(item: Item, player: Player?)
    modifies if player == null then {} else {player, player.inventory}
    ensures player != null ==> player.currentRoom == old(player.currentRoom)
    ensures player != null ==> player.Health() == match item.itemType
      case Armor => Armored(old(player.Health()), item.armorBonus)
      case Medkit => Healed(old(player.Health()), item.healAmount)
      case _ => old(player.Health())
    ensures player != null ==> player.inventory.Snapshot() == if item.itemType == Keycard
      then AfterRemove(old(player.inventory.Snapshot()), item.name).0
      else old(player.inventory.Snapshot())
  {
    if player == null {
      return;
    }
    match item.itemType {
      case Armor =>
        player.EquipArmorBonus(item.armorBonus);
      case Medkit =>
        player.UseMedkitHeal(item.healAmount);
      case Keycard =>
        player.UseKeycard(item.name);
      case OverwriteCard =>
      case Weapon =>
    }
  }
}
