/**
 * Things the player can carry. An item's name, description and type are
 * fixed when it is made; its damage, armour bonus and heal amount start at
 * zero and are set afterwards.
 */
module Items {

  datatype ItemType = Weapon | Armor | Medkit | Keycard | OverwriteCard

  class Item {
    const name: string
    const description: string
    const itemType: ItemType
    var damage: int
    var armorBonus: int
    var healAmount: int

    constructor (name: string, description: string, itemType: ItemType)
      ensures this.name == name && this.description == description && this.itemType == itemType
      ensures damage == 0 && armorBonus == 0 && healAmount == 0
    {
      this.name := name;
      this.description := description;
      this.itemType := itemType;
      damage := 0;
      armorBonus := 0;
      healAmount := 0;
    }

    method SetDamage(dmg: int)
      modifies this`damage
      ensures damage == dmg
    {
      damage := dmg;
    }

    method SetArmorBonus(bonus: int)
      modifies this`armorBonus
      ensures armorBonus == bonus
    {
      armorBonus := bonus;
    }

    method SetHealAmount(heal: int)
      modifies this`healAmount
      ensures healAmount == heal
    {
      healAmount := heal;
    }
  }
}
