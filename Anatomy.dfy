/**
 * The per-limb damage model: four body parts, each with current and maximum
 * hit points, and the rule that applies a hit to one of them.
 */
module Anatomy {

  datatype BodyPartType = Head | Thorax | Arm | Leg

  datatype BodyPart = BodyPart(hp: int, maxHp: int) {
    /** A part is blacked out once its hit points reach zero. */
    predicate IsBlackedOut() {
      hp <= 0
    }
  }

  /** `BodyPart(m)`: a part at full health `m`; the default `BodyPart()` is `NewPart(0)`. */
  function NewPart(m: int): (p: BodyPart)
    ensures p.hp == p.maxHp
    ensures p.IsBlackedOut() <==> m <= 0
    ensures p.maxHp == m
  {
    BodyPart(m, m)
  }

  /** The `bodyParts` map of a combatant. */
  type Body = map<BodyPartType, BodyPart>

  /** All four parts present, each with hit points between zero and its maximum. */
  predicate BodyOk(b: Body) {
    Head in b && Thorax in b && Arm in b && Leg in b && forall p :: p in b ==> 0 <= b[p].hp <= b[p].maxHp
  }

  /** `bodyParts[p]` as a read through `operator[]`: a missing part reads as `BodyPart()`. */
  function At(b: Body, p: BodyPartType): BodyPart {
    if p in b then b[p] else NewPart(0)
  }

  /** `initBodyParts`: a Scav's smaller pools, or the pools every other combatant starts with. */
  function InitialBody(isScav: bool): Body {
    if isScav then
      map[Head := NewPart(50), Thorax := NewPart(150), Arm := NewPart(100), Leg := NewPart(100)]
    else
      map[Head := NewPart(50), Thorax := NewPart(200), Arm := NewPart(150), Leg := NewPart(150)]
  }

  /**
   * `isDead`: the head or the thorax is blacked out. (The source looks both up
   * with `at`; every body the model builds has them, see `BodyOk`.)
   */
  predicate IsDead(b: Body) {
    At(b, Head).IsBlackedOut() || At(b, Thorax).IsBlackedOut()
  }

  /** A fresh body is well formed, at full health everywhere, and alive. */
  lemma InitialBodyIsHealthy(isScav: bool)
    ensures BodyOk(InitialBody(isScav))
    ensures forall p :: p in InitialBody(isScav) ==> InitialBody(isScav)[p].hp == InitialBody(isScav)[p].maxHp > 0
    ensures !IsDead(InitialBody(isScav))
  {
  }

  /**
   * `applyDamage`: a hit on a part that is already blacked out zeroes the head
   * and the thorax and leaves the hit part as it was; any other hit takes
   * `dmg` from the part, stopping at zero.
   */
  function Damaged(b: Body, part: BodyPartType, dmg: int): Body {
    var bp := At(b, part);
    var b1 := b[part := bp];
    if bp.IsBlackedOut() then
      var b2 := b1[Head := At(b1, Head).(hp := 0)];
      b2[Thorax := At(b2, Thorax).(hp := 0)]
    else
      b1[part := bp.(hp := if bp.hp - dmg < 0 then 0 else bp.hp - dmg)]
  }

  /** A hit on a live part lowers it to `max(0, hp - dmg)` and leaves the other parts alone. */
  lemma DamageLivePart(b: Body, part: BodyPartType, dmg: int)
    requires part in b && !b[part].IsBlackedOut()
    ensures Damaged(b, part, dmg).Keys == b.Keys
    ensures Damaged(b, part, dmg)[part].hp == (if b[part].hp - dmg < 0 then 0 else b[part].hp - dmg)
    ensures Damaged(b, part, dmg)[part].maxHp == b[part].maxHp
    ensures forall q :: q in b && q != part ==> Damaged(b, part, dmg)[q] == b[q]
  {
  }

  /**
   * Overkill: a hit on a blacked-out part zeroes the head and the thorax, which
   * kills, and changes neither the arm nor the leg nor any maximum.
   */
  lemma OverkillKills(b: Body, part: BodyPartType, dmg: int)
    requires part in b && b[part].IsBlackedOut()
    requires Head in b && Thorax in b
    ensures Damaged(b, part, dmg).Keys == b.Keys
    ensures Damaged(b, part, dmg)[Head] == b[Head].(hp := 0)
    ensures Damaged(b, part, dmg)[Thorax] == b[Thorax].(hp := 0)
    ensures forall q :: q in b && q != Head && q != Thorax ==> Damaged(b, part, dmg)[q] == b[q]
    ensures IsDead(Damaged(b, part, dmg))
  {
  }

  /** Hits of non-negative damage keep every part between zero and its maximum. */
  lemma DamageKeepsBodyOk(b: Body, part: BodyPartType, dmg: int)
    requires BodyOk(b) && dmg >= 0
    ensures BodyOk(Damaged(b, part, dmg))
  {
  }

  /** Nothing revives: a dead body stays dead whatever part is hit and for how much. */
  lemma DeathIsFinal(b: Body, part: BodyPartType, dmg: int)
    requires IsDead(b)
    ensures IsDead(Damaged(b, part, dmg))
  {
  }

  /**
   * Only the hit part decides overkill: with the arm blacked out, a hit on the
   * healthy leg does ordinary damage and does not kill.
   */
  lemma BlackedOutArmDoesNotDoomLeg()
    ensures var b := InitialBody(false)[Arm := BodyPart(0, 150)];
            !IsDead(Damaged(b, Leg, 10)) && Damaged(b, Leg, 10)[Leg].hp == 140
  {
  }
}
