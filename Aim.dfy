/**
 * Range and the chance to hit: the three distance bands an engagement moves
 * through, and `calculateHitChance`'s two formulas, a fixed table for pistols
 * and an accuracy product for every other weapon.
 */
module Aim {
  import opened Wrappers
  import opened Anatomy
  import opened Weapons

  datatype Distance = Close | Medium | Far

  /** The integer behind each band: Close = 0, Medium = 1, Far = 2. */
  function Band(d: Distance): int {
    match d
    case Close => 0
    case Medium => 1
    case Far => 2
  }

  /** `static_cast<Distance>(n)` for the three values that name a band. */
  function FromBand(n: int): Distance
    requires 0 <= n <= 2
  {
    if n == 0 then Close else if n == 1 then Medium else Far
  }

  /** The bands and their integers are in one-to-one correspondence, so the bands are totally ordered. */
  lemma BandsAreOrdered(d: Distance, n: int)
    ensures 0 <= Band(d) <= 2
    ensures FromBand(Band(d)) == d
    ensures 0 <= n <= 2 ==> Band(FromBand(n)) == n
  {
  }

  /** "move closer": one band nearer, except at Close. */
  function Closer(d: Distance): Distance {
    if d != Close then FromBand(Band(d) - 1) else d
  }

  /** "move further": one band farther, except at Far. */
  function Further(d: Distance): Distance {
    if d != Far then FromBand(Band(d) + 1) else d
  }

  /** Each move changes the band by exactly one, stops at the ends, and the two moves undo each other. */
  lemma MovesStepOneBand(d: Distance)
    ensures Band(Closer(d)) == if d == Close then 0 else Band(d) - 1
    ensures Band(Further(d)) == if d == Far then 2 else Band(d) + 1
    ensures d != Close ==> Further(Closer(d)) == d
    ensures d != Far ==> Closer(Further(d)) == d
  {
  }

  /** What `calculateHitChance` reads of the shooter's weapon. */
  datatype Sight = Sight(kind: WeaponType, accuracy: real, scoped: bool)

  /** The fixed pistol percentages, by distance and target. */
  function PistolChance(d: Distance, p: BodyPartType): real {
    match d
    case Far => (match p case Head => 0.20 case Thorax => 0.30 case Arm => 0.25 case Leg => 0.25)
    case Medium => (match p case Head => 0.35 case Thorax => 0.50 case Arm => 0.40 case Leg => 0.40)
    case Close => (match p case Head => 0.70 case Thorax => 0.90 case Arm => 0.80 case Leg => 0.80)
  }

  /** `distMods`, indexed by the band. */
  function DistanceFactor(d: Distance): real {
    match d
    case Close => 1.0
    case Medium => 0.7
    case Far => 0.4
  }

  function PartFactor(p: BodyPartType): real {
    match p
    case Head => 0.30
    case Thorax => 0.80
    case Arm => 0.60
    case Leg => 0.60
  }

  function Clamp01(x: real): real {
    if x < 0.0 then 0.0 else if x > 1.0 then 1.0 else x
  }

  /** The accuracy a non-pistol starts from: a scoped Rifle gains 0.40. */
  function EffectiveAccuracy(s: Sight): real {
    if s.kind == Rifle && s.scoped then s.accuracy + 0.40 else s.accuracy
  }

  /** The accuracy product before it is clamped. */
  function RawChance(s: Sight, d: Distance, p: BodyPartType): real {
    EffectiveAccuracy(s) * DistanceFactor(d) * PartFactor(p)
  }

  /**
   * `calculateHitChance`: nothing without a weapon, the table for a pistol,
   * otherwise the accuracy product clamped to [0, 1]. Always a probability.
   */
  function HitChance(w: Option<Sight>, d: Distance, p: BodyPartType): (r: real)
    ensures 0.0 <= r <= 1.0
    ensures w.None? ==> r == 0.0
  {
    match w
    case None => 0.0
    case Some(s) =>
      if s.kind == Pistol then PistolChance(d, p) else Clamp01(RawChance(s, d, p))
  }

  /** A pistol's chance depends on distance and target only, never on accuracy or scope. */
  lemma PistolIgnoresAccuracy(a: Sight, b: Sight, d: Distance, p: BodyPartType)
    requires a.kind == Pistol && b.kind == Pistol
    ensures HitChance(Some(a), d, p) == HitChance(Some(b), d, p)
  {
  }

  lemma ClampIsMonotone(x: real, y: real)
    requires x <= y
    ensures Clamp01(x) <= Clamp01(y)
  {
  }

  /** For every weapon and target, a nearer band never lowers the chance to hit. */
  lemma NearerIsNeverWorse(w: Option<Sight>, d1: Distance, d2: Distance, p: BodyPartType)
    requires Band(d1) <= Band(d2)
    ensures HitChance(w, d1, p) >= HitChance(w, d2, p)
  {
    if w.Some? && w.value.kind != Pistol {
      var a, f := EffectiveAccuracy(w.value), PartFactor(p);
      if a * f >= 0.0 {
        assert RawChance(w.value, d1, p) == (a * f) * DistanceFactor(d1);
        assert RawChance(w.value, d2, p) == (a * f) * DistanceFactor(d2);
        ClampIsMonotone(RawChance(w.value, d2, p), RawChance(w.value, d1, p));
      }
    }
  }

  /** For every weapon and distance, the head is the hardest target, the thorax the easiest, arm and leg alike. */
  lemma TargetOrder(w: Option<Sight>, d: Distance)
    ensures HitChance(w, d, Head) <= HitChance(w, d, Arm)
    ensures HitChance(w, d, Arm) == HitChance(w, d, Leg)
    ensures HitChance(w, d, Arm) <= HitChance(w, d, Thorax)
  {
    if w.Some? && w.value.kind != Pistol {
      var x := EffectiveAccuracy(w.value) * DistanceFactor(d);
      assert RawChance(w.value, d, Head) == x * 0.30;
      assert RawChance(w.value, d, Arm) == x * 0.60;
      assert RawChance(w.value, d, Thorax) == x * 0.80;
      if x >= 0.0 {
        ClampIsMonotone(x * 0.30, x * 0.60);
        ClampIsMonotone(x * 0.60, x * 0.80);
      }
    }
  }

  /** Scoping in never lowers a weapon's chance to hit, and only a Rifle's chance depends on it. */
  lemma ScopeNeverHurts(kind: WeaponType, acc: real, d: Distance, p: BodyPartType)
    ensures HitChance(Some(Sight(kind, acc, true)), d, p) >= HitChance(Some(Sight(kind, acc, false)), d, p)
    ensures kind != Rifle ==> HitChance(Some(Sight(kind, acc, true)), d, p) == HitChance(Some(Sight(kind, acc, false)), d, p)
  {
    var k := DistanceFactor(d) * PartFactor(p);
    assert k > 0.0;
    assert RawChance(Sight(kind, acc, false), d, p) == acc * k;
    if kind == Rifle {
      assert RawChance(Sight(kind, acc, true), d, p) == (acc + 0.40) * k;
      ClampIsMonotone(acc * k, (acc + 0.40) * k);
    }
  }

  /**
   * With the statistics the weapons are built with, the accuracy product is
   * already a probability, scoped or not: the clamp never changes it.
   */
  lemma ClampIdleForBuiltWeapons(t: WeaponType, scoped: bool, d: Distance, p: BodyPartType)
    requires t != Pistol
    ensures 0.0 <= RawChance(Sight(t, StatsOf(t).accuracy, scoped), d, p) <= 1.0
    ensures HitChance(Some(Sight(t, StatsOf(t).accuracy, scoped)), d, p)
         == RawChance(Sight(t, StatsOf(t).accuracy, scoped), d, p)
  {
    var s := Sight(t, StatsOf(t).accuracy, scoped);
    assert 0.0 <= EffectiveAccuracy(s) <= 1.0;
    assert 0.0 < DistanceFactor(d) <= 1.0 && 0.0 < PartFactor(p) <= 1.0;
    var x := EffectiveAccuracy(s) * DistanceFactor(d);
    assert 0.0 <= x <= 1.0;
    assert RawChance(s, d, p) == x * PartFactor(p);
  }
}
