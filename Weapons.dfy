/**
 * Firearms: per-type statistics fixed at construction, and a magazine whose
 * rounds, reload flag and scope flag change as the weapon fires, reloads and
 * scopes in.
 */
module Weapons {

  datatype WeaponType = Rifle | AssaultRifle | Shotgun | Pistol

  /** The statistics a weapon of each type is built with. */
  datatype Stats = Stats(name: string, damage: int, accuracy: real, maxAmmo: int)

  function StatsOf(t: WeaponType): Stats {
    match t
    case Rifle => Stats("Rifle", 80, 0.60, 5)
    case AssaultRifle => Stats("Assault Rifle", 25, 0.75, 30)
    case Shotgun => Stats("Shotgun", 60, 0.50, 8)
    case Pistol => Stats("Pistol", 50, 0.65, 15)
  }

  /** Every type does positive damage, has an accuracy strictly between 0 and 1, and holds at least one round. */
  lemma StatsAreSane(t: WeaponType)
    ensures StatsOf(t).damage > 0
    ensures 0.0 < StatsOf(t).accuracy < 1.0
    ensures StatsOf(t).maxAmmo > 0
  {
  }

  /** The part of a weapon its methods change. */
  datatype Magazine = Magazine(ammo: int, reloading: bool, scoped: bool)

  /** The magazine invariant: rounds within capacity, and a weapon marked as reloading is empty. */
  predicate MagazineOk(m: Magazine, maxAmmo: int) {
    0 <= m.ammo <= maxAmmo && (m.reloading ==> m.ammo == 0)
  }

  /** `needsReload`: empty, or marked as reloading. */
  predicate NeedsReload(m: Magazine) {
    m.ammo == 0 || m.reloading
  }

  /**
   * `fireOne`: whether a round was spent, and the magazine afterwards.
   * A Rifle drops its scope after a shot.
   */
  function Fire(t: WeaponType, m: Magazine): (bool, Magazine) {
    if m.ammo <= 0 then (false, m)
    else (true, Magazine(m.ammo - 1, m.ammo - 1 == 0, if t == Rifle then false else m.scoped))
  }

  /** `reload`: a full magazine stays as it is; otherwise it is refilled and the reload flag cleared. */
  function Refilled(m: Magazine, maxAmmo: int): Magazine {
    if m.ammo == maxAmmo then m else Magazine(maxAmmo, false, m.scoped)
  }

  /** `toggleScope`: only a Rifle can scope in or out. */
  function Toggled(t: WeaponType, m: Magazine): Magazine {
    if t != Rifle then m else m.(scoped := !m.scoped)
  }

  /**
   * A shot is spent exactly when a round is loaded; it takes exactly one round,
   * marks the weapon as reloading exactly when that was the last round, and
   * only a Rifle's scope is affected.
   */
  lemma FireSpendsOneRound(t: WeaponType, m: Magazine)
    ensures Fire(t, m).0 <==> m.ammo > 0
    ensures !Fire(t, m).0 ==> Fire(t, m).1 == m
    ensures Fire(t, m).0 ==> Fire(t, m).1.ammo == m.ammo - 1
    ensures Fire(t, m).0 ==> (Fire(t, m).1.reloading <==> Fire(t, m).1.ammo == 0)
    ensures t != Rifle ==> Fire(t, m).1.scoped == m.scoped
    ensures t == Rifle && Fire(t, m).0 ==> !Fire(t, m).1.scoped
  {
  }

  /** Firing, reloading and scoping keep the magazine invariant. */
  lemma OperationsKeepMagazineOk(t: WeaponType, m: Magazine, maxAmmo: int)
    requires MagazineOk(m, maxAmmo)
    ensures MagazineOk(Fire(t, m).1, maxAmmo)
    ensures MagazineOk(Refilled(m, maxAmmo), maxAmmo)
    ensures MagazineOk(Toggled(t, m), maxAmmo)
  {
  }

  /** Whatever the magazine held, a reload leaves it full. */
  lemma ReloadFills(m: Magazine, maxAmmo: int)
    ensures Refilled(m, maxAmmo).ammo == maxAmmo
    ensures m.ammo != maxAmmo ==> !Refilled(m, maxAmmo).reloading
  {
  }

  /** After a reload a weapon with any capacity at all is ready to fire. */
  lemma ReloadMakesReady(m: Magazine, maxAmmo: int)
    requires MagazineOk(m, maxAmmo) && maxAmmo > 0
    ensures !NeedsReload(Refilled(m, maxAmmo))
  {
  }

  /** Once a weapon needs a reload, neither firing nor scoping clears that: only a reload does. */
  lemma NeedsReloadUntilReload(t: WeaponType, m: Magazine, maxAmmo: int)
    requires MagazineOk(m, maxAmmo)
    requires NeedsReload(m)
    ensures NeedsReload(Fire(t, m).1)
    ensures NeedsReload(Toggled(t, m))
  {
  }

  /** The magazine after `n` consecutive calls of `fireOne`. */
  function FireTimes(t: WeaponType, m: Magazine, n: nat): Magazine
    decreases n
  {
    if n == 0 then m else Fire(t, FireTimes(t, m, n - 1)).1
  }

  /**
   * A ready weapon holding `k` rounds fires exactly `k` shots before it needs
   * a reload: every earlier state is still ready, and the `k`-th shot leaves it
   * empty and marked as reloading.
   */
  lemma {:induction false} MagazineEmptiesAfterAmmoShots(t: WeaponType, m: Magazine, n: nat)
    requires !NeedsReload(m) && m.ammo > 0 && n <= m.ammo
    ensures FireTimes(t, m, n).ammo == m.ammo - n
    ensures n < m.ammo ==> !NeedsReload(FireTimes(t, m, n))
    ensures n == m.ammo ==> FireTimes(t, m, n).reloading
    decreases n
  {
    if n > 0 {
      MagazineEmptiesAfterAmmoShots(t, m, n - 1);
    }
  }

  class Weapon {
    const kind: WeaponType
    const name: string
    const baseDamage: int
    const baseAccuracy: real
    const maxAmmo: int
    var ammo: int
    var reloading: bool
    var scoped: bool

    function Mag(): Magazine
      reads this
    {
      Magazine(ammo, reloading, scoped)
    }

    /** The statistics are those of the weapon's type, and the magazine invariant holds. */
    predicate Valid()
      reads this
    {
      StatsOf(kind) == Stats(name, baseDamage, baseAccuracy, maxAmmo) && MagazineOk(Mag(), maxAmmo)
    }

    /** A new weapon carries its type's statistics, a full magazine, and is neither reloading nor scoped. */
    constructor (t: WeaponType)
      ensures Valid() && kind == t
      ensures name == StatsOf(t).name && baseDamage == StatsOf(t).damage
      ensures baseAccuracy == StatsOf(t).accuracy && maxAmmo == StatsOf(t).maxAmmo
      ensures ammo == maxAmmo && !reloading && !scoped
    {
      kind := t;
      var s := StatsOf(t);
      name, baseDamage, baseAccuracy, maxAmmo := s.name, s.damage, s.accuracy, s.maxAmmo;
      ammo := s.maxAmmo;
      reloading, scoped := false, false;
    }

    predicate NeedsReloadNow()
      reads this
    {
      NeedsReload(Mag())
    }

    method FireOne() returns (fired: bool)
      requires Valid()
      modifies this
      ensures Valid()
      ensures (fired, Mag()) == Fire(kind, old(Mag()))
    {
      if ammo <= 0 {
        return false;
      }
      ammo := ammo - 1;
      reloading := ammo == 0;
      if kind == Rifle && scoped {
        scoped := false;
      }
      fired := true;
    }

    method Reload()
      requires Valid()
      modifies this
      ensures Valid()
      ensures Mag() == Refilled(old(Mag()), maxAmmo)
    {
      if ammo == maxAmmo {
        return;
      }
      ammo := maxAmmo;
      reloading := false;
    }

    method ToggleScope()
      requires Valid()
      modifies this
      ensures Valid()
      ensures Mag() == Toggled(kind, old(Mag()))
    {
      if kind != Rifle {
        return;
      }
      scoped := !scoped;
    }
  }

  /** `WeaponFactory::createWeapon`: a fresh weapon of the given type. */
  method CreateWeapon(t: WeaponType) returns (w: Weapon)
    ensures fresh(w) && w.Valid() && w.kind == t
    ensures w.ammo == w.maxAmmo && !w.reloading && !w.scoped
  {
    w := new Weapon(t);
  }
}
