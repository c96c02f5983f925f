/**
 * Combat resolution: combatants with four body parts, a weapon and
 * cover/flanking flags; the shot, the enemy's decision, and the manager
 * that runs an engagement turn by turn over one shared distance.
 *
 * The process-wide random generator is an `Rng` object whose draws are
 * given in advance; console input is a sequence of command strings.
 */
module Combat {
  import opened Wrappers
  import opened Text
  import opened Anatomy
  import opened Aim
  import opened Weapons

  datatype EnemyType = Scav | PmcChinese | PmcJapanese

  /** Which of the two combatant kinds an object is. */
  datatype Side = PlayerSide | EnemySide(enemyType: EnemyType)

  function EnemyName(t: EnemyType): string {
    match t
    case Scav => "Scavenger"
    case PmcChinese => "PMC (C)"
    case PmcJapanese => "PMC (J)"
  }

  /**
   * The shared `std::mt19937` read through `uniform_real_distribution(0, 1)`:
   * the `i`-th value ever drawn is `draws(i)`, and `used` values have been drawn.
   */
  class Rng {
    const draws: nat -> real
    var used: nat

    constructor (draws: nat -> real)
      requires forall i :: 0.0 <= draws(i) < 1.0
      ensures this.draws == draws && used == 0
    {
      this.draws := draws;
      used := 0;
    }

    method Next() returns (r: real)
      modifies this`used
      ensures r == draws(old(used)) && used == old(used) + 1
    {
      r := draws(used);
      used := used + 1;
    }
  }

  /** The flags `tick` works on. */
  datatype FlankState = FlankState(inCover: bool, flanking: bool, countdown: int)

  /**
   * `tick`: while flanking, count down; when the count reaches zero or below,
   * the manoeuvre ends and cover is lost. Without a flank nothing moves, not
   * even the countdown.
   */
  function Ticked(s: FlankState): FlankState {
    if !s.flanking then s
    else if s.countdown - 1 <= 0 then FlankState(false, false, s.countdown - 1)
    else s.(countdown := s.countdown - 1)
  }

  function TickTimes(s: FlankState, n: nat): FlankState
    decreases n
  {
    if n == 0 then s else Ticked(TickTimes(s, n - 1))
  }

  /** A combatant that is not flanking is left exactly as it is by any number of ticks. */
  lemma {:induction false} TicksIdleWithoutFlank(s: FlankState, n: nat)
    requires !s.flanking
    ensures TickTimes(s, n) == s
    decreases n
  {
    if n > 0 {
      TicksIdleWithoutFlank(s, n - 1);
    }
  }

  /** Ticks compose: `a` ticks followed by `b` more are `a + b` ticks. */
  lemma {:induction false} TickTimesAdds(s: FlankState, a: nat, b: nat)
    ensures TickTimes(TickTimes(s, a), b) == TickTimes(s, a + b)
    decreases b
  {
    if b > 0 {
      TickTimesAdds(s, a, b - 1);
    }
  }

  /**
   * A flank started with countdown `k >= 1` is still under way, cover
   * untouched, for the first `j < k` ticks, and the `k`-th tick ends it and
   * strips cover.
   */
  lemma {:induction false} FlankEndsAfterCountdown(s: FlankState, j: nat)
    requires s.flanking && s.countdown >= 1 && j <= s.countdown
    ensures j < s.countdown ==> TickTimes(s, j) == s.(countdown := s.countdown - j)
    ensures j == s.countdown ==> TickTimes(s, j) == FlankState(false, false, 0)
    decreases j
  {
    if j > 0 {
      FlankEndsAfterCountdown(s, j - 1);
    }
  }

  /** A hit lands when the roll does not exceed the chance. */
  function Struck(b: Body, part: BodyPartType, dmg: int, roll: real, chance: real): Body {
    if roll <= chance then Damaged(b, part, dmg) else b
  }

  /**
   * The enemy's aim: Thorax, unless a roll picks the head (below 0.2), then the
   * leg, then the arm (each below 0.3). A blacked-out part is skipped without a
   * roll. Returns the part and the index of the next unused draw.
   */
  function ChooseTarget(b: Body, draws: nat -> real, pos: nat): (BodyPartType, nat) {
    var headUp := !At(b, Head).IsBlackedOut();
    if headUp && draws(pos) < 0.2 then (Head, pos + 1)
    else
      var p1 := if headUp then pos + 1 else pos;
      var legUp := !At(b, Leg).IsBlackedOut();
      if legUp && draws(p1) < 0.3 then (Leg, p1 + 1)
      else
        var p2 := if legUp then p1 + 1 else p1;
        var armUp := !At(b, Arm).IsBlackedOut();
        if armUp && draws(p2) < 0.3 then (Arm, p2 + 1)
        else (Thorax, if armUp then p2 + 1 else p2)
  }

  /**
   * The enemy aims at the thorax or at a part that is not blacked out, draws
   * one value per live head, leg or arm it considers, and draws nothing when
   * all three are blacked out.
   */
  lemma ChooseTargetProperties(b: Body, draws: nat -> real, pos: nat)
    ensures ChooseTarget(b, draws, pos).0 == Thorax || !At(b, ChooseTarget(b, draws, pos).0).IsBlackedOut()
    ensures pos <= ChooseTarget(b, draws, pos).1 <= pos + 3
    ensures At(b, Head).IsBlackedOut() && At(b, Leg).IsBlackedOut() && At(b, Arm).IsBlackedOut()
            ==> ChooseTarget(b, draws, pos) == (Thorax, pos)
    ensures !At(b, Head).IsBlackedOut() && draws(pos) < 0.2 ==> ChooseTarget(b, draws, pos) == (Head, pos + 1)
  {
  }

  class Combatant {
    const name: string
    const side: Side
    var bodyParts: Body
    var inCover: bool
    var flanking: bool
    var flankCountdown: int
    var distance: Distance
    const weapon: Weapon?  // equipped once, by the constructor

    /** Four body parts within their bounds, and a consistent weapon if one is equipped. */
    predicate Valid()
      reads this, weapon
    {
      BodyOk(bodyParts) && (weapon != null ==> weapon.Valid())
    }

    /**
     * `Enemy(t)`: a Scav has the small pools and a pistol; any other faction
     * has the standard pools and, on one draw, an assault rifle below 0.7 or a
     * pistol otherwise. Out of cover, not flanking, at Medium.
     */
    constructor Enemy(t: EnemyType, rng: Rng)
      modifies rng`used
      ensures Valid() && side == EnemySide(t) && name == EnemyName(t)
      ensures bodyParts == InitialBody(t == Scav)
      ensures !inCover && !flanking && flankCountdown == 0 && distance == Medium
      ensures weapon != null && fresh(weapon)
      ensures weapon.ammo == weapon.maxAmmo && !weapon.reloading && !weapon.scoped
      ensures t == Scav ==> weapon.kind == Pistol && rng.used == old(rng.used)
      ensures t != Scav ==> rng.used == old(rng.used) + 1
      ensures t != Scav ==> weapon.kind == if rng.draws(old(rng.used)) < 0.7 then AssaultRifle else Pistol
    {
      var kind := Pistol;
      if t != Scav {
        var r := rng.Next();
        if r < 0.7 {
          kind := AssaultRifle;
        }
      }
      var w := CreateWeapon(kind);
      name := EnemyName(t);
      side := EnemySide(t);
      bodyParts := InitialBody(t == Scav);
      flanking := false;
      flankCountdown := 0;
      distance := Medium;
      weapon := w;
      inCover := false;
      new;
      InitialBodyIsHealthy(t == Scav);
    }

    /**
     * `PlayerCombatant(n)`: the standard pools and a fresh pistol, not
     * flanking, at Medium. The constructor never sets `inCover`.
     */
    constructor Player(n: string)
      ensures Valid() && side == PlayerSide && name == n
      ensures bodyParts == InitialBody(false)
      ensures !flanking && flankCountdown == 0 && distance == Medium
      ensures weapon != null && fresh(weapon) && weapon.kind == Pistol
      ensures weapon.ammo == weapon.maxAmmo && !weapon.reloading && !weapon.scoped
    {
      var w := CreateWeapon(Pistol);
      name := n;
      side := PlayerSide;
      bodyParts := InitialBody(false);
      flanking := false;
      flankCountdown := 0;
      distance := Medium;
      weapon := w;
      new;
      InitialBodyIsHealthy(false);
    }

    predicate IsDead()
      reads this
    {
      Anatomy.IsDead(bodyParts)
    }

    function Flank(): FlankState
      reads this
    {
      FlankState(inCover, flanking, flankCountdown)
    }

    method ApplyDamage(part: BodyPartType, dmg: int)
      modifies this`bodyParts
      ensures bodyParts == Damaged(old(bodyParts), part, dmg)
    {
      var bp := At(bodyParts, part);
      bodyParts := bodyParts[part := bp];
      if bp.hp <= 0 {
        bodyParts := bodyParts[Head := At(bodyParts, Head).(hp := 0)];
        bodyParts := bodyParts[Thorax := At(bodyParts, Thorax).(hp := 0)];
        return;
      }
      var hp := bp.hp - dmg;
      if hp < 0 {
        hp := 0;
      }
      bodyParts := bodyParts[part := bp.(hp := hp)];
    }

    function SightOf(): Option<Sight>
      reads this, weapon
    {
      if weapon == null then None else Some(Sight(weapon.kind, weapon.baseAccuracy, weapon.scoped))
    }

    /** `calculateHitChance`: a probability, and zero without a weapon. */
    function CalculateHitChance(part: BodyPartType): (r: real)
      reads this, weapon
      ensures 0.0 <= r <= 1.0
      ensures weapon == null ==> r == 0.0
    {
      HitChance(SightOf(), distance, part)
    }

    /**
     * `shootAt`. No shot without a weapon or with one that needs a reload.
     * Otherwise one round is spent; a target in cover takes nothing and no
     * value is drawn; else one value is drawn and the target takes the
     * weapon's damage on `part` exactly when it is at most the hit chance.
     * The chance is that of the weapon as aimed, before the shot clears a
     * Rifle's scope.
     */
    method ShootAt(target: Combatant, part: BodyPartType, rng: Rng) returns (fired: bool)
      requires Valid() && target.Valid()
      modifies weapon, target`bodyParts, rng`used
      ensures Valid() && target.Valid()
      ensures fired == (weapon != null && !old(weapon.NeedsReloadNow()))
      ensures ShotResolved(this, target, part, rng)
    {
      if weapon == null || weapon.NeedsReloadNow() {
        return false;
      }
      var chance := CalculateHitChance(part);
      var ok := weapon.FireOne();
      assert ok;  // not needing a reload means a round is loaded
      if target.inCover {
        return true;
      }
      var roll := rng.Next();
      if roll <= chance {
        StatsAreSane(weapon.kind);
        DamageKeepsBodyOk(target.bodyParts, part, weapon.baseDamage);
        target.ApplyDamage(part, weapon.baseDamage);
      }
      return true;
    }

    method ReloadWeapon()
      requires Valid()
      modifies weapon
      ensures Valid()
      ensures weapon != null ==> weapon.Mag() == Refilled(old(weapon.Mag()), weapon.maxAmmo)
    {
      if weapon != null {
        weapon.Reload();
      }
    }

    method TakeCover()
      modifies this`inCover
      ensures inCover
    {
      inCover := true;
    }

    method BreakCover()
      modifies this`inCover
      ensures !inCover
    {
      inCover := false;
    }

    method Tick()
      modifies this`inCover, this`flanking, this`flankCountdown
      ensures Flank() == Ticked(old(Flank()))
    {
      if flanking {
        flankCountdown := flankCountdown - 1;
        if flankCountdown <= 0 {
          inCover := false;
          flanking := false;
        }
      }
    }

    /**
     * The aiming half of `decideAction`: head, leg and arm are tried in turn,
     * each only while it is not blacked out and each on a draw of its own,
     * and the thorax is the fallback.
     */
    method AimAt(player: Combatant, rng: Rng) returns (target: BodyPartType)
      requires BodyOk(player.bodyParts)
      modifies rng`used
      ensures (target, rng.used) == ChooseTarget(player.bodyParts, rng.draws, old(rng.used))
    {
      target := Thorax;
      var chosen := false;
      if !player.bodyParts[Head].IsBlackedOut() {
        var r := rng.Next();
        if r < 0.2 {
          target, chosen := Head, true;
        }
      }
      if !chosen && !player.bodyParts[Leg].IsBlackedOut() {
        var r := rng.Next();
        if r < 0.3 {
          target, chosen := Leg, true;
        }
      }
      if !chosen && !player.bodyParts[Arm].IsBlackedOut() {
        var r := rng.Next();
        if r < 0.3 {
          target, chosen := Arm, true;
        }
      }
    }

    /**
     * `Enemy::decideAction`. A dead enemy does nothing. An enemy whose weapon
     * needs a reload reloads and does not shoot. A player in cover is not shot
     * at and no round is spent. Otherwise exactly one shot is fired at the part
     * `ChooseTarget` picks.
     */
    method DecideAction(player: Combatant, rng: Rng)
      requires side.EnemySide? && weapon != null && player != this
      requires Valid() && player.Valid()
      modifies weapon, player`bodyParts, rng`used
      ensures Valid() && player.Valid()
      ensures EnemyActed(this, player, rng)
    {
      if IsDead() {
        return;
      }
      if weapon.NeedsReloadNow() || weapon.ammo == 0 {
        ReloadWeapon();
        return;
      }
      if player.inCover {
        return;
      }
      var target := AimAt(player, rng);
      var _ := ShootAt(player, target, rng);
    }
  }

  /**
   * What a call of `decideAction` did, stated between the states before and
   * after it. A dead enemy changes nothing. An enemy that needs a reload only
   * refills its magazine. Against a player in cover nothing happens and no
   * round is spent. Otherwise the enemy aims as `ChooseTarget` says, spends
   * one round, and the player's body is struck on the draw after the aiming
   * draws, at the enemy's chance for that part.
   */
  twostate predicate EnemyActed(e: Combatant, player: Combatant, rng: Rng)
    requires e.weapon != null
    reads e, e.weapon, player, rng
  {
    && (old(e.IsDead()) || (!old(e.weapon.NeedsReloadNow()) && player.inCover) ==>
          e.weapon.Mag() == old(e.weapon.Mag()) && player.bodyParts == old(player.bodyParts) && rng.used == old(rng.used))
    && (!old(e.IsDead()) && old(e.weapon.NeedsReloadNow()) ==>
          e.weapon.Mag() == Refilled(old(e.weapon.Mag()), e.weapon.maxAmmo)
          && player.bodyParts == old(player.bodyParts) && rng.used == old(rng.used))
    && (!old(e.IsDead()) && !old(e.weapon.NeedsReloadNow()) && !player.inCover ==>
          var aim := ChooseTarget(old(player.bodyParts), rng.draws, old(rng.used));
          && e.weapon.Mag() == Fire(e.weapon.kind, old(e.weapon.Mag())).1
          && rng.used == aim.1 + 1
          && player.bodyParts
             == Struck(old(player.bodyParts), aim.0, e.weapon.baseDamage, rng.draws(aim.1), old(e.CalculateHitChance(aim.0))))
  }

  /**
   * What a call of `shootAt` did, stated between the states before and after
   * it: whether a round was spent, the magazine afterwards, and the target's
   * body and the draws used.
   */
  twostate predicate ShotResolved(shooter: Combatant, target: Combatant, part: BodyPartType, rng: Rng)
    reads shooter, shooter.weapon, target, rng
  {
    var fired := shooter.weapon != null && !old(shooter.weapon.NeedsReloadNow());
    && (shooter.weapon != null ==>
          shooter.weapon.Mag() == if fired then Fire(shooter.weapon.kind, old(shooter.weapon.Mag())).1
                                  else old(shooter.weapon.Mag()))
    && (if fired && !old(target.inCover) then
          && rng.used == old(rng.used) + 1
          && target.bodyParts == Struck(old(target.bodyParts), part, shooter.weapon.baseDamage,
                                        rng.draws(old(rng.used)), old(shooter.CalculateHitChance(part)))
        else
          target.bodyParts == old(target.bodyParts) && rng.used == old(rng.used))
  }

  /**
   * The chance `shootAt` resolves a shot against as the code is written: it
   * is computed after `fireOne`, which has already cleared a Rifle's scope.
   */
  function ShotChanceAsWritten(s: Sight, m: Magazine, d: Distance, p: BodyPartType): real {
    HitChance(Some(s.(scoped := Fire(s.kind, m).1.scoped)), d, p)
  }

  /**
   * As written, the scope never counts: every shot a Rifle fires is resolved
   * at its unscoped chance. A scoped Rifle at Close aiming at the thorax is
   * resolved at 0.48 instead of 0.80, so a roll of 0.6 misses.
   */
  lemma ScopeIgnoredAsWritten(s: Sight, m: Magazine, d: Distance, p: BodyPartType)
    requires s.kind == Rifle && m.ammo > 0
    ensures ShotChanceAsWritten(s, m, d, p) == HitChance(Some(s.(scoped := false)), d, p)
    ensures var rifle := Sight(Rifle, StatsOf(Rifle).accuracy, true);
            ShotChanceAsWritten(rifle, m, Close, Thorax) == 0.48
            && HitChance(Some(rifle), Close, Thorax) == 0.80
  {
    var rifle := Sight(Rifle, StatsOf(Rifle).accuracy, true);
    assert RawChance(rifle.(scoped := false), Close, Thorax) == 0.60 * 1.0 * 0.80;
    assert RawChance(rifle, Close, Thorax) == (0.60 + 0.40) * 1.0 * 0.80;
  }

  /**
   * With the chance taken before the shot, a scoped Rifle built with its
   * standard accuracy hits strictly more often than an unscoped one, at every
   * distance and on every part.
   */
  lemma ScopedRifleShotGetsBonus(d: Distance, p: BodyPartType)
    ensures HitChance(Some(Sight(Rifle, StatsOf(Rifle).accuracy, true)), d, p)
          > HitChance(Some(Sight(Rifle, StatsOf(Rifle).accuracy, false)), d, p)
  {
    var k := DistanceFactor(d) * PartFactor(p);
    assert 0.0 < k <= 1.0;
    assert RawChance(Sight(Rifle, 0.60, false), d, p) == 0.60 * k;
    assert RawChance(Sight(Rifle, 0.60, true), d, p) == 1.0 * k;
    ClampIdleForBuiltWeapons(Rifle, true, d, p);
    ClampIdleForBuiltWeapons(Rifle, false, d, p);
  }

  // ---------------------------------------------------------------------
  // Commands typed during a fight
  // ---------------------------------------------------------------------

  function PartName(p: BodyPartType): string {
    match p
    case Head => "head"
    case Thorax => "thorax"
    case Arm => "arm"
    case Leg => "leg"
  }

  /** `parseBodyPart`: a part name in any letter case; anything else means the thorax. */
  function ParseBodyPart(s: string): BodyPartType {
    var u := Lower(s);
    if u == "head" then Head
    else if u == "thorax" then Thorax
    else if u == "arm" then Arm
    else if u == "leg" then Leg
    else Thorax
  }

  /** A word names part `p` exactly when its lower-case form is `p`'s name, or `p` is the thorax fallback. */
  lemma ParseBodyPartMeaning(s: string, p: BodyPartType)
    ensures ParseBodyPart(s) == p
            <==> Lower(s) == PartName(p) || (p == Thorax && Lower(s) !in {"head", "arm", "leg"})
  {
  }

  /** Letter case does not matter, and every part's own name parses back to it. */
  lemma ParseBodyPartRoundTrip(s: string, p: BodyPartType)
    ensures ParseBodyPart(Lower(s)) == ParseBodyPart(s)
    ensures ParseBodyPart(PartName(p)) == p
  {
    LowerProperties(s);
    LowerFixesLowercase(PartName(p));
  }

  /** A line typed at the `Command>` prompt, as `promptPlayerAction` tells them apart. */
  datatype PlayerCommand =
    | MoveCloser
    | MoveFurther
    | TakeCoverCommand
    | Shoot(part: Option<BodyPartType>)
    | ReloadCommand
    | Flee(destination: Option<string>)
    | Unknown

  /**
   * Exact matches for the numbered and spelled-out moves; any line beginning
   * with "shoot" or "flee" takes its second whitespace-separated word, if any.
   * The menu's "4" and "6" are not matched.
   */
  function ClassifyPlayerCommand(cmd: string): PlayerCommand {
    if cmd == "1" || cmd == "move closer" then MoveCloser
    else if cmd == "2" || cmd == "move further" then MoveFurther
    else if cmd == "3" || cmd == "take cover" then TakeCoverCommand
    else if StartsWith(cmd, "shoot") then
      var ws := Tokens(cmd);
      Shoot(if |ws| < 2 then None else Some(ParseBodyPart(ws[1])))
    else if cmd == "5" || cmd == "reload" then ReloadCommand
    else if StartsWith(cmd, "flee") then
      var ws := Tokens(cmd);
      Flee(if |ws| < 2 then None else Some(ws[1]))
    else Unknown
  }

  /** The line ends the fight: "flee" followed by a destination. */
  predicate Fled(cmd: string) {
    ClassifyPlayerCommand(cmd).Flee? && ClassifyPlayerCommand(cmd).destination.Some?
  }

  /** None of the first `n` commands is a flight with a destination. */
  predicate NoneFledBefore(cmds: seq<string>, n: int) {
    forall k :: 0 <= k < n && k < |cmds| ==> !Fled(cmds[k])
  }

  /** A command that does not flee extends a run of such commands by one. */
  lemma NoneFledExtends(cmds: seq<string>, n: int)
    requires 0 <= n < |cmds| && NoneFledBefore(cmds, n) && !Fled(cmds[n])
    ensures NoneFledBefore(cmds, n + 1)
  {
  }

  /** "shoot <word>" aims at the part the word names, the thorax when it names none. */
  lemma ShootCommandParses(word: string)
    requires IsWord(word)
    ensures ClassifyPlayerCommand("shoot " + word) == Shoot(Some(ParseBodyPart(word)))
  {
    assert ("shoot " + word)[0] == 's';
    TokensSplit("shoot", ' ', word);
    TokensOfWord("shoot");
    TokensOfWord(word);
    assert "shoot" + [' '] + word == "shoot " + word;
    assert ("shoot " + word)[..5] == "shoot";
  }

  /** "shoot <part>" aims at that part, for each of the four part names. */
  lemma ShootingAPartByName()
    ensures forall p :: ClassifyPlayerCommand("shoot " + PartName(p)) == Shoot(Some(p))
  {
    forall p
      ensures ClassifyPlayerCommand("shoot " + PartName(p)) == Shoot(Some(p))
    {
      ShootCommandParses(PartName(p));
      ParseBodyPartRoundTrip(PartName(p), p);
    }
  }

  /** "flee <place>" flees to that place. */
  lemma FleeCommandParses(place: string)
    requires IsWord(place)
    ensures ClassifyPlayerCommand("flee " + place) == Flee(Some(place))
  {
    var cmd := "flee " + place;
    assert cmd[0] == 'f' && cmd[1] == 'l';
    assert !StartsWith(cmd, "shoot");
    assert cmd[..4] == "flee";
    TokensSplit("flee", ' ', place);
    TokensOfWord("flee");
    TokensOfWord(place);
    assert "flee" + [' '] + place == cmd;
  }

  /**
   * "shoot" or "flee" alone is only a usage message, and the menu numbers 4
   * and 6 are unknown commands.
   */
  lemma BareCommandsDoNothing()
    ensures ClassifyPlayerCommand("shoot") == Shoot(None)
    ensures ClassifyPlayerCommand("flee") == Flee(None)
    ensures ClassifyPlayerCommand("4") == Unknown && ClassifyPlayerCommand("6") == Unknown
  {
    TokensOfWord("shoot");
    TokensOfWord("flee");
  }

  // ---------------------------------------------------------------------
  // The combatants of one fight
  // ---------------------------------------------------------------------

  /** Every enemy is an `Enemy` and carries a weapon, as its constructor guarantees. */
  predicate Armed(es: seq<Combatant>) {
    forall e :: e in es ==> e.side.EnemySide? && e.weapon != null
  }

  function Arms(es: seq<Combatant>): set<Weapon> {
    set e | e in es && e.weapon != null :: e.weapon
  }

  predicate AllValid(es: seq<Combatant>)
    reads es, Arms(es)
  {
    forall e :: e in es ==> e.Valid()
  }

  predicate AllDead(es: seq<Combatant>)
    reads es
  {
    forall e :: e in es ==> e.IsDead()
  }

  /** The position of the first living enemy at or after `i`, the one the player shoots at. */
  function FirstLivingFrom(es: seq<Combatant>, i: nat): (r: Option<nat>)
    reads es
    requires i <= |es|
    ensures r.Some? ==> i <= r.value < |es| && !es[r.value].IsDead()
    ensures r.Some? ==> forall j :: i <= j < r.value ==> es[j].IsDead()
    ensures r.None? <==> forall j :: i <= j < |es| ==> es[j].IsDead()
    decreases |es| - i
  {
    if i == |es| then None
    else if !es[i].IsDead() then Some(i)
    else FirstLivingFrom(es, i + 1)
  }

  /** Everyone shares the one distance of the fight. */
  predicate Synced(player: Combatant, es: seq<Combatant>, d: Distance)
    reads player, es
  {
    player.distance == d && forall e :: e in es ==> e.distance == d
  }

  /** How `engage` ended; `AwaitingInput` when the scripted input ran out first. */
  datatype Outcome = Finished(playerSurvived: bool) | AwaitingInput

  class CombatManager {
    var currentDistance: Distance

    constructor ()
    {
    }

    method AllEnemiesDead(es: seq<Combatant>) returns (allDead: bool)
      ensures allDead <==> AllDead(es)
    {
      for i := 0 to |es|
        invariant forall j :: 0 <= j < i ==> es[j].IsDead()
      {
        if !es[i].IsDead() {
          return false;
        }
      }
      return true;
    }

    /** Puts the player and every enemy at distance `d`. */
    method SetDistance(player: Combatant, es: seq<Combatant>, d: Distance)
      modifies player`distance, es`distance
      ensures Synced(player, es, d)
    {
      player.distance := d;
      for i := 0 to |es|
        invariant player.distance == d
        invariant forall j :: 0 <= j < i ==> es[j].distance == d
      {
        es[i].distance := d;
      }
    }

    /** "move closer" or "move further": the shared distance steps one band, and nobody moves at the end of the range. */
    method Move(player: Combatant, es: seq<Combatant>, closer: bool)
      requires Synced(player, es, currentDistance)
      modifies this`currentDistance, player`distance, es`distance
      ensures currentDistance == if closer then Closer(old(currentDistance)) else Further(old(currentDistance))
      ensures Synced(player, es, currentDistance)
    {
      if closer && currentDistance != Close {
        currentDistance := Closer(currentDistance);
        SetDistance(player, es, currentDistance);
      } else if !closer && currentDistance != Far {
        currentDistance := Further(currentDistance);
        SetDistance(player, es, currentDistance);
      }
    }

    /** "shoot <part>": the player fires at the first living enemy; with none left, nothing happens. */
    method PlayerShoot(player: Combatant, es: seq<Combatant>, part: BodyPartType, rng: Rng)
      requires player !in es && player.Valid() && AllValid(es)
      modifies player.weapon, es`bodyParts, rng`used
      ensures player.Valid() && AllValid(es)
      ensures old(FirstLivingFrom(es, 0)).None? ==>
        (player.weapon != null ==> player.weapon.Mag() == old(player.weapon.Mag())) && rng.used == old(rng.used) && forall e :: e in es ==> e.bodyParts == old(e.bodyParts)
      ensures old(FirstLivingFrom(es, 0)).Some? ==>
        var target := es[old(FirstLivingFrom(es, 0)).value];
        && ShotResolved(player, target, part, rng)
        && forall e :: e in es && e != target ==> e.bodyParts == old(e.bodyParts)
    {
      var i := 0;
      while i < |es| && es[i].IsDead()
        invariant 0 <= i <= |es|
        invariant forall j :: 0 <= j < i ==> es[j].IsDead()
      {
        i := i + 1;
      }
      if i == |es| {
        return;
      }
      var target := es[i];
      var _ := player.ShootAt(target, part, rng);
    }

    /**
     * What one line of input did to everything but the player's cover,
     * stated between the states before and after it. The moves change the
     * shared distance. "reload" refills the player's weapon. "shoot <part>"
     * resolves one shot at the first living enemy and touches no other enemy.
     * Every other line spends no round, draws nothing and hurts nobody.
     */
    twostate predicate Commanded(player: Combatant, es: seq<Combatant>, cmd: string, rng: Rng)
      reads this, player, player.weapon, es, rng
    {
      var c := ClassifyPlayerCommand(cmd);
      && currentDistance == (match c
           case MoveCloser => Closer(old(currentDistance))
           case MoveFurther => Further(old(currentDistance))
           case _ => old(currentDistance))
      && (c == ReloadCommand && player.weapon != null ==>
            player.weapon.Mag() == Refilled(old(player.weapon.Mag()), player.weapon.maxAmmo))
      && (c == ReloadCommand ==>
            rng.used == old(rng.used) && forall e :: e in es ==> e.bodyParts == old(e.bodyParts))
      && (c.Shoot? && c.part.Some? ==>
            && (old(FirstLivingFrom(es, 0)).None? ==>
                  (player.weapon != null ==> player.weapon.Mag() == old(player.weapon.Mag()))
                  && rng.used == old(rng.used) && forall e :: e in es ==> e.bodyParts == old(e.bodyParts))
            && (old(FirstLivingFrom(es, 0)).Some? ==>
                  var target := es[old(FirstLivingFrom(es, 0)).value];
                  && ShotResolved(player, target, c.part.value, rng)
                  && forall e :: e in es && e != target ==> e.bodyParts == old(e.bodyParts)))
      && (c != ReloadCommand && !(c.Shoot? && c.part.Some?) ==>
            (player.weapon != null ==> player.weapon.Mag() == old(player.weapon.Mag()))
            && rng.used == old(rng.used) && forall e :: e in es ==> e.bodyParts == old(e.bodyParts))
    }

    /** `promptPlayerAction`: carries out one line of input; false only when the player flees. */
    method PromptPlayerAction(player: Combatant, es: seq<Combatant>, cmd: string, rng: Rng) returns (keepFighting: bool)
      requires player !in es && player.Valid() && AllValid(es)
      requires Synced(player, es, currentDistance)
      modifies this`currentDistance, player`inCover, player`distance, player.weapon, es`distance, es`bodyParts, rng`used
      ensures player.Valid() && AllValid(es) && Synced(player, es, currentDistance)
      ensures keepFighting <==> !Fled(cmd)
      ensures player.inCover == (old(player.inCover) || ClassifyPlayerCommand(cmd) == TakeCoverCommand)
      ensures Commanded(player, es, cmd, rng)
    {
      if cmd == "1" || cmd == "move closer" {
        Move(player, es, true);
        return true;
      }
      if cmd == "2" || cmd == "move further" {
        Move(player, es, false);
        return true;
      }
      if cmd == "3" || cmd == "take cover" {
        if !player.inCover {
          player.TakeCover();
        }
        return true;
      }
      if StartsWith(cmd, "shoot") {
        var ws := Tokens(cmd);
        if |ws| < 2 {
          return true;
        }
        PlayerShoot(player, es, ParseBodyPart(ws[1]), rng);
        return true;
      }
      if cmd == "5" || cmd == "reload" {
        player.ReloadWeapon();
        return true;
      }
      if StartsWith(cmd, "flee") {
        var ws := Tokens(cmd);
        if |ws| < 2 {
          return true;
        }
        return false;
      }
      return true;
    }

    /** `playerTurn`: the player's flank clock ticks, then one line of input is carried out. */
    method PlayerTurn(player: Combatant, es: seq<Combatant>, cmd: string, rng: Rng) returns (keepFighting: bool)
      requires player !in es && player.Valid() && AllValid(es)
      requires Synced(player, es, currentDistance)
      modifies this`currentDistance, player`inCover, player`flanking, player`flankCountdown, player`distance
      modifies player.weapon, es`distance, es`bodyParts, rng`used
      ensures player.Valid() && AllValid(es) && Synced(player, es, currentDistance)
      ensures keepFighting <==> !Fled(cmd)
      ensures player.flanking == Ticked(old(player.Flank())).flanking
      ensures player.flankCountdown == Ticked(old(player.Flank())).countdown
      ensures player.inCover == (Ticked(old(player.Flank())).inCover || ClassifyPlayerCommand(cmd) == TakeCoverCommand)
      ensures Commanded(player, es, cmd, rng)
    {
      player.Tick();
      keepFighting := PromptPlayerAction(player, es, cmd, rng);
    }

    /**
     * `enemiesTurn`: each living enemy in order ticks and acts; the turn stops
     * at once, with false, when the player is dead after an enemy acts. Dead
     * enemies neither tick nor act. `stop` is the position of the enemy whose
     * move ended the turn, or the number of enemies when all had their move.
     * Enemies after `stop` are not touched, the enemies' bodies never change,
     * and a player in cover is neither hurt nor drawn against.
     */
    method EnemiesTurn(player: Combatant, es: seq<Combatant>, rng: Rng) returns (playerAlive: bool, ghost stop: nat)
      requires player !in es && Armed(es) && player.Valid() && AllValid(es)
      requires Synced(player, es, currentDistance)
      modifies player`bodyParts, Arms(es), es`inCover, es`flanking, es`flankCountdown, rng`used
      ensures player.Valid() && AllValid(es) && Synced(player, es, currentDistance)
      ensures stop <= |es| && (playerAlive <==> stop == |es|)
      ensures !playerAlive ==> !old(es[stop].IsDead()) && player.IsDead()
      ensures old(!player.IsDead()) ==> (playerAlive <==> !player.IsDead())
      ensures forall e :: e in es ==> e.bodyParts == old(e.bodyParts)
      ensures forall e :: e in es && old(e.IsDead()) ==> e.Flank() == old(e.Flank())
      ensures forall j :: stop < j < |es| && (forall k :: 0 <= k <= stop ==> es[k] != es[j]) ==> es[j].Flank() == old(es[j].Flank())
      ensures player.inCover ==> player.bodyParts == old(player.bodyParts) && rng.used == old(rng.used)
    {
      playerAlive := true;
      var i := 0;
      while i < |es| && playerAlive
        invariant 0 <= i <= |es|
        invariant player.Valid() && AllValid(es) && Synced(player, es, currentDistance)
        invariant !playerAlive ==> 1 <= i && !old(es[i - 1].IsDead()) && player.IsDead()
        invariant playerAlive && old(!player.IsDead()) ==> !player.IsDead()
        invariant forall e :: e in es ==> e.bodyParts == old(e.bodyParts)
        invariant forall j :: 0 <= j < |es| && old(es[j].IsDead()) ==> es[j].Flank() == old(es[j].Flank())
        invariant forall j :: i <= j < |es| && (forall k :: 0 <= k < i ==> es[k] != es[j]) ==> es[j].Flank() == old(es[j].Flank())
        invariant player.inCover ==> player.bodyParts == old(player.bodyParts) && rng.used == old(rng.used)
      {
        playerAlive := EnemyStep(player, es, i, rng);
        i := i + 1;
      }
      stop := if playerAlive then |es| else i - 1;
    }

    /**
     * The `i`-th enemy's slot in `enemiesTurn`: a dead enemy is skipped; a
     * living one moves, and the turn goes on only if the player survived.
     */
    method EnemyStep(player: Combatant, es: seq<Combatant>, i: nat, rng: Rng) returns (playerAlive: bool)
      requires i < |es| && player !in es && Armed(es)
      requires player.Valid() && AllValid(es) && Synced(player, es, currentDistance)
      modifies player`bodyParts, Arms(es), es`inCover, es`flanking, es`flankCountdown, rng`used
      ensures player.Valid() && AllValid(es) && Synced(player, es, currentDistance)
      ensures playerAlive <==> old(es[i].IsDead()) || !player.IsDead()
      ensures forall e :: e in es ==> e.bodyParts == old(e.bodyParts)
      ensures forall j :: 0 <= j < |es| && es[j] != es[i] ==> es[j].Flank() == old(es[j].Flank())
      ensures es[i].Flank() == if old(es[i].IsDead()) then old(es[i].Flank()) else Ticked(old(es[i].Flank()))
      ensures !old(es[i].IsDead()) ==> EnemyActed(es[i], player, rng)
      ensures old(es[i].IsDead()) ==> player.bodyParts == old(player.bodyParts) && rng.used == old(rng.used)
      ensures player.inCover ==> player.bodyParts == old(player.bodyParts) && rng.used == old(rng.used)
    {
      var e := es[i];
      if e.IsDead() {
        return true;
      }
      EnemyMove(e, player, es, rng);
      return !player.IsDead();
    }

    /**
     * A living enemy's part of `enemiesTurn`: its flank clock ticks, then it
     * acts. Every other enemy's clock is left alone.
     */
    method EnemyMove(e: Combatant, player: Combatant, es: seq<Combatant>, rng: Rng)
      requires e in es && player !in es && Armed(es) && !e.IsDead()
      requires player.Valid() && AllValid(es) && Synced(player, es, currentDistance)
      modifies e`inCover, e`flanking, e`flankCountdown, e.weapon, player`bodyParts, rng`used
      ensures player.Valid() && AllValid(es) && Synced(player, es, currentDistance)
      ensures e.Flank() == Ticked(old(e.Flank()))
      ensures forall x :: x in es && x != e ==> x.Flank() == old(x.Flank())
      ensures EnemyActed(e, player, rng)
    {
      e.Tick();
      e.DecideAction(player, rng);
    }

    /**
     * One pass of `engage`'s loop: the player's turn on one line of input,
     * then, unless the fight is over, the enemies' turn. `Some(b)` when the
     * fight ended with `engage` returning `b`, `None` when it goes on.
     */
    method Round(player: Combatant, es: seq<Combatant>, cmd: string, rng: Rng) returns (result: Option<bool>)
      requires player.side == PlayerSide && player !in es && Armed(es)
      requires player.Valid() && AllValid(es) && Synced(player, es, currentDistance)
      modifies this`currentDistance, rng`used
      modifies player`bodyParts, player`inCover, player`flanking, player`flankCountdown, player`distance, player.weapon
      modifies es`bodyParts, es`inCover, es`flanking, es`flankCountdown, es`distance, Arms(es)
      ensures player.Valid() && AllValid(es) && Synced(player, es, currentDistance)
      ensures result == Some(false) ==> player.IsDead()
      ensures result == Some(true) ==> !player.IsDead() || AllDead(es)
      ensures old(!player.IsDead()) && result.Some? ==> (result.value <==> !player.IsDead())
      ensures result.Some? && !AllDead(es) && !player.IsDead() ==> Fled(cmd)
      ensures result.None? ==> !player.IsDead() && !AllDead(es) && !Fled(cmd)
      ensures Fled(cmd) ==> result == Some(!player.IsDead())
      ensures Fled(cmd) ==> player.bodyParts == old(player.bodyParts) && forall e :: e in es ==> e.Flank() == old(e.Flank())
      ensures currentDistance == match ClassifyPlayerCommand(cmd)
                case MoveCloser => Closer(old(currentDistance))
                case MoveFurther => Further(old(currentDistance))
                case _ => old(currentDistance)
      ensures !(ClassifyPlayerCommand(cmd).Shoot? && ClassifyPlayerCommand(cmd).part.Some?) ==>
        forall e :: e in es ==> e.bodyParts == old(e.bodyParts)
    {
      var keepFighting := PlayerTurn(player, es, cmd, rng);
      if !keepFighting {
        return Some(!player.IsDead());
      }
      result := EnemyPhase(player, es, rng);
    }

    /**
     * The rest of a round once the player has not fled: the fight is won if
     * every enemy is already dead; otherwise the enemies take their turn and
     * the fight ends if the player or every enemy is dead. No enemy is hurt.
     */
    method EnemyPhase(player: Combatant, es: seq<Combatant>, rng: Rng) returns (result: Option<bool>)
      requires player !in es && Armed(es)
      requires player.Valid() && AllValid(es) && Synced(player, es, currentDistance)
      modifies player`bodyParts, Arms(es), es`inCover, es`flanking, es`flankCountdown, rng`used
      ensures player.Valid() && AllValid(es) && Synced(player, es, currentDistance)
      ensures forall e :: e in es ==> e.bodyParts == old(e.bodyParts)
      ensures result == Some(false) ==> player.IsDead()
      ensures result == Some(true) ==> AllDead(es)
      ensures result.Some? && !player.IsDead() ==> AllDead(es)
      ensures old(!player.IsDead()) && result.Some? ==> (result.value <==> !player.IsDead())
      ensures result.None? ==> !player.IsDead() && !AllDead(es)
    {
      var allDead := AllEnemiesDead(es);
      if allDead {
        return Some(true);
      }
      var playerAlive, _ := EnemiesTurn(player, es, rng);
      if !playerAlive {
        return Some(false);
      }
      allDead := AllEnemiesDead(es);
      if allDead {
        return Some(true);
      }
      if player.IsDead() {
        return Some(false);
      }
      return None;
    }

    /** The opening of `engage`: the fight starts at Far, with the player out of cover and everyone at that distance. */
    method StartEngagement(player: Combatant, es: seq<Combatant>)
      requires player.Valid() && AllValid(es)
      modifies this`currentDistance, player`inCover, player`distance, es`distance
      ensures currentDistance == Far && !player.inCover && Synced(player, es, Far)
      ensures player.Valid() && AllValid(es)
    {
      currentDistance := Far;
      player.inCover := false;
      SetDistance(player, es, currentDistance);
    }

    /**
     * `engage`: after the opening, the player and the enemies alternate, one
     * command per round, until the player flees, every enemy is dead or the
     * player is. `last` is the position of the command whose round ended the
     * fight, or the number of commands when they ran out first: none of the
     * commands before it fled, and a fleeing deciding command ends the fight
     * with whether the player is alive. The result is false only if the
     * player is dead; a fight the player enters alive reports exactly whether
     * the player survived, and a survived fight with an enemy still standing
     * was ended by a flight.
     */
    method Engage(player: Combatant, es: seq<Combatant>, commands: seq<string>, rng: Rng) returns (outcome: Outcome, ghost last: nat)
      requires player.side == PlayerSide && player !in es && Armed(es)
      requires player.Valid() && AllValid(es)
      modifies this`currentDistance, rng`used
      modifies player`bodyParts, player`inCover, player`flanking, player`flankCountdown, player`distance, player.weapon
      modifies es`bodyParts, es`inCover, es`flanking, es`flankCountdown, es`distance, Arms(es)
      ensures player.Valid() && AllValid(es) && Synced(player, es, currentDistance)
      ensures last <= |commands| && (outcome.AwaitingInput? <==> last == |commands|)
      ensures NoneFledBefore(commands, last)
      ensures outcome.Finished? && last < |commands| && Fled(commands[last]) ==> outcome == Finished(!player.IsDead())
      ensures outcome.Finished? && !AllDead(es) && !player.IsDead() ==> last < |commands| && Fled(commands[last])
      ensures outcome == Finished(false) ==> player.IsDead()
      ensures outcome == Finished(true) ==> !player.IsDead() || AllDead(es)
      ensures old(!player.IsDead()) && outcome.Finished? ==> (outcome.playerSurvived <==> !player.IsDead())
      ensures outcome.AwaitingInput? && |commands| > 0 ==> !player.IsDead() && !AllDead(es)
      ensures |commands| == 0 ==> currentDistance == Far && !player.inCover
    {
      StartEngagement(player, es);
      var k := 0;
      while k < |commands|
        invariant 0 <= k <= |commands|
        invariant player.Valid() && AllValid(es) && Synced(player, es, currentDistance)
        invariant old(!player.IsDead()) ==> !player.IsDead()
        invariant k > 0 ==> !player.IsDead() && !AllDead(es)
        invariant NoneFledBefore(commands, k)
        invariant k == 0 ==> currentDistance == Far && !player.inCover
        decreases |commands| - k
      {
        var result := Round(player, es, commands[k], rng);
        if result.Some? {
          return Finished(result.value), k;
        }
        NoneFledExtends(commands, k);
        k := k + 1;
      }
      return AwaitingInput, k;
    }
  }
}
