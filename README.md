# Exodus From Longxue — a verified model of the game core

Exodus From Longxue is a text adventure. The player walks between rooms,
looks at and searches things, picks items up and drops them, and fights
turn-based gunfights against scavengers and PMC soldiers. This project
models the core of that game in Dafny and proves properties of the model:

- **Weapons** (`Weapons.dfy`): the four weapon types and their statistics.
  Also the magazine: firing, reloading and the Rifle's scope.
- **Anatomy** (`Anatomy.dfy`): a combatant's body, a map from head, thorax,
  arm and leg to hit points. Also damage, and death when the head or the
  thorax is blacked out.
- **Aim** (`Aim.dfy`): the three distance bands and the chance to hit a part.
  The pistol uses a fixed table; every other weapon uses accuracy times
  distance times part modifiers.
- **Combat** (`Combat.dfy`):
  - the `Combatant` class, which is the player or an enemy;
  - a random-number stream;
  - shooting, cover and the flank clock;
  - the enemy's choice of target;
  - the parser for the player's combat commands;
  - the `CombatManager`, with the player's turn, the enemies' turn and the
    fight loop (`engage`).
- **Items and Inventories** (`Items.dfy`, `Inventories.dfy`): items, and the
  inventory's carried items, armour slot and two weapon slots. Each inventory
  operation is specified by a function on a value snapshot, and the class
  methods are proved to follow it.
- **Rooms** (`Rooms.dfy`): rooms with lookable and searchable tables and
  labelled exits, and the null passage a room hands out for an unknown exit.
- **Players** (`Players.dfy`): the single player, its four health pools, its
  current room and its inventory, and what using an item does.
- **Engine** (`Engine.dfy`): the exploration loop. It splits a line into
  lower-cased words and dispatches on the first word. It has handlers for
  go, search, take, drop and quit, and runs over a script of input lines.
- **Text** (`Text.dfy`): the C-library behaviour the core relies on. This is
  `tolower`, whitespace splitting as `>>` does it, the key order of a
  `std::map<std::string, _>`, and joining words with spaces.

Randomness is a parameter. An `Rng` object holds an infinite stream of draws
in [0, 1) and a counter of how many have been used, so each
`uniform_real_distribution` call in the source is one draw. Console input is
also a parameter: a line, or a sequence of lines.

In several places the game's described behaviour is not what its code does.
The model follows the code. Each point gives the described behaviour first,
then the code's:

- **Hit chance**: described as one table of percentages by distance and body
  part for every weapon, cut to 0.75 (rounded up) for a player shooting from
  cover. The code uses a table only for the Pistol (Combat.cpp:60-86), uses
  accuracy × distance × part for other weapons, and has no cover modifier.
- **Cover**: described as letting an enemy's hit through on a further 30%
  draw. In the code, cover blocks every shot and no value is drawn.
- **Second hit on a blacked-out part**: described as making any later hit
  fatal. In the code it kills only when the part being hit is the
  blacked-out one.
- **"flee <place>"**: described as needing Far distance and working legs and
  succeeding on an even draw. In the code it always succeeds.
- **Menu entries "4" and "6"**: the printed menu offers them as Shoot and
  Flee (Combat.cpp:374-375). In the code they are unknown commands.
- **Flanking**: described as begun, on a 30–40% draw, by an enemy facing a
  player in cover. In the code nothing ever starts it.
- **The player's target**: described as chosen in the shoot command. In the
  code the player always shoots the first living enemy.

One thing the proofs show about the code as written: an item picked up with
"take" is named "Rifle", "Shotgun" or "Lab Keycard". Every word of an input
line is lower-cased, so "drop" can never name such an item
(`Engine.TakenItemIsNeverDropped`).

## Model

| member | source | states |
|---|---|---|
| Weapons.StatsAreSane | Weapons.cpp:5-37 | every weapon type has positive damage, an accuracy strictly between 0 and 1 and a positive magazine |
| Weapons.FireSpendsOneRound | Weapons.cpp:39-51 | a shot is fired exactly when a round is loaded; it spends one round, marks the weapon reloading exactly when the magazine is empty and unscopes only a Rifle |
| Weapons.OperationsKeepMagazineOk | Weapons.cpp:39-71 | firing, reloading and toggling the scope keep the ammunition between 0 and the magazine size |
| Weapons.ReloadFills | Weapons.cpp:53-62 | after a reload the magazine is full, and it is no longer reloading unless it was already full |
| Weapons.ReloadMakesReady | Weapons.cpp:53-62 | a reloaded weapon with a non-empty magazine no longer needs a reload |
| Weapons.NeedsReloadUntilReload | Weapons.h:34 | a weapon that needs a reload still needs one after trying to fire or toggling the scope |
| Weapons.MagazineEmptiesAfterAmmoShots | Weapons.cpp:39-51 | firing n times from a ready magazine of a rounds leaves a − n rounds; it is ready while n < a and reloading at n = a |
| Weapons.Weapon.constructor | Weapons.cpp:5-37 | a new weapon has its type's statistics, a full magazine, no reload pending and no scope |
| Weapons.Weapon.FireOne | Weapons.cpp:39-51 | the weapon's magazine becomes the one `Fire` gives, and the result says whether a round was spent |
| Weapons.Weapon.Reload | Weapons.cpp:53-62 | the magazine becomes the refilled one |
| Weapons.Weapon.ToggleScope | Weapons.cpp:64-71 | only a Rifle's scope flips; other weapons are unchanged |
| Weapons.CreateWeapon | Weapons.cpp:80-82 | a fresh, valid weapon of the requested type with a full magazine |
| Aim.BandsAreOrdered | Combat.h:27 | Close, Medium and Far are the bands 0, 1 and 2, and converting back and forth is the identity |
| Aim.MovesStepOneBand | Combat.cpp:381-402 | moving closer or further changes the band by one except at the ends; one step each way undoes itself |
| Aim.HitChance | Combat.cpp:56-109 | the hit chance is between 0 and 1, and 0 without a weapon |
| Aim.PistolIgnoresAccuracy | Combat.cpp:60-87 | a pistol's chance depends only on distance and part |
| Aim.ClampIsMonotone | Combat.cpp:106-107 | clamping the chance to [0, 1] keeps the order of two chances |
| Aim.NearerIsNeverWorse | Combat.cpp:56-109 | for every weapon and part, a nearer band never lowers the chance |
| Aim.TargetOrder | Combat.cpp:56-109 | the head is never easier than an arm, an arm is as easy as a leg, and the thorax is easiest |
| Aim.ScopeNeverHurts | Combat.cpp:90-93 | a scope never lowers the chance and changes nothing for non-Rifles |
| Aim.ClampIdleForBuiltWeapons | Combat.cpp:94-108 | for non-pistol weapons with their built-in accuracy, the clamp to [0, 1] never changes the product |
| Anatomy.NewPart | Combat.h:32-37 | a new part is at full health, and blacked out exactly when its maximum is not positive |
| Anatomy.InitialBodyIsHealthy | Combat.cpp:24-36 | both starting bodies have all four parts at full, positive health and are alive |
| Anatomy.DamageLivePart | Combat.cpp:44-54 | damage to a live part lowers its hit points, stopping at 0, and leaves every other part alone |
| Anatomy.OverkillKills | Combat.cpp:44-51 | a hit on a blacked-out part sets head and thorax to 0, leaves the rest and kills |
| Anatomy.DamageKeepsBodyOk | Combat.cpp:44-54 | non-negative damage keeps all four parts with hit points between 0 and their maximum |
| Anatomy.DeathIsFinal | Combat.cpp:38-54 | once dead, no further damage brings a combatant back |
| Anatomy.BlackedOutArmDoesNotDoomLeg | Combat.cpp:44-54 | with the arm blacked out, a hit on the leg is ordinary damage, not death |
| Combat.Rng.constructor | Combat.cpp:8 | the shared generator starts at the beginning of its stream, with no value drawn |
| Combat.Rng.Next | Combat.h:104 | each draw is the next value of the stream and uses it up |
| Combat.TicksIdleWithoutFlank | Combat.h:79-84 | without a flank in progress, any number of ticks changes nothing |
| Combat.FlankEndsAfterCountdown | Combat.h:79-84 | a flank with countdown k only counts down for k − 1 ticks; at tick k it ends out of cover with the count at 0 |
| Combat.TickTimesAdds | Combat.h:79-84 | the flank clock composes: `a` ticks followed by `b` ticks are `a + b` ticks |
| Combat.ChooseTargetProperties | Combat.cpp:234-242 | the enemy aims at the thorax or at a live part, uses at most three draws, uses none when head, leg and arm are all blacked out, and takes the head on a first draw below 0.2 |
| Combat.Combatant.Enemy | Combat.cpp:196-218 | an enemy gets its type's body, name and position, out of cover. A Scav gets a pistol and uses no draw. Others use one draw: an assault rifle below 0.7, else a pistol |
| Combat.Combatant.Player | Combat.cpp:251-256 | the player gets the standard body, the given name, no flank, Medium distance and a fresh loaded pistol |
| Combat.Combatant.ApplyDamage | Combat.cpp:44-54 | the body becomes the damaged body |
| Combat.Combatant.CalculateHitChance | Combat.cpp:56-109 | the chance of the combatant's own weapon and distance, between 0 and 1 and 0 without a weapon |
| Combat.Combatant.ShootAt | Combat.cpp:111-178 | a shot is fired exactly when there is a weapon that needs no reload, and spends one round. A target in cover is untouched and no value is drawn. Otherwise one draw decides, and the target takes the weapon's damage on the part exactly when the draw is at most the hit chance |
| Combat.Combatant.ReloadWeapon | Combat.cpp:180-185 | an armed combatant's magazine is refilled |
| Combat.Combatant.TakeCover | Combat.h:77 | the combatant is in cover |
| Combat.Combatant.BreakCover | Combat.h:78 | the combatant is out of cover |
| Combat.Combatant.Tick | Combat.h:79-84 | the cover/flank state advances by one tick of the flank clock |
| Combat.Combatant.AimAt | Combat.cpp:234-242 | the part chosen and the draws used agree with `ChooseTarget` |
| Combat.Combatant.DecideAction | Combat.cpp:220-245 | the new state of the enemy's magazine, the player's body and the draws (`EnemyActed`): a dead enemy, or one facing a player in cover with no reload due, changes none of them. One needing a reload only refills. Otherwise it aims as `ChooseTarget` says, fires one round, and the player is struck on the draw after the aiming draws |
| Combat.ShotChanceAsWritten | Combat.cpp:115-125 | the chance the code resolves a shot against, computed after the shot has unscoped the Rifle (see Findings) |
| Combat.ScopeIgnoredAsWritten | Combat.cpp:115-125 | as written, every Rifle shot is resolved at its unscoped chance: 0.48 instead of 0.80 at Close on the thorax |
| Combat.ScopedRifleShotGetsBonus | Combat.cpp:90-93 | with the chance taken before firing, a scoped Rifle always hits more often than an unscoped one |
| Combat.ParseBodyPartMeaning | Combat.cpp:457-465 | a word parses to a part exactly when its lower-case form is that part's name, or it names no part and the result is the thorax |
| Combat.ParseBodyPartRoundTrip | Combat.cpp:457-465 | parsing ignores letter case, and every part's name parses back to that part |
| Combat.ShootCommandParses | Combat.cpp:412-420 | "shoot <word>" aims at the part the word names |
| Combat.ShootingAPartByName | Combat.cpp:412-420 | "shoot head", "shoot thorax", "shoot arm" and "shoot leg" each aim at that part |
| Combat.FleeCommandParses | Combat.cpp:441-450 | "flee <place>" flees to that place |
| Combat.BareCommandsDoNothing | Combat.cpp:416-419 | "shoot" or "flee" alone is only a usage message, and "4" and "6" are unknown commands |
| Combat.FirstLivingFrom | Combat.cpp:421-427 | the position found holds a living enemy and every earlier one is dead; none is found exactly when all are dead |
| Combat.CombatManager.AllEnemiesDead | Combat.cpp:285-290 | true exactly when every enemy is dead |
| Combat.CombatManager.SetDistance | Combat.cpp:318-323 | the player and every enemy stand at the given distance |
| Combat.CombatManager.Move | Combat.cpp:381-402 | the shared distance steps one band closer or further, stopping at the ends, and everyone follows |
| Combat.CombatManager.PlayerShoot | Combat.cpp:420-435 | the player shoots the first living enemy and no other enemy is touched; with none alive nothing changes |
| Combat.CombatManager.PromptPlayerAction | Combat.cpp:370-455 | the fight goes on exactly unless the line is "flee <place>". The new state (`Commanded`): the moves step the shared distance, "take cover" sets cover, "reload" refills the weapon, and "shoot <part>" resolves one shot at the first living enemy and touches no other enemy. Any other line spends no round, draws nothing and hurts nobody |
| Combat.CombatManager.PlayerTurn | Combat.cpp:348-354 | the player's flank clock ticks, then the line is carried out as `PromptPlayerAction` states; the fight goes on exactly unless the player fled |
| Combat.CombatManager.EnemiesTurn | Combat.cpp:356-368 | false exactly when the loop stopped early, at a living enemy whose action left the player dead; for a player alive at the start, the result is exactly survival. No enemy is hurt, dead enemies' clocks do not move, enemies after the stopping one are untouched, and a player in cover takes no damage and no value is drawn |
| Combat.CombatManager.EnemyStep | Combat.cpp:361-365 | one pass of the loop: a dead enemy changes nothing. A living one ticks its flank clock and then acts as `EnemyActed` states (reload, hold fire against cover, or aim and shoot). No other enemy's clock moves and no enemy is hurt. The player is reported alive exactly when the enemy was dead or the player survived |
| Combat.CombatManager.EnemyMove | Combat.cpp:363-364 | a living enemy's flank clock ticks, then it acts as `EnemyActed` states; every other enemy's clock is unchanged |
| Combat.CombatManager.Round | Combat.cpp:325-344 | a fled line ends the fight, in both directions: the result is `Some` of whether the player lives, with no body hurt and no enemy clock moved. The shared distance moves exactly as the line's move asks, and only "shoot <part>" can hurt an enemy. `Some(false)` only for a dead player. `Some(true)` only with the player alive or every enemy dead. A fight that goes on has both sides standing and was not fled |
| Combat.CombatManager.EnemyPhase | Combat.cpp:329-344 | after a turn the player did not flee: `Some(true)` only with every enemy dead, `Some(false)` only for a dead player, and for a player alive at the start the result is exactly survival. A fight that goes on has both sides standing, and no enemy is hurt |
| Combat.CombatManager.StartEngagement | Combat.cpp:318-323 | the fight opens at Far, with the player out of cover and the player and every enemy at that distance |
| Combat.CombatManager.Engage | Combat.cpp:314-346 | with no lines it stands as `StartEngagement` opens the fight: at Far, the player out of cover. `last` is the first fleeing line or the line at which the fight ended, and no line before it fled. A fleeing `last` yields exactly whether the player lives, and a fight ending with both sides standing ended at a fleeing line. false only for a dead player, true only with the player alive or every enemy dead, and for a player who starts alive the result is exactly survival. A fight still waiting for input has used every line with both sides standing |
| Items.Item.constructor | Item.cpp:5-6 | an item keeps its name, description and type, and starts with no damage, armour bonus or healing |
| Items.Item.SetDamage | Item.cpp:16-18 | the damage is the given value |
| Items.Item.SetArmorBonus | Item.cpp:24-26 | the armour bonus is the given value |
| Items.Item.SetHealAmount | Item.cpp:32-34 | the heal amount is the given value |
| Inventories.FirstIndex | Inventory.cpp:122-129 | the index found holds an item of that name and no earlier item has it; none is found exactly when no item has it |
| Inventories.FirstIndexIsFirst | Inventory.cpp:122-129 | `FirstIndex` returns a position exactly when it is the first with that name |
| Inventories.WithoutNamed | Inventory.cpp:40-46 | what remains has no item of that name, comes from the original, and keeps every item of another name |
| Inventories.WithoutNamedIdle | Inventory.cpp:40-46 | with no item of that name, removing it changes nothing |
| Inventories.WithoutNamedAppend | Inventory.cpp:40-46 | removing by name works piecewise over two joined lists |
| Inventories.OperationsKeepLimits | Inventory.cpp:8-120 | no operation ever takes the inventory past six carried items or two equipped weapons |
| Inventories.AddOutcome | Inventory.cpp:8-26 | an item is added exactly when it exists, fits the weapon limit and there is a free slot; it then sits at the end and can be found by name. A null item or a weapon over the limit changes nothing |
| Inventories.FullBagStillEquips | Inventory.cpp:14-24 | with all six slots taken, a weapon that fits the weapon limit is still equipped though the add reports failure |
| Inventories.RemoveOutcome | Inventory.cpp:28-51 | removal finds an item exactly when one has the name. It returns the first such item, the items left are the others around it in order, every equipped weapon of that name is dropped and armour of that name is cleared; without one nothing changes |
| Inventories.AddThenRemove | Inventory.cpp:8-51 | adding a new uniquely named item and then removing it by name gives back the original inventory and that item |
| Inventories.EquipOutcome | Inventory.cpp:72-89 | equipping succeeds exactly when the first carried item of that name has the right type (and, for a weapon, a slot is free). Success puts exactly that item in the armour slot or at the end of the weapons, and nothing else changes; the carried items never change |
| Inventories.UnequipWeaponOutcome | Inventory.cpp:97-106 | unequipping succeeds exactly when a weapon of that name is equipped. It removes the first such weapon, keeping the others in order, and leaves items and armour alone; otherwise nothing changes |
| Inventories.Inventory.constructor | Inventory.h:50-51 | a new inventory is empty |
| Inventories.Inventory.AddItem | Inventory.cpp:8-26 | the new contents and the result are those of `AfterAdd` |
| Inventories.Inventory.RemoveItem | Inventory.cpp:28-51 | the new contents and the removed item are those of `AfterRemove` |
| Inventories.Inventory.HasItem | Inventory.cpp:53-55 | true exactly when some carried item has the name |
| Inventories.Inventory.GetItem | Inventory.cpp:57-61 | null exactly when no carried item has the name; otherwise the first carried item with that name |
| Inventories.Inventory.ListItemNames | Inventory.cpp:63-70 | the names of the carried items, in order |
| Inventories.Inventory.EquipArmor | Inventory.cpp:72-79 | the new contents and the result are those of `AfterEquipArmor` |
| Inventories.Inventory.EquipWeapon | Inventory.cpp:81-89 | the new contents and the result are those of `AfterEquipWeapon` |
| Inventories.Inventory.UnequipArmor | Inventory.cpp:91-95 | the new contents and the result are those of `AfterUnequipArmor` |
| Inventories.Inventory.UnequipWeapon | Inventory.cpp:97-106 | the new contents and the result are those of `AfterUnequipWeapon` |
| Inventories.Inventory.GetArmorBonus | Inventory.cpp:108-110 | the equipped armour's bonus, 0 without armour |
| Inventories.Inventory.ClearAll | Inventory.cpp:116-120 | the inventory is empty |
| Inventories.Inventory.FindIndexByName | Inventory.cpp:122-129 | the index of the first carried item with the name, if any |
| Rooms.Describe | Room.cpp:46-60 | the stored description of a name, empty for an unknown name |
| Rooms.DescribeAfterStore | Room.cpp:27-36 | after storing a description it is the one returned, other names are unaffected, and a second store replaces the first |
| Rooms.Room.constructor | Room.cpp:10-14 | a new room has its name and description and no lookables, searchables or exits |
| Rooms.Room.AddLookable | Room.cpp:27-29 | the look table maps the name to the new text; the search table is unchanged |
| Rooms.Room.AddSearchable | Room.cpp:34-36 | the search table maps the name to the new text; the look table is unchanged |
| Rooms.Room.GetLookDescription | Room.cpp:46-52 | the look text of a lookable name, empty otherwise |
| Rooms.Room.GetSearchDescription | Room.cpp:54-60 | the search text of a searchable name, empty otherwise |
| Rooms.Room.GetLookableNames | Room.cpp:62-69 | every lookable name once, in ascending order |
| Rooms.Room.GetSearchableNames | Room.cpp:71-78 | every searchable name once, in ascending order |
| Rooms.Room.AddPassage | Room.cpp:83-85 | the exit label maps to the new passage |
| Rooms.Room.RemovePassage | Room.cpp:87-89 | the exit label is gone, and removing an unknown label changes nothing |
| Rooms.Room.GetPassage | Room.cpp:91-98 | a known label gives its passage; an unknown one gives a fresh null passage that leads from the room back to itself |
| Rooms.Passage.constructor | Passage.h:13 | an ordinary passage keeps its name, description and both rooms, and is not the null passage |
| Rooms.Passage.Null | NullPassage.cpp:5-12 | the null passage takes the room's name and description and leads from the room to itself |
| Players.HalfTruncates | Player.cpp:26-40 | `/ 2` on the health pools truncates toward zero, unlike Dafny's own division |
| Players.ArmorBonusesAdd | Player.cpp:26-32 | two armour bonuses add up, and a bonus followed by its negation restores the pools |
| Players.HealingComposes | Player.cpp:34-40 | two heals compose into one of their sum unless both are odd; two odd heals give the sum's result with head, arms and legs one lower each |
| Players.Player.constructor | Player.cpp:7-9 | the player starts with 50/200/150/150 health, no room and an empty inventory |
| Players.Player.SetCurrentRoom | Player.cpp:18-20 | the current room is the given one |
| Players.Player.PickUpItem | Player.h:20-22 | the inventory and the result are those of adding the item |
| Players.Player.DropItem | Player.h:23-26 | succeeds exactly when an item of that name was carried; the inventory is the one after removing it |
| Players.Player.HasKeycard | Player.h:28-30 | true exactly when some carried item has the name |
| Players.Player.UseKeycard | Player.h:31-33 | the card leaves the inventory as a removal by name |
| Players.Player.EquipArmorBonus | Player.cpp:26-32 | the health pools become the armoured ones |
| Players.Player.UseMedkitHeal | Player.cpp:34-40 | the health pools become the healed ones |
| Players.PlayerSlot.constructor | Player.cpp:5 | before first use there is no player |
| Players.PlayerSlot.Instance | Player.cpp:11-16 | the first call makes the one player, at starting health with an empty inventory, and every later call returns that same player |
| Players.UseItem | Item.cpp:36-62 | without a player nothing happens. Armour adds its bonus to the pools and a medkit heals. A keycard leaves the inventory. Other items change nothing, and the room never changes |
| Engine.TokenizeString | ZOOrkEngine.cpp:262-270 | the words of the line, split on whitespace as `>>` does, each lower-cased |
| Engine.TokenizedWords | ZOOrkEngine.cpp:262-270 | every word read is non-empty, has no whitespace and has no capital letter |
| Engine.TokenizeIgnoresCase | ZOOrkEngine.cpp:262-275 | typing a line in another letter case gives the same words |
| Engine.JoinArguments | ZOOrkEngine.cpp:72-76 | the target is the arguments joined by single spaces (and splitting it gives the arguments back, see `Text.TokensOfJoin`) |
| Engine.Dispatch | ZOOrkEngine.cpp:33-66 | a blank line does nothing; a line whose first word is no command is a "look" at the whole line; movement, search, take and drop get the remaining words |
| Engine.SynonymsAgree | ZOOrkEngine.cpp:39-56 | "go", "goto" and "move" agree, as do "look" and "inspect", "take" and "get", and "inventory" and "inv" |
| Engine.UnknownLineIsLook | ZOOrkEngine.cpp:63-66 | a line starting with an unknown word acts as "look" followed by that whole line |
| Engine.SearchRevealsWhatCanBeTaken | ZOOrkEngine.cpp:139-196 | everything a search reveals can be taken, everything takeable is revealed by some search, and the weapons carry the damage the search text announces |
| Engine.TakenItemIsNeverDropped | ZOOrkEngine.cpp:178-222 | whatever line is typed, the name "drop" asks for is never the name of an item made by "take" |
| Engine.ConfirmsIgnoresCase | ZOOrkEngine.cpp:253-259 | the quit confirmation ignores case: "Y" and "YeS" confirm, "" and "n" do not |
| Engine.NextWord | ZOOrkEngine.cpp:253-255 | the answer to the quit question is the first word of the next line that has one, after skipping blank lines; it is empty only when no later line has a word |
| Engine.Game.constructor | ZOOrkEngine.cpp:11-13 | the engine takes the single player (made on first use) and puts it in the start room; the game is not over |
| Engine.Game.SetRoomMap | ZOOrkEngine.cpp:24-26 | the room map is the given one |
| Engine.Game.HandleGo | ZOOrkEngine.cpp:70-96 | with a target, the player moves along the first exit in label order whose destination's name matches the target ignoring case; without a target or a match the player stays |
| Engine.Game.LookText | ZOOrkEngine.cpp:98-121 | a bare "look" shows the room description; "look <thing>" shows the thing's look text exactly when it is lookable |
| Engine.Game.HandleSearch | ZOOrkEngine.cpp:123-160 | searching the rifle case, the shotgun rack or the TV rack, when searchable, adds the revealed thing to both tables with the source's texts; any other search changes nothing |
| Engine.Game.HandleTake | ZOOrkEngine.cpp:162-206 | an item is made exactly for a lookable rifle, shotgun or lab keycard, with its name, type and damage, and offered to the inventory; otherwise the inventory is unchanged |
| Engine.Game.HandleDrop | ZOOrkEngine.cpp:208-224 | the named item is removed from the inventory; if one was carried, the room gains its "lies here on the ground" and "sitting on the floor" texts, else the room is unchanged |
| Engine.Game.HandleQuit | ZOOrkEngine.cpp:250-260 | the game ends exactly when the answer is "y" or "yes" in any case, and once over it stays over |
| Engine.Game.Step | ZOOrkEngine.cpp:29-66 | each command has its handler's effect: "go" moves as `HandleGo` states, "search" as `HandleSearch`, "take" as `HandleTake` and "drop" as `HandleDrop`. Only "go" moves the player, only "take" and "drop" touch the inventory, only "search" and "drop" touch the room, and only a confirmed "quit" ends the game |
| Engine.Game.Run | ZOOrkEngine.cpp:28-68 | the game ends exactly when reading commands from the first line meets a confirmed quit, and reading stops where `ReadingStops` says: just after that quit's answer, or at the end of the script. A game already over reads nothing. The player never leaves the rooms reachable by exits |
| Engine.ReadCommand | ZOOrkEngine.cpp:250-255 | the words are the lower-cased tokens of the line read (lines 32-33 of the same file), and for a "quit" the answer is read from the lines after it. Reading goes on where `CommandEnd` says, and the command is a confirmed quit exactly when `ConfirmedQuitAt` holds for that line |
| Engine.CommandEnd | ZOOrkEngine.cpp:250-255 | the next command is read after the current line, one line on unless the line is a "quit", whose answer may take more lines |
| Engine.CommandLinesFollowScript | ZOOrkEngine.cpp:28-68 | the lines read as commands start at the first line, run in script order, each where the reading of the one before stopped; only the last can be a confirmed quit, and if it is not, the script was read to the end |
| Engine.ReadingStopsAtLastCommand | ZOOrkEngine.cpp:28-68 | a confirmed quit is met exactly when the last line read as a command is one, and reading stops where that last command's reading stopped |
| Text.LowerProperties | ZOOrkEngine.cpp:272-275 | lower-casing keeps the length, leaves no capital and is idempotent |
| Text.TokensAreWords | ZOOrkEngine.cpp:262-270 | every word `>>` reads is non-empty and contains no whitespace |
| Text.LowerFixesLowercase | ZOOrkEngine.cpp:272-275 | lower-casing a word with no capital letter leaves it unchanged |
| Text.TokensSplit | ZOOrkEngine.cpp:262-270 | a whitespace character separates the words before it from those after it |
| Text.TokensOfJoin | ZOOrkEngine.cpp:72-76 | splitting words joined by single spaces gives back the words |
| Text.TokensOfLower | ZOOrkEngine.cpp:262-275 | the words of a lower-cased line are the lower-cased words of the line |
| Text.LessIrreflexive | Room.cpp:62-78 | no key comes before itself in `std::string` order |
| Text.LessTransitive | Room.cpp:62-78 | `std::string` order is transitive |
| Text.LessTotal | Room.cpp:62-78 | of two different keys, one comes before the other |
| Text.OrderedKeys | Room.cpp:62-78 | every key of the map exactly once, in `std::string` order |
| Text.SortedHasNoDuplicates | Room.cpp:62-78 | keys listed in strictly ascending order are all different |

## Left out

- Console output: every message, the status displays (`displayStatus`,
  `displayCombatants`, the room and exit listings) and the help text. These
  are I/O; only the state changes and return values are modelled.
- Console input is a parameter: one line per combat turn, and a sequence of
  lines for the exploration loop.
- `std::mt19937` is replaced by a stream of draws in [0, 1).
- `double` is modelled as exact `real`; the constants in play (0.2, 0.3,
  0.4, 0.6, 0.7, 0.8, …) are taken as exact.
- `int` overflow is not modelled. No operation of the core comes near the
  32-bit range.
- Command, Location and GameObject, and the `enter()` commands rooms and
  passages run, are not part of this model. Neither are WorldManager (which
  builds the world) and main.
- `Passage`'s plain constructor is assumed to store its four arguments.
  Passage.cpp is not part of this model. `setFrom`/`setTo` are never called
  by the core and are not modelled.
- `Combatant.equipWeapon`: it is only ever called from the constructors, so
  the weapon is fixed at construction (a `const` field). The base
  `Combatant` constructor is folded into `Combatant.Enemy` and
  `Combatant.Player`.
- `SpecialStat`: declared but never assigned or read by the core.
- `attemptFlee` only returns false and is not called. `EnemyTypes.cpp`'s
  `createEnemy` is outside the core.
- Combat.Combatant.Player: the source leaves `inCover` uninitialised, so the
  model states nothing about it; `engage` sets it before it is read.
- Combat.CombatManager.EnemiesTurn: that every living enemy before the
  stopping one ticked its flank clock and acted once is stated per enemy by
  `EnemyStep`, not gathered over the whole loop: the gathered invariant
  must also rule out an enemy listed twice, and with it the method does not
  verify within the resource limit.
- Combat.CombatManager.Engage: what each line does to the distance, cover,
  bodies, magazines and draws is stated per round by `Round`, not composed
  over the loop; the composed distance alone does not verify within the
  resource limit. So Engage states where the fight stopped and how it ended,
  not that the rounds before it were played.
- Combat.CombatManager.Engage: the source reads lines for ever. When the
  scripted commands run out, the model returns `AwaitingInput`.
- Engine.Game.Run: which lines are read as commands and when the game ends
  are stated over the whole loop; what each command does to the player, the
  rooms and the inventory is stated per line by `Step`, not composed over
  the loop.
- Engine.Game.Run: `std::getline` at end of input returns an empty line and
  the source loops for ever. The model stops when the script is used up.
- Engine.Game.Run: the quit answer is read with `std::cin >> input`, which
  skips blank lines. The model takes the first word of the next non-blank
  line and drops the rest of that line, which is what
  `ignore(…, '\n')` does.
- `handleInventoryCommand` calls `player->listInventory()`, which Player.h
  does not declare, so its behaviour is not known. It is treated as output
  only. `Inventory.ListItemNames` models the inventory side.
- `handleHelpCommand` only prints.
- The items `handleSearchCommand` creates are never stored, so they are not
  modelled; only the room table updates are.
- `roomMap` is stored by `SetRoomMap` but never read by the core.
- Character.h is not part of this model; the player's name is not modelled.
- `Item::getDamage` and the other getters, `getEquippedWeapons` and
  `getAllExits` read fields and are modelled by those fields.
- Combat.Combatant.ShootAt: resolves the shot against the chance computed
  before firing, which is the corrected behaviour. `ShotChanceAsWritten`
  models the code as written (see Findings).

## Findings

| source | as written | input that shows it | evidently intended | confidence | as-written member | corrected member |
|---|---|---|---|---|---|---|
| Combat.cpp:115-125 | `shootAt` calls `fireOne()`, which turns a Rifle's scope off, and only then calls `calculateHitChance`. So the +0.40 scope bonus (Combat.cpp:91-93) never applies to any shot | a scoped Rifle at Close aiming at the thorax: as written the chance is 0.48, so a roll of 0.6 misses; with the scope it is 0.80 and the roll hits. The defect is latent in this program: combatants are only armed with a Pistol or an Assault Rifle (Combat.cpp:208-214, 255) and nothing calls `toggleScope` (Weapons.cpp:64-71), so no scoped Rifle reaches a fight | the chance of the weapon as aimed, scope included, taken before the shot unscopes the Rifle | not executed; latent, no current caller reaches it | Combat.ShotChanceAsWritten, Combat.ScopeIgnoredAsWritten | Combat.Combatant.ShootAt, Combat.ScopedRifleShotGetsBonus |
