/**
 * The exploration loop. Each line of input is split into lower-cased words;
 * the first word picks a handler and the remaining words, joined by single
 * spaces, name what it acts on. "go" follows an exit whose destination has
 * the named room, "search" reveals the hidden things of three containers,
 * "take" makes a new item for the player and "drop" leaves a description of
 * it in the room. An unknown first word is read as "look" at the whole line.
 */
module Engine {
  import opened Wrappers
  import opened Text
  import opened Items
  import opened Inventories
  import opened Rooms
  import opened Players

  // ---------------------------------------------------------------------
  // Reading a line
  // ---------------------------------------------------------------------

  /** `tokenizeString`: the whitespace-separated words of the line, each lower-cased. */
  method TokenizeString(input: string) returns (tokens: seq<string>)
    ensures tokens == LowerAll(Tokens(input))
  {
    tokens := [];
    ghost var done: seq<string> := [];
    var current := "";
    for i := 0 to |input|
      invariant ScanFrom(Start, input[..i]) == Scan(done, current)
      invariant tokens == LowerAll(done)
    {
      assert input[..i + 1][..i] == input[..i];
      var c := input[i];
      if !IsSpace(c) {
        current := current + [c];
      } else if current != [] {
        LowerAllSnoc(done, current);
        tokens := tokens + [Lower(current)];
        done := done + [current];
        current := [];
      }
    }
    assert input[..|input|] == input;
    if current != [] {
      LowerAllSnoc(done, current);
      tokens := tokens + [Lower(current)];
      done := done + [current];
    }
  }

  /** Every word of a read line is a non-empty run of non-blank characters without capitals. */
  lemma TokenizedWords(input: string)
    ensures forall k :: 0 <= k < |Tokens(input)| ==>
      IsWord(LowerAll(Tokens(input))[k]) && HasNoUpper(LowerAll(Tokens(input))[k])
  {
    TokensAreWords(input);
    forall k | 0 <= k < |Tokens(input)|
      ensures IsWord(LowerAll(Tokens(input))[k]) && HasNoUpper(LowerAll(Tokens(input))[k])
    {
      LowerProperties(Tokens(input)[k]);
    }
  }

  /** The case in which a line is typed makes no difference to the words read from it. */
  lemma TokenizeIgnoresCase(input: string)
    ensures LowerAll(Tokens(Lower(input))) == LowerAll(Tokens(input))
  {
    TokensOfLower(input);
    LowerAllTwice(Tokens(input));
  }

  /** The target a handler builds: the arguments separated by single spaces. */
  method JoinArguments(arguments: seq<string>) returns (target: string)
    ensures target == Join(arguments)
  {
    target := "";
    for i := 0 to |arguments|
      invariant target == Join(arguments[..i])
    {
      assert arguments[..i + 1][..i] == arguments[..i];
      if i > 0 {
        target := target + " ";
      }
      target := target + arguments[i];
    }
    assert arguments[..|arguments|] == arguments;
  }

  // ---------------------------------------------------------------------
  // Choosing a handler
  // ---------------------------------------------------------------------

  datatype Action =
    | Go(arguments: seq<string>)
    | Look(arguments: seq<string>)
    | Search(arguments: seq<string>)
    | Take(arguments: seq<string>)
    | Drop(arguments: seq<string>)
    | ShowInventory
    | Help
    | Quit
    | Blank

  /** The first words `run` recognises. */
  predicate IsVerb(w: string) {
    w == "go" || w == "goto" || w == "move" || w == "look" || w == "inspect" || w == "search"
    || w == "take" || w == "get" || w == "drop" || w == "inventory" || w == "inv"
    || w == "help" || w == "quit"
  }

  /** The handler `run` calls for the words of a line, and with which arguments. */
  function Dispatch(words: seq<string>): (a: Action)
    ensures words == [] <==> a == Blank
    ensures words != [] && !IsVerb(words[0]) ==> a == Look(words)
    ensures a.Go? || a.Search? || a.Take? || a.Drop? ==> a.arguments == words[1..]
  {
    if words == [] then Blank
    else
      var command, arguments := words[0], words[1..];
      if command == "go" || command == "goto" || command == "move" then Go(arguments)
      else if command == "look" || command == "inspect" then Look(arguments)
      else if command == "search" then Search(arguments)
      else if command == "take" || command == "get" then Take(arguments)
      else if command == "drop" then Drop(arguments)
      else if command == "inventory" || command == "inv" then ShowInventory
      else if command == "help" then Help
      else if command == "quit" then Quit
      else Look(words)
  }

  /** Synonyms lead to the same handler with the same arguments. */
  lemma SynonymsAgree(rest: seq<string>)
    ensures Dispatch(["go"] + rest) == Dispatch(["goto"] + rest) == Dispatch(["move"] + rest) == Go(rest)
    ensures Dispatch(["look"] + rest) == Dispatch(["inspect"] + rest) == Look(rest)
    ensures Dispatch(["take"] + rest) == Dispatch(["get"] + rest) == Take(rest)
    ensures Dispatch(["inventory"] + rest) == Dispatch(["inv"] + rest) == ShowInventory
  {
    assert (["go"] + rest)[1..] == rest;
    assert (["goto"] + rest)[1..] == rest;
    assert (["move"] + rest)[1..] == rest;
    assert (["look"] + rest)[1..] == rest;
    assert (["inspect"] + rest)[1..] == rest;
    assert (["take"] + rest)[1..] == rest;
    assert (["get"] + rest)[1..] == rest;
  }

  /** A line that starts with no known word is handled as "look" followed by that whole line. */
  lemma UnknownLineIsLook(words: seq<string>)
    requires words != [] && !IsVerb(words[0])
    ensures Dispatch(words) == Dispatch(["look"] + words)
  {
    assert (["look"] + words)[1..] == words;
  }

  // ---------------------------------------------------------------------
  // What the handlers know about the world
  // ---------------------------------------------------------------------

  /** Exit `k` of `exits` reaches a room whose lower-cased name is `target`. */
  predicate LeadsTo(exits: map<string, Passage>, k: string, target: string) {
    k in exits && Lower(exits[k].toRoom.name) == target
  }

  /**
   * What searching a container reveals: the name the thing is known by in the
   * room, how it looks, and what searching it says.
   */
  function Revealed(container: string): Option<(string, string, string)> {
    if container == "rifle case" then
      Some(("rifle", "A sturdy assault rifle leans against the seat.", "You pick up the Rifle. Damage: 40."))
    else if container == "shotgun rack" then
      Some(("shotgun", "A shotgun rests atop a broken chair.", "You pick up the Shotgun. Damage: 60."))
    else if container == "tv rack" then
      Some(("lab keycard", "A Level-2 lab keycard glints on the counter.", "You pick up the Lab Keycard. Can open the lab."))
    else None
  }

  /** What taking a thing by its room name makes: the item's name, type and damage. */
  function Taken(target: string): Option<(string, ItemType, int)> {
    if target == "rifle" then Some(("Rifle", Weapon, 40))
    else if target == "shotgun" then Some(("Shotgun", Weapon, 60))
    else if target == "lab keycard" then Some(("Lab Keycard", Keycard, 0))
    else None
  }

  /**
   * Searching and taking agree: everything a search reveals can be taken,
   * everything that can be taken is revealed by some search, and a weapon
   * comes with the damage its search text announces.
   */
  lemma SearchRevealsWhatCanBeTaken(container: string, target: string)
    ensures Revealed(container).Some? ==> Taken(Revealed(container).value.0).Some?
    ensures Taken(target).Some? ==> exists c :: Revealed(c).Some? && Revealed(c).value.0 == target
    ensures Taken("rifle").value.2 == 40 && Taken("shotgun").value.2 == 60
  {
    if target == "rifle" {
      assert Revealed("rifle case").value.0 == target;
    } else if target == "shotgun" {
      assert Revealed("shotgun rack").value.0 == target;
    } else if target == "lab keycard" {
      assert Revealed("tv rack").value.0 == target;
    }
  }

  /**
   * A "drop" line names its item in lower case, while every item "take" makes
   * has a capital letter: whatever the line, the name it asks to drop is never
   * the name of an item picked up by "take".
   */
  lemma TakenItemIsNeverDropped(line: string, target: string)
    requires Taken(target).Some?
    ensures var words := LowerAll(Tokens(line));
      words != [] ==> Join(words[1..]) != Taken(target).value.0
  {
    var words := LowerAll(Tokens(line));
    if words != [] {
      TokenizedWords(line);
      JoinHasNoUpper(words[1..]);
      assert IsUpper(Taken(target).value.0[0]);
    }
  }

  /** The answer `handleQuitCommand` accepts: "y" or "yes" in any mix of cases. */
  predicate Confirms(answer: string) {
    Lower(answer) == "y" || Lower(answer) == "yes"
  }

  /** Confirmation ignores case; an empty answer or "n" does not confirm. */
  lemma ConfirmsIgnoresCase(answer: string)
    ensures Confirms(Lower(answer)) == Confirms(answer)
    ensures Confirms("Y") && Confirms("YeS") && !Confirms("") && !Confirms("n")
  {
    LowerProperties(answer);
    assert Lower("YeS") == "yes";
    assert Lower("Y") == "y";
    assert Lower("n") == "n";
  }

  /**
   * `std::cin >> input` followed by ignoring the rest of the line: the first
   * word of the next line that has one, and how many lines that uses up.
   * Blank lines are skipped; at the end of input the word is empty.
   */
  function NextWord(lines: seq<string>, from: nat): (r: (string, nat))
    requires from <= |lines|
    ensures from <= r.1 <= |lines|
    ensures r.0 == "" ==> r.1 == |lines| && forall j :: from <= j < |lines| ==> Tokens(lines[j]) == []
    ensures r.0 != "" ==>
      (from < r.1 && Tokens(lines[r.1 - 1]) != [] && r.0 == Tokens(lines[r.1 - 1])[0]
       && forall j :: from <= j < r.1 - 1 ==> Tokens(lines[j]) == [])
    decreases |lines| - from
  {
    if from == |lines| then ("", from)
    else
      var words := Tokens(lines[from]);
      if words == [] then NextWord(lines, from + 1)
      else
        TokensAreWords(lines[from]);
        (words[0], from + 1)
  }

  /** What line `pos` of the script asks for. */
  function LineAction(lines: seq<string>, pos: nat): Action
    requires pos < |lines|
  {
    Dispatch(LowerAll(Tokens(lines[pos])))
  }

  /** Line `pos` is a "quit" whose answer, read from the next line on, confirms it. */
  predicate ConfirmedQuitAt(lines: seq<string>, pos: nat) {
    pos < |lines| && LineAction(lines, pos) == Quit && Confirms(NextWord(lines, pos + 1).0)
  }

  /**
   * Where `run` reads its next command after the one on line `pos`: the
   * next line, or for a "quit" the line after its answer.
   */
  function CommandEnd(lines: seq<string>, pos: nat): (next: nat)
    requires pos < |lines|
    ensures pos < next <= |lines|
    ensures LineAction(lines, pos) != Quit ==> next == pos + 1
  {
    if LineAction(lines, pos) == Quit then NextWord(lines, pos + 1).1 else pos + 1
  }

  /**
   * The lines `run` reads as commands from line `pos` on: one after another,
   * until the script runs out or a quit is confirmed.
   */
  function CommandLines(lines: seq<string>, pos: nat): seq<nat>
    decreases |lines| - pos
  {
    if pos >= |lines| then []
    else if ConfirmedQuitAt(lines, pos) then [pos]
    else [pos] + CommandLines(lines, CommandEnd(lines, pos))
  }

  /**
   * The commands are read in script order starting at `pos`, each where the
   * reading of the one before it stopped. Only the last can be a confirmed
   * quit, and when it is not one the script has been read to its end.
   */
  lemma {:induction false} CommandLinesFollowScript(lines: seq<string>, pos: nat)
    ensures var r := CommandLines(lines, pos);
      && (r == [] <==> pos >= |lines|)
      && (r != [] ==> r[0] == pos)
      && (forall k :: 0 <= k < |r| ==> pos <= r[k] < |lines|)
      && (forall k :: 0 <= k < |r| - 1 ==> !ConfirmedQuitAt(lines, r[k]) && r[k + 1] == CommandEnd(lines, r[k]))
      && (r != [] && !ConfirmedQuitAt(lines, r[|r| - 1]) ==> CommandEnd(lines, r[|r| - 1]) == |lines|)
    decreases |lines| - pos
  {
    if pos < |lines| && !ConfirmedQuitAt(lines, pos) {
      var next := CommandEnd(lines, pos);
      var rest := CommandLines(lines, next);
      CommandLinesFollowScript(lines, next);
      var r := [pos] + rest;
      assert r == CommandLines(lines, pos);
      forall k | 0 <= k < |r| - 1
        ensures !ConfirmedQuitAt(lines, r[k]) && r[k + 1] == CommandEnd(lines, r[k])
      {
        if k > 0 {
          assert r[k] == rest[k - 1] && r[k + 1] == rest[k];
        }
      }
    }
  }

  /** Reading commands from line `pos` on meets a confirmed quit before the script runs out. */
  predicate QuitConfirmedFrom(lines: seq<string>, pos: nat)
    decreases |lines| - pos
  {
    pos < |lines| && (ConfirmedQuitAt(lines, pos) || QuitConfirmedFrom(lines, CommandEnd(lines, pos)))
  }

  /** Where reading commands from line `pos` on stops: just after a confirmed quit's answer, or at the end of the script. */
  function ReadingStops(lines: seq<string>, pos: nat): nat
    decreases |lines| - pos
  {
    if pos >= |lines| then |lines|
    else if ConfirmedQuitAt(lines, pos) then CommandEnd(lines, pos)
    else ReadingStops(lines, CommandEnd(lines, pos))
  }

  /** Reading from a line that is not a confirmed quit goes on where that command's reading stopped. */
  lemma ReadingGoesOn(lines: seq<string>, pos: nat)
    requires pos < |lines|
    ensures ConfirmedQuitAt(lines, pos) ==> QuitConfirmedFrom(lines, pos) && ReadingStops(lines, pos) == CommandEnd(lines, pos)
    ensures !ConfirmedQuitAt(lines, pos) ==>
      && QuitConfirmedFrom(lines, pos) == QuitConfirmedFrom(lines, CommandEnd(lines, pos))
      && ReadingStops(lines, pos) == ReadingStops(lines, CommandEnd(lines, pos))
  { }

  /**
   * The reading half of one pass of `run`: the words of line `pos`, and for
   * a "quit" the answer read from the lines after it; `next` is where the
   * reading stopped.
   */
  method ReadCommand(lines: seq<string>, pos: nat) returns (words: seq<string>, answer: string, next: nat)
    requires pos < |lines|
    ensures words == LowerAll(Tokens(lines[pos])) && next == CommandEnd(lines, pos)
    ensures Dispatch(words) == Quit && Confirms(answer) <==> ConfirmedQuitAt(lines, pos)
  {
    words := TokenizeString(lines[pos]);
    next := pos + 1;
    answer := "";
    if Dispatch(words) == Quit {
      answer, next := NextWord(lines, next).0, NextWord(lines, next).1;
    }
  }

  /**
   * A confirmed quit is met from `pos` on exactly when the last command line
   * read is one, and reading stops where the reading of that last command
   * stopped.
   */
  lemma {:induction false} ReadingStopsAtLastCommand(lines: seq<string>, pos: nat)
    ensures var r := CommandLines(lines, pos);
      && (QuitConfirmedFrom(lines, pos) <==> r != [] && ConfirmedQuitAt(lines, r[|r| - 1]))
      && (r != [] ==> r[|r| - 1] < |lines| && ReadingStops(lines, pos) == CommandEnd(lines, r[|r| - 1]))
    decreases |lines| - pos
  {
    CommandLinesFollowScript(lines, pos);
    if pos < |lines| && !ConfirmedQuitAt(lines, pos) {
      var next := CommandEnd(lines, pos);
      ReadingStopsAtLastCommand(lines, next);
      var rest := CommandLines(lines, next);
      assert CommandLines(lines, pos) == [pos] + rest;
      if rest != [] {
        assert ([pos] + rest)[|rest|] == rest[|rest| - 1];
      }
    }
  }

  /** Every room any exit of a room in `world` leads to is in `world`. */
  ghost predicate Closed(world: set<Room>)
    reads world`passageMap
  {
    forall r, k :: r in world && k in r.passageMap ==> r.passageMap[k].toRoom in world
  }

  // ---------------------------------------------------------------------
  // The engine
  // ---------------------------------------------------------------------

  class Game {
    var gameOver: bool
    const player: Player
    var roomMap: map<string, Room>

    /** The engine takes the one player and puts it in the starting room. */
    constructor (start: Room, slot: PlayerSlot)
      modifies slot, slot.instance
      ensures player == slot.instance && player.currentRoom == start
      ensures old(slot.instance) != null ==> player == old(slot.instance)
      ensures old(slot.instance) != null ==> player.Health() == old(slot.instance.Health())
      ensures old(slot.instance) == null ==> fresh(player) && fresh(player.inventory)
      ensures old(slot.instance) == null ==> player.Health() == StartingHealth && player.inventory.Snapshot() == Empty
      ensures !gameOver && roomMap == map[]
    {
      var p := slot.Instance();
      p.SetCurrentRoom(start);
      player := p;
      gameOver := false;
      roomMap := map[];
    }

    method SetRoomMap(m: map<string, Room>)
      modifies this`roomMap
      ensures roomMap == m
    {
      roomMap := m;
    }

    /**
     * The effect of `handleGoCommand`: of the exits of the room the player
     * stood in, in label order, the first whose destination's name matches
     * the target regardless of case is followed; with no target or no such
     * exit the player stays.
     */
    twostate predicate Went(arguments: seq<string>)
      reads player
    {
      old(player.currentRoom) != null && player.currentRoom != null
      && var exits, t := old(player.currentRoom.passageMap), Lower(Join(arguments));
        if arguments != [] && exists k :: LeadsTo(exits, k, t) then
          exists k :: LeadsTo(exits, k, t) && player.currentRoom == exits[k].toRoom
            && forall k' :: Less(k', k) ==> !LeadsTo(exits, k', t)
        else
          player.currentRoom == old(player.currentRoom)
    }

    /** `handleGoCommand`: the player follows the first matching exit, or stays. */
    method HandleGo(arguments: seq<string>)
      requires player.currentRoom != null
      modifies player`currentRoom
      ensures player.currentRoom != null
      ensures Went(arguments)
    {
      if arguments == [] {
        return;
      }
      var target := JoinArguments(arguments);
      var currentRoom := player.currentRoom;
      var exits := currentRoom.passageMap;
      var targetLower := Lower(target);
      var keys := OrderedKeys(exits);
      var i := 0;
      while i < |keys|
        invariant 0 <= i <= |keys|
        invariant player.currentRoom == currentRoom
        invariant forall j :: 0 <= j < i ==> !LeadsTo(exits, keys[j], targetLower)
      {
        assert keys[i] in keys;
        var dest := exits[keys[i]].toRoom;
        if Lower(dest.name) == targetLower {
          player.SetCurrentRoom(dest);
          assert LeadsTo(exits, keys[i], targetLower);
          forall k' | Less(k', keys[i])
            ensures !LeadsTo(exits, k', targetLower)
          {
            if k' in exits {
              var j :| 0 <= j < |keys| && keys[j] == k';
              if i <= j {
                SortedBelow(keys, i, j);
              }
            }
          }
          return;
        }
        i := i + 1;
      }
      forall k | k in exits
        ensures !LeadsTo(exits, k, targetLower)
      {
        var j :| 0 <= j < |keys| && keys[j] == k;
      }
    }

    /**
     * `handleLookCommand` without the printing: the room's description for a
     * bare "look", the look description of a lookable target, and `None` for
     * anything else.
     */
    function LookText(arguments: seq<string>): (r: Option<string>)
      requires player.currentRoom != null
      reads player, player.currentRoom
      ensures arguments == [] ==> r == Some(player.currentRoom.description)
      ensures arguments != [] ==> (r.Some? <==> Join(arguments) in player.currentRoom.lookables)
      ensures r.Some? && arguments != [] ==> r.value == player.currentRoom.lookables[Join(arguments)]
    {
      var room := player.currentRoom;
      if arguments == [] then Some(room.description)
      else if room.IsLookable(Join(arguments)) then Some(room.GetLookDescription(Join(arguments)))
      else None
    }

    /**
     * The effect of `handleSearchCommand`: the player stays, and searching a
     * searchable container of the room adds what it reveals to the room's
     * lookable and searchable tables; any other search changes nothing.
     */
    twostate predicate Searched(arguments: seq<string>)
      reads player, player.currentRoom
    {
      player.currentRoom != null && player.currentRoom == old(player.currentRoom)
      && var room, t := player.currentRoom, Join(arguments);
        if arguments != [] && t in old(room.searchables) && Revealed(t).Some? then
          var (thing, look, search) := Revealed(t).value;
          room.lookables == old(room.lookables)[thing := look]
          && room.searchables == old(room.searchables)[thing := search]
        else
          room.lookables == old(room.lookables) && room.searchables == old(room.searchables)
    }

    /** `handleSearchCommand`: a searched container reveals its contents to the room. */
    method HandleSearch(arguments: seq<string>)
      requires player.currentRoom != null
      modifies player.currentRoom`lookables, player.currentRoom`searchables
      ensures Searched(arguments)
    {
      if arguments == [] {
        return;
      }
      var currentRoom := player.currentRoom;
      var target := JoinArguments(arguments);
      if currentRoom.IsSearchable(target) {
        if target == "rifle case" {
          currentRoom.AddLookable("rifle", "A sturdy assault rifle leans against the seat.");
          currentRoom.AddSearchable("rifle", "You pick up the Rifle. Damage: 40.");
        } else if target == "shotgun rack" {
          currentRoom.AddLookable("shotgun", "A shotgun rests atop a broken chair.");
          currentRoom.AddSearchable("shotgun", "You pick up the Shotgun. Damage: 60.");
        } else if target == "tv rack" {
          currentRoom.AddLookable("lab keycard", "A Level-2 lab keycard glints on the counter.");
          currentRoom.AddSearchable("lab keycard", "You pick up the Lab Keycard. Can open the lab.");
        }
      }
    }

    /**
     * The effect of `handleTakeCommand`: taking a lookable rifle, shotgun or
     * lab keycard makes `newItem`, new, with an empty description, and offers
     * it to the inventory, which keeps it when the weapon limit allows.
     * Anything else makes nothing and leaves the inventory alone.
     */
    twostate predicate Took(arguments: seq<string>, new newItem: Item?)
      reads player, player.currentRoom, player.inventory, newItem
    {
      player.currentRoom != null
      && var t := Join(arguments);
        var made := arguments != [] && t in player.currentRoom.lookables && Taken(t).Some?;
        (newItem != null <==> made)
        && (made ==>
              (fresh(newItem) && newItem.description == ""
               && (newItem.name, newItem.itemType, newItem.damage) == Taken(t).value
               && player.inventory.Snapshot() == AfterAdd(old(player.inventory.Snapshot()), newItem).0))
        && (!made ==> player.inventory.Snapshot() == old(player.inventory.Snapshot()))
    }

    /** `handleTakeCommand`: a known item named by the target is made and offered to the inventory. */
    method HandleTake(arguments: seq<string>) returns (newItem: Item?)
      requires player.currentRoom != null
      modifies player.inventory
      ensures Took(arguments, newItem)
    {
      newItem := null;
      if arguments == [] {
        return;
      }
      var target := JoinArguments(arguments);
      var currentRoom := player.currentRoom;
      if !currentRoom.IsLookable(target) {
        return;
      }
      var properName, itemType;
      if target == "rifle" {
        properName, itemType := "Rifle", Weapon;
      } else if target == "shotgun" {
        properName, itemType := "Shotgun", Weapon;
      } else if target == "lab keycard" {
        properName, itemType := "Lab Keycard", Keycard;
      } else {
        return;
      }
      newItem := new Item(properName, "", itemType);
      if itemType == Weapon {
        if properName == "Rifle" {
          newItem.SetDamage(40);
        } else if properName == "Shotgun" {
          newItem.SetDamage(60);
        }
      }
      var _ := player.PickUpItem(newItem);
    }

    /**
     * The effect of `handleDropCommand`: the player stays, the first carried
     * item with exactly the target's name leaves the inventory, and the room
     * gains a look and a search description of it under that name. Nothing
     * changes when no item has it.
     */
    twostate predicate Dropped(arguments: seq<string>)
      reads player, player.currentRoom, player.inventory
    {
      player.currentRoom != null && player.currentRoom == old(player.currentRoom)
      && var room, t := player.currentRoom, Join(arguments);
        var dropped := arguments != [] && old(player.inventory.HasItem(t));
        (arguments != [] ==> player.inventory.Snapshot() == AfterRemove(old(player.inventory.Snapshot()), t).0)
        && (arguments == [] ==> player.inventory.Snapshot() == old(player.inventory.Snapshot()))
        && (dropped ==>
              room.lookables == old(room.lookables)[t := "A " + t + " lies here on the ground."]
              && room.searchables == old(room.searchables)[t := "You see the " + t + " sitting on the floor."])
        && (!dropped ==> room.lookables == old(room.lookables) && room.searchables == old(room.searchables))
    }

    /** `handleDropCommand`: the named item goes from the inventory to the room's floor. */
    method HandleDrop(arguments: seq<string>)
      requires player.currentRoom != null
      modifies player.inventory, player.currentRoom`lookables, player.currentRoom`searchables
      ensures Dropped(arguments)
    {
      if arguments == [] {
        return;
      }
      var target := JoinArguments(arguments);
      var dropped := player.DropItem(target);
      if dropped {
        var currentRoom := player.currentRoom;
        currentRoom.AddLookable(target, "A " + target + " lies here on the ground.");
        currentRoom.AddSearchable(target, "You see the " + target + " sitting on the floor.");
      }
    }

    /** `handleQuitCommand`: the game ends when the answer confirms. */
    method HandleQuit(answer: string)
      modifies this`gameOver
      ensures gameOver == (old(gameOver) || Confirms(answer))
    {
      var quitStr := Lower(answer);
      if quitStr == "y" || quitStr == "yes" {
        gameOver := true;
      }
    }

    /**
     * One pass of `run`'s loop on the words of a line: the handler `Dispatch`
     * picks has its effect, and `taken` is the item a "take" made, if any.
     * Only "go" moves the player, only "take" and "drop" change the
     * inventory, only "search" and "drop" change the room, and only a
     * confirmed "quit" ends the game.
     */
    method Step(words: seq<string>, answer: string) returns (ghost taken: Item?)
      requires player.currentRoom != null
      modifies this`gameOver, player`currentRoom, player.inventory
      modifies player.currentRoom`lookables, player.currentRoom`searchables
      ensures player.currentRoom != null
      ensures gameOver == (old(gameOver) || (Dispatch(words) == Quit && Confirms(answer)))
      ensures Dispatch(words).Go? ==> Went(Dispatch(words).arguments)
      ensures Dispatch(words).Search? ==> Searched(Dispatch(words).arguments)
      ensures Dispatch(words).Take? ==> Took(Dispatch(words).arguments, taken)
      ensures !Dispatch(words).Take? ==> taken == null
      ensures Dispatch(words).Drop? ==> Dropped(Dispatch(words).arguments)
      ensures !Dispatch(words).Go? ==> player.currentRoom == old(player.currentRoom)
      ensures player.currentRoom == old(player.currentRoom)
        || exists k :: LeadsTo(old(player.currentRoom).passageMap, k, Lower(Join(Dispatch(words).arguments)))
             && player.currentRoom == old(player.currentRoom).passageMap[k].toRoom
      ensures !(Dispatch(words).Take? || Dispatch(words).Drop?) ==>
        player.inventory.Snapshot() == old(player.inventory.Snapshot())
      ensures !(Dispatch(words).Search? || Dispatch(words).Drop?) ==>
        old(player.currentRoom).lookables == old(player.currentRoom.lookables)
        && old(player.currentRoom).searchables == old(player.currentRoom.searchables)
    {
      taken := null;
      match Dispatch(words)
      case Go(arguments) => HandleGo(arguments);
      case Search(arguments) => HandleSearch(arguments);
      case Take(arguments) => taken := HandleTake(arguments);
      case Drop(arguments) => HandleDrop(arguments);
      case Quit => HandleQuit(answer);
      case _ =>
    }

    /**
     * `run` on a script of input lines: the lines `CommandLines` picks are
     * read as commands and handled by `Step`, in order, and "quit" reads its
     * answer from the lines after it. The game ends exactly when a confirmed
     * quit is met, and `used` is where reading stopped: just after that
     * answer, or at the end of the script. Rooms outside `world` are never
     * touched, and the player never leaves it.
     */
    method Run(lines: seq<string>, ghost world: set<Room>) returns (used: nat)
      requires player.currentRoom in world && Closed(world)
      modifies this`gameOver, player`currentRoom, player.inventory
      modifies world`lookables, world`searchables
      ensures used <= |lines| && player.currentRoom in world
      ensures old(gameOver) ==> gameOver && used == 0
      ensures !gameOver ==> used == |lines|
      ensures !old(gameOver) ==> (gameOver <==> QuitConfirmedFrom(lines, 0))
      ensures !old(gameOver) ==> used == ReadingStops(lines, 0)
    {
      used := 0;
      while !gameOver && used < |lines|
        invariant used <= |lines| && player.currentRoom in world && Closed(world)
        invariant old(gameOver) ==> gameOver && used == 0
        invariant gameOver ==> old(gameOver)
        invariant !gameOver ==> QuitConfirmedFrom(lines, 0) == QuitConfirmedFrom(lines, used)
        invariant !gameOver ==> ReadingStops(lines, 0) == ReadingStops(lines, used)
        decreases |lines| - used
      {
        ReadingGoesOn(lines, used);
        var words, answer;
        words, answer, used := ReadCommand(lines, used);
        var _ := Step(words, answer);
        if gameOver {
          return;
        }
      }
    }
  }
}
