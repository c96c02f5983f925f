/**
 * Rooms and the passages between them. A room keeps three tables keyed by
 * name: things to look at, things to search, and passages by exit name.
 */
module Rooms {
  import opened Text

  /** A table lookup that reads an absent name as the empty description. */
  function Describe(m: map<string, string>, n: string): (r: string)
    ensures n in m ==> r == m[n]
    ensures n !in m ==> r == ""
  {
    if n in m then m[n] else ""
  }

  /**
   * After an entry is stored, the table answers with it for that name and as
   * before for every other name; storing again under the same name
   * overwrites.
   */
  lemma DescribeAfterStore(m: map<string, string>, n: string, d: string, d2: string, k: string)
    ensures Describe(m[n := d], n) == d
    ensures k != n ==> Describe(m[n := d], k) == Describe(m, k)
    ensures m[n := d][n := d2] == m[n := d2]
  {
  }

  class Room {
    const name: string
    const description: string
    var lookables: map<string, string>
    var searchables: map<string, string>
    var passageMap: map<string, Passage>

    constructor (name: string, description: string)
      ensures this.name == name && this.description == description
      ensures lookables == map[] && searchables == map[] && passageMap == map[]
    {
      this.name := name;
      this.description := description;
      lookables := map[];
      searchables := map[];
      passageMap := map[];
    }

    method AddLookable(n: string, lookDesc: string)
      modifies this`lookables
      ensures lookables == old(lookables)[n := lookDesc]
      ensures searchables == old(searchables)
    {
      lookables := lookables[n := lookDesc];
    }

    method AddSearchable(n: string, searchDesc: string)
      modifies this`searchables
      ensures searchables == old(searchables)[n := searchDesc]
      ensures lookables == old(lookables)
    {
      searchables := searchables[n := searchDesc];
    }

    predicate IsLookable(n: string)
      reads this
    {
      n in lookables
    }

    predicate IsSearchable(n: string)
      reads this
    {
      n in searchables
    }

    /** `getLookDescription`: the stored text, or "" for a name never added. */
    function GetLookDescription(n: string): (r: string)
      reads this
      ensures IsLookable(n) ==> r == lookables[n]
      ensures !IsLookable(n) ==> r == ""
    {
      Describe(lookables, n)
    }

    function GetSearchDescription(n: string): (r: string)
      reads this
      ensures IsSearchable(n) ==> r == searchables[n]
      ensures !IsSearchable(n) ==> r == ""
    {
      Describe(searchables, n)
    }

    /** Every lookable name exactly once, in the map's ascending order. */
    method GetLookableNames() returns (names: seq<string>)
      ensures forall k :: k in names <==> k in lookables
      ensures StrictlySorted(names)
      ensures forall i, j :: 0 <= i < j < |names| ==> names[i] != names[j]
    {
      names := OrderedKeys(lookables);
      SortedHasNoDuplicates(names);
    }

    method GetSearchableNames() returns (names: seq<string>)
      ensures forall k :: k in names <==> k in searchables
      ensures StrictlySorted(names)
      ensures forall i, j :: 0 <= i < j < |names| ==> names[i] != names[j]
    {
      names := OrderedKeys(searchables);
      SortedHasNoDuplicates(names);
    }

    method AddPassage(exitName: string, p: Passage)
      modifies this`passageMap
      ensures passageMap == old(passageMap)[exitName := p]
    {
      passageMap := passageMap[exitName := p];
    }

    method RemovePassage(exitName: string)
      modifies this`passageMap
      ensures passageMap == old(passageMap) - {exitName}
      ensures exitName !in old(passageMap) ==> passageMap == old(passageMap)
    {
      passageMap := passageMap - {exitName};
    }

    /**
     * `getPassage`: the passage stored under `exitName`; for an unknown name a
     * new null passage that leads from this room back to it. The table is
     * never changed.
     */
    method GetPassage(exitName: string) returns (p: Passage)
      ensures exitName in passageMap ==> p == passageMap[exitName]
      ensures exitName !in passageMap ==> fresh(p) && p.isNull && p.fromRoom == this && p.toRoom == this
      ensures exitName !in passageMap ==> p.name == name && p.description == description
    {
      if exitName in passageMap {
        p := passageMap[exitName];
      } else {
        p := new Passage.Null(this);
      }
    }
  }

  /** A way from one room to another; a null passage leads back to where it starts. */
  class Passage {
    const name: string
    const description: string
    const fromRoom: Room
    const toRoom: Room
    const isNull: bool

    constructor (name: string, description: string, fromRoom: Room, toRoom: Room)
      ensures this.name == name && this.description == description
      ensures this.fromRoom == fromRoom && this.toRoom == toRoom && !isNull
    {
      this.name := name;
      this.description := description;
      this.fromRoom := fromRoom;
      this.toRoom := toRoom;
      isNull := false;
    }

    /** `NullPassage(owner)`: named and described like its room, and going nowhere else. */
    constructor Null(owner: Room)
      ensures name == owner.name && description == owner.description
      ensures fromRoom == owner && toRoom == owner && isNull
    {
      name := owner.name;
      description := owner.description;
      fromRoom := owner;
      toRoom := owner;
      isNull := true;
    }
  }
}
