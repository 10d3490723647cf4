/** The record written by `save_game` and the player rebuilt from it by
    `load_game`, without the JSON encoding or the file. */
module Persistence {
  import opened Options
  import opened Items
  import opened Characters

  /** The saved record. `inventory` and `flags` are optional because the
      loader reads them with a default (`data.get`); the other keys it
      requires. */
  datatype SaveData = SaveData(
    name: string, cls: string,
    health: int, maxHealth: int, sanity: int,
    strength: int, agility: int, magic: int,
    level: int, xp: int,
    inventory: Option<seq<string>>,
    flags: Option<map<string, int>>)

  function GetOr<T>(o: Option<T>, default: T): T {
    match o
    case Some(v) => v
    case None => default
  }

  /** `save_game`'s record: the stats, the class key, the item names in list
      order and the flags. */
  function Save(p: PlayerRecord): SaveData {
    SaveData(p.name, p.cls, p.health, p.maxHealth, p.sanity,
      p.strength, p.agility, p.magic, p.level, p.xp,
      Some(NamesOf(p.items)), Some(p.flags))
  }

  /** The inventory loop of `load_game`: names in the item table are added
      in order, all others are skipped. */
  function KnownItems(names: seq<string>): (its: seq<Item>)
    ensures |its| <= |names|
    ensures forall k :: 0 <= k < |its| ==> its[k].Name() in names
  {
    if names == [] then []
    else
      var init := KnownItems(names[..|names| - 1]);
      assert forall n :: n in names[..|names| - 1] ==> n in names;
      match ItemNamed(names[|names| - 1])
      case Some(it) => init + [it]
      case None => init
  }

  /** `load_game`: a player of the class with the saved key (the first class
      when no class has it), with the saved stats, the known items and the
      saved flags; alive, with no class resources. */
  function Load(d: SaveData): (p: PlayerRecord)
    ensures p.alive && p.classResource == {}
    ensures KnownClass(d.cls) ==> p.cls == d.cls
    ensures !KnownClass(d.cls) ==> p.cls == Classes[0].key && p.className == Classes[0].name
  {
    var c := ClassByKey(d.cls);
    NewPlayer(d.name, c).(
      health := d.health, maxHealth := d.maxHealth, sanity := d.sanity,
      strength := d.strength, agility := d.agility, magic := d.magic,
      level := d.level, xp := d.xp,
      items := KnownItems(GetOr(d.inventory, [])),
      flags := GetOr(d.flags, map[]))
  }

  /** A name that is not in the item table is dropped; one that is adds its
      item at the end. */
  lemma KnownItemsAppend(names: seq<string>, n: string)
    ensures ItemNamed(n).None? ==> KnownItems(names + [n]) == KnownItems(names)
    ensures ItemNamed(n).Some? ==> KnownItems(names + [n]) == KnownItems(names) + [ItemNamed(n).value]
  {
    assert (names + [n])[..|names|] == names;
  }

  /** Every item's name is in the table, so saving the names and loading
      them gives the items back. */
  lemma {:induction false} KnownItemsOfNames(items: seq<Item>)
    ensures KnownItems(NamesOf(items)) == items
  {
    if items != [] {
      var init, x := items[..|items| - 1], items[|items| - 1];
      assert items == init + [x];
      assert NamesOf(items) == NamesOf(init) + [x.Name()];
      KnownItemsOfNames(init);
      KnownItemsAppend(NamesOf(init), x.Name());
    }
  }

  /** Loading a saved player restores every saved field; the class name is
      read back from the class table, the player comes back alive, and
      class resources are not saved. */
  lemma LoadSave(p: PlayerRecord)
    requires KnownClass(p.cls)
    ensures Load(Save(p)) == p.(className := ClassByKey(p.cls).name, alive := true, classResource := {})
  {
    KnownItemsOfNames(p.items);
  }

  /** A second save of a loaded save writes the same record. */
  lemma SaveLoadSave(p: PlayerRecord)
    requires KnownClass(p.cls)
    ensures Save(Load(Save(p))) == Save(p)
  {
    LoadSave(p);
  }

  /** A save with an unknown class key loads as a Night Surgeon with the
      saved stats. */
  lemma LoadUnknownClass(d: SaveData)
    requires !KnownClass(d.cls)
    ensures Load(d).cls == "night_surgeon" && Load(d).className == "Night Surgeon"
    ensures Load(d).health == d.health && Load(d).level == d.level
  {
  }

  /** Missing inventory or flags load as empty. */
  lemma LoadDefaults(d: SaveData)
    ensures d.inventory.None? ==> Load(d).items == []
    ensures d.flags.None? ==> Load(d).flags == map[]
  {
  }
}
