/** The playable classes and the player's stat block: health clamping, the
    sanity death channel and levelling. */
module Characters {
  import opened Items

  /** One row of the class table. */
  datatype ClassDef = ClassDef(
    key: string, name: string,
    health: int, strength: int, agility: int, magic: int, sanity: int,
    desc: string)

  const Classes: seq<ClassDef> := [
    ClassDef("night_surgeon", "Night Surgeon", 90, 8, 6, 6, 80,
      "Extracts emotional items from defeated nightmares (Fear Shard, Hope Seed)."),
    ClassDef("lucid_magician", "Lucid Magician", 70, 4, 7, 12, 90,
      "Reality-bending actions like \"rewrite rule: enemy misses next turn.\""),
    ClassDef("insomniac", "Insomniac", 60, 10, 8, 4, 120,
      "Has powerful abilities but loses sanity instead of health."),
    ClassDef("broker_novice", "Broker (Novice)", 80, 6, 8, 6, 100,
      "Balanced starter: negotiates and resells dreams."),
    ClassDef("night_watch", "Night Watch", 100, 9, 5, 3, 100,
      "Tough guard-like class: excels at physical combat."),
    ClassDef("somnomancer", "Somnomancer", 65, 3, 6, 11, 95,
      "Dream-focused mage with higher magic stat.")
  ]

  predicate KnownClass(key: string) {
    exists c :: c in Classes && c.key == key
  }

  /** The class with this key, or the first class when no class has it. */
  function ClassByKey(key: string): (c: ClassDef)
    ensures c in Classes
    ensures KnownClass(key) ==> c.key == key
    ensures !KnownClass(key) ==> c == Classes[0]
  {
    if key == Classes[0].key then Classes[0]
    else if key == Classes[1].key then Classes[1]
    else if key == Classes[2].key then Classes[2]
    else if key == Classes[3].key then Classes[3]
    else if key == Classes[4].key then Classes[4]
    else if key == Classes[5].key then Classes[5]
    else Classes[0]
  }

  /** Every class is found under its own key. */
  lemma ClassKeysDistinct()
    ensures forall c :: c in Classes ==> ClassByKey(c.key) == c
  {
    assert Classes[0].key[0] == 'n' && Classes[1].key[0] == 'l' && Classes[2].key[0] == 'i';
    assert Classes[3].key[0] == 'b' && Classes[4].key[0] == 'n' && Classes[5].key[0] == 's';
    assert Classes[0].key[6] == 's' && Classes[4].key[6] == 'w';
    forall c | c in Classes ensures ClassByKey(c.key) == c {
      var i :| 0 <= i < |Classes| && Classes[i] == c;
    }
  }

  /** The player's state as a value: every field of the source's `Player`
      except `equipped`, which nothing in the game ever sets. */
  datatype PlayerRecord = PlayerRecord(
    name: string, cls: string, className: string,
    maxHealth: int, health: int, sanity: int,
    strength: int, agility: int, magic: int,
    level: int, xp: int,
    items: seq<Item>,
    alive: bool,
    flags: map<string, int>,
    classResource: set<string>)

  /** A fresh player of class `c`: full health, level 1, no xp, no items,
      no flags, alive. */
  function NewPlayer(name: string, c: ClassDef): PlayerRecord {
    PlayerRecord(name, c.key, c.name, c.health, c.health, c.sanity,
      c.strength, c.agility, c.magic, 1, 0, [], true, map[], {})
  }

  /** `max(0, min(max_health, health + amt))`. */
  function ClampHealth(health: int, maxHealth: int, amt: int): (h: int)
    ensures 0 <= h
    ensures maxHealth >= 0 ==> h <= maxHealth
    ensures 0 <= health + amt <= maxHealth ==> h == health + amt
    ensures 0 <= maxHealth <= health + amt ==> h == maxHealth
    ensures h == 0 <==> health + amt <= 0 || maxHealth <= 0
  {
    var capped := if health + amt < maxHealth then health + amt else maxHealth;
    if capped < 0 then 0 else capped
  }

  /** `modify_health`: health moves by `amt`, clamped into [0, max_health];
      reaching 0 kills, and nothing else revives. */
  function HealthChanged(p: PlayerRecord, amt: int): (r: PlayerRecord)
    ensures r == p.(health := r.health, alive := r.alive)
    ensures r.health == ClampHealth(p.health, p.maxHealth, amt)
    ensures r.alive <==> p.alive && r.health != 0
  {
    var h := ClampHealth(p.health, p.maxHealth, amt);
    p.(health := h, alive := if h == 0 then false else p.alive)
  }

  /** The sanity at or below which the player is dead. */
  const SanityDeath := -50

  /** `modify_sanity`: sanity moves by exactly `amt` with no clamp; at or
      below -50 the player dies whatever their health. */
  function SanityChanged(p: PlayerRecord, amt: int): (r: PlayerRecord)
    ensures r == p.(sanity := p.sanity + amt, alive := r.alive)
    ensures r.alive <==> p.alive && p.sanity + amt > SanityDeath
  {
    var s := p.sanity + amt;
    p.(sanity := s, alive := if s <= SanityDeath then false else p.alive)
  }

  /** The xp consumed by levelling from `lo` up to `hi`: the sum of
      `100 * l` for `lo <= l < hi`. */
  function Thresholds(lo: int, hi: int): int
    decreases hi - lo
  {
    if lo >= hi then 0 else 100 * lo + Thresholds(lo + 1, hi)
  }

  datatype Progress = Progress(level: int, xp: int)

  /** The `while xp >= 100 * level` loop of `gain_xp` on (level, xp). */
  function LevelUp(level: int, xp: int): Progress
    decreases if level < 1 then 1 - level else 0, xp
  {
    if xp >= 100 * level then LevelUp(level + 1, xp - 100 * level)
    else Progress(level, xp)
  }

  /** The levelling loop stops at the first level whose threshold the
      remaining xp does not reach; every threshold on the way was reached and
      paid for, and xp that started non-negative stays non-negative. */
  lemma {:induction false} LevelUpFacts(level: int, xp: int)
    ensures LevelUp(level, xp).level >= level
    ensures LevelUp(level, xp).xp < 100 * LevelUp(level, xp).level
    ensures xp == LevelUp(level, xp).xp + Thresholds(level, LevelUp(level, xp).level)
    ensures forall k :: level <= k < LevelUp(level, xp).level ==>
      xp - Thresholds(level, k) >= 100 * k
    ensures xp >= 0 ==> LevelUp(level, xp).xp >= 0
    decreases if level < 1 then 1 - level else 0, xp
  {
    if xp >= 100 * level {
      LevelUpFacts(level + 1, xp - 100 * level);
      var r := LevelUp(level, xp);
      forall k | level <= k < r.level
        ensures xp - Thresholds(level, k) >= 100 * k
      {
        if k > level {
          assert Thresholds(level, k) == 100 * level + Thresholds(level + 1, k);
        }
      }
    }
  }

  /** Those facts pin the result down: no other level meets them. */
  lemma {:induction false} LevelUpUnique(level: int, xp: int, k: int)
    requires k >= level
    requires xp - Thresholds(level, k) < 100 * k
    requires forall j :: level <= j < k ==> xp - Thresholds(level, j) >= 100 * j
    ensures LevelUp(level, xp) == Progress(k, xp - Thresholds(level, k))
    decreases k - level
  {
    if k > level {
      assert xp - Thresholds(level, level) >= 100 * level;
      forall j | level + 1 <= j < k
        ensures xp - 100 * level - Thresholds(level + 1, j) >= 100 * j
      {
        assert xp - Thresholds(level, j) >= 100 * j;
      }
      LevelUpUnique(level + 1, xp - 100 * level, k);
    }
  }

  lemma LevelUpStep(level: int, xp: int)
    requires xp >= 100 * level
    ensures LevelUp(level, xp) == LevelUp(level + 1, xp - 100 * level)
  {
  }

  lemma LevelUpStops(level: int, xp: int)
    requires xp < 100 * level
    ensures LevelUp(level, xp) == Progress(level, xp)
  {
  }

  /** `gain_xp`: each level gained adds 10 to max_health and 1 to strength,
      agility and magic; nothing else changes. */
  function XpGained(p: PlayerRecord, amount: int): PlayerRecord
  {
    Promoted(p, LevelUp(p.level, p.xp + amount))
  }

  /** `p` moved to the level and xp of `g`, with the stat bonus of every
      level gained on the way. */
  function Promoted(p: PlayerRecord, g: Progress): PlayerRecord {
    var k := g.level - p.level;
    p.(xp := g.xp, level := g.level, maxHealth := p.maxHealth + 10 * k,
      strength := p.strength + k, agility := p.agility + k, magic := p.magic + k)
  }

  /** What `gain_xp` promises: the level never drops, the remaining xp is
      below the new level's threshold (and not negative when the gain is not
      negative), the old xp plus the gain is the new xp plus every threshold
      paid, each level gained adds 10 max health and 1 to strength, agility
      and magic, and nothing else changes. */
  lemma XpGainedFacts(p: PlayerRecord, amount: int)
    ensures XpGained(p, amount).level >= p.level
    ensures XpGained(p, amount).xp < 100 * XpGained(p, amount).level
    ensures p.xp + amount >= 0 ==> XpGained(p, amount).xp >= 0
    ensures p.xp + amount == XpGained(p, amount).xp + Thresholds(p.level, XpGained(p, amount).level)
    ensures forall k :: p.level <= k < XpGained(p, amount).level ==>
      p.xp + amount - Thresholds(p.level, k) >= 100 * k
    ensures XpGained(p, amount) == p.(
      xp := XpGained(p, amount).xp, level := XpGained(p, amount).level,
      maxHealth := p.maxHealth + 10 * (XpGained(p, amount).level - p.level),
      strength := p.strength + (XpGained(p, amount).level - p.level),
      agility := p.agility + (XpGained(p, amount).level - p.level),
      magic := p.magic + (XpGained(p, amount).level - p.level))
  {
    LevelUpFacts(p.level, p.xp + amount);
  }

  /** 250 xp at level 1 buys one level (100) and leaves 150, short of the 200
      that level 2 needs. */
  lemma Gain250AtLevelOne(p: PlayerRecord)
    requires p.level == 1 && p.xp == 0
    ensures XpGained(p, 250).level == 2 && XpGained(p, 250).xp == 150
    ensures XpGained(p, 250).maxHealth == p.maxHealth + 10
  {
    LevelUpUnique(1, 250, 2);
  }

  /** The player object. `inventory` is the player's own Inventory; every
      other field is a stat the game reads and writes in place. */
  class Player {
    const name: string
    const cls: string
    const className: string
    var maxHealth: int
    var health: int
    var sanity: int
    var strength: int
    var agility: int
    var magic: int
    var level: int
    var xp: int
    const inventory: Inventory
    var alive: bool
    /** Story flags; a Python `True` is stored as 1, `defend_tmp` as an int. */
    var flags: map<string, int>
    /** Keys of `class_resource`; the source only ever stores `True` there. */
    var classResource: set<string>

    function Record(): PlayerRecord
      reads this, inventory
    {
      PlayerRecord(name, cls, className, maxHealth, health, sanity,
        strength, agility, magic, level, xp, inventory.items, alive, flags, classResource)
    }

    constructor (name: string, c: ClassDef)
      ensures fresh(inventory)
      ensures Record() == NewPlayer(name, c)
    {
      this.name := name;
      cls := c.key;
      className := c.name;
      maxHealth := c.health;
      health := c.health;
      sanity := c.sanity;
      strength := c.strength;
      agility := c.agility;
      magic := c.magic;
      level := 1;
      xp := 0;
      inventory := new Inventory();
      alive := true;
      flags := map[];
      classResource := {};
    }

    method ModifyHealth(amt: int)
      modifies this
      ensures Record() == HealthChanged(old(Record()), amt)
    {
      var total := health + amt;
      health := if total < maxHealth then total else maxHealth;
      if health < 0 {
        health := 0;
      }
      if health == 0 {
        alive := false;
      }
    }

    method ModifySanity(amt: int)
      modifies this
      ensures Record() == SanityChanged(old(Record()), amt)
    {
      sanity := sanity + amt;
      if sanity <= SanityDeath {
        alive := false;
      }
    }

    method GainXp(amount: int)
      modifies this
      ensures Record() == XpGained(old(Record()), amount)
    {
      ghost var before := Record();
      ghost var target := LevelUp(level, xp + amount);
      xp := xp + amount;
      while xp >= 100 * level
        invariant LevelUp(level, xp) == target
        invariant level - before.level == strength - before.strength == agility - before.agility
          == magic - before.magic
        invariant maxHealth == before.maxHealth + 10 * (level - before.level)
        invariant health == before.health && sanity == before.sanity && alive == before.alive
        invariant flags == before.flags && classResource == before.classResource
        decreases if level < 1 then 1 - level else 0, xp
      {
        LevelUpStep(level, xp);
        xp := xp - 100 * level;
        level := level + 1;
        maxHealth := maxHealth + 10;
        strength := strength + 1;
        agility := agility + 1;
        magic := magic + 1;
      }
      LevelUpStops(level, xp);
      assert Record() == Promoted(before, target);
    }
  }
}
