/** Nightmares: their stat block, damage, their basic attack and their two
    special moves. */
module Enemies {
  import opened Dice
  import opened Characters

  /** The keys of an enemy's `special` dict. */
  datatype SpecialMove = Bellow | Snare

  /** The enemy's state as a value. `special` lists the moves in the dict's
      insertion order, which is the order `random.choice` picks from. */
  datatype EnemyRecord = EnemyRecord(
    name: string, hp: int, maxHp: int,
    strength: int, agility: int, magic: int,
    desc: string, difficulty: int,
    special: seq<SpecialMove>,
    alive: bool)

  /** A fresh enemy: full hp and alive. */
  function NewEnemy(name: string, hp: int, strength: int, agility: int, magic: int,
                    desc: string, difficulty: int, special: seq<SpecialMove>): EnemyRecord {
    EnemyRecord(name, hp, hp, strength, agility, magic, desc, difficulty, special, true)
  }

  /** The encounter and boss tables of the three areas. */
  const PixelWraith := NewEnemy("Pixel Wraith", 30, 6, 8, 4,
    "A jagged ghost of a corrupted sprite.", 1, [Bellow])
  const TokenThief := NewEnemy("Token Thief", 35, 7, 9, 3,
    "A quick-handed dream that steals small comforts.", 1, [])
  const SomberVendor := NewEnemy("Somber Vendor", 40, 5, 6, 8,
    "A vendor whose wares sadden those who linger.", 2, [Snare])
  const SleepPoltergeist := NewEnemy("Sleep-Poltergeist", 45, 9, 5, 6,
    "A heavy-handed nightmare that throws furniture.", 2, [])
  const AtriumWarden := NewEnemy("Atrium Warden", 75, 12, 8, 10,
    "A guardian formed of contracts and lost promises.", 3, [Bellow, Snare])
  const SlumberContract := NewEnemy("The Slumber Contract", 110, 14, 9, 12,
    "A contract made sentient, holding many bargains.", 4, [Bellow])

  /** Every enemy the game creates: the five area encounters and the boss. */
  const Bestiary: seq<EnemyRecord> :=
    [PixelWraith, TokenThief, SomberVendor, SleepPoltergeist, AtriumWarden, SlumberContract]

  /** Every enemy the game creates starts alive at full, positive hp, with
      a difficulty from 1 to 4 and non-negative stats; only the boss has
      difficulty 4. */
  lemma BestiaryStartsFresh()
    ensures forall e :: e in Bestiary ==>
      e.alive && 0 < e.hp == e.maxHp && 1 <= e.difficulty <= 4
      && e.strength >= 0 && e.agility >= 0 && e.magic >= 0
      && (e.difficulty == 4 <==> e == SlumberContract)
  {
  }

  /** `take_damage`: hp drops by `amt` but not below 0. */
  function Damaged(e: EnemyRecord, amt: int): (r: EnemyRecord)
    ensures r == e.(hp := r.hp, alive := r.alive)
    ensures r.hp >= 0
    ensures amt >= 0 && e.hp >= 0 ==> r.hp <= e.hp
    ensures r.hp == e.hp - amt || (r.hp == 0 && e.hp - amt <= 0)
    ensures r.alive <==> e.alive && r.hp != 0
  {
    var h := if e.hp - amt > 0 then e.hp - amt else 0;
    e.(hp := h, alive := if h == 0 then false else e.alive)
  }

  /** Damage adds up: two hits land like one hit of their sum. */
  lemma DamagedTwice(e: EnemyRecord, a: int, b: int)
    requires a >= 0 && b >= 0
    ensures Damaged(Damaged(e, a), b) == Damaged(e, a + b)
  {
  }

  /** A 50 hp enemy hit for 20 is at 30 and standing; another 30 leaves it
      at 0 and dead. */
  lemma FiftyHpTwoHits(e: EnemyRecord)
    requires e.hp == 50 && e.alive
    ensures Damaged(e, 20).hp == 30 && Damaged(e, 20).alive
    ensures Damaged(Damaged(e, 20), 30).hp == 0 && !Damaged(Damaged(e, 20), 30).alive
  {
  }

  /** `nightmare_bellow`: the player loses `10 + magic` sanity. */
  function Bellowed(e: EnemyRecord, p: PlayerRecord): (r: PlayerRecord)
    ensures r == p.(sanity := p.sanity - (10 + e.magic), alive := r.alive)
    ensures r.alive <==> p.alive && p.sanity - (10 + e.magic) > SanityDeath
  {
    SanityChanged(p, -(10 + e.magic))
  }

  /** `dream_snare`: the player's agility drops by 2 but not below 1. */
  function Snared(p: PlayerRecord): (r: PlayerRecord)
    ensures r == p.(agility := r.agility)
    ensures r.agility >= 1
    ensures p.agility >= 3 ==> r.agility == p.agility - 2
    ensures p.agility <= 3 ==> r.agility == 1
  {
    p.(agility := if p.agility - 2 > 1 then p.agility - 2 else 1)
  }

  /** Snaring again and again bottoms out at agility 1. */
  lemma {:induction false} SnaredRepeatedly(p: PlayerRecord, n: nat)
    requires p.agility >= 1
    ensures SnaredTimes(p, n).agility == if p.agility - 2 * n > 1 then p.agility - 2 * n else 1
    ensures SnaredTimes(p, n) == p.(agility := SnaredTimes(p, n).agility)
  {
    if n > 0 {
      SnaredRepeatedly(p, n - 1);
    }
  }

  function SnaredTimes(p: PlayerRecord, n: nat): PlayerRecord {
    if n == 0 then p else Snared(SnaredTimes(p, n - 1))
  }

  /** The effect of the special move `move`. */
  function SpecialEffect(e: EnemyRecord, p: PlayerRecord, move: SpecialMove): PlayerRecord {
    match move
    case Bellow => Bellowed(e, p)
    case Snare => Snared(p)
  }

  /** `attack_player`: the enemy's d20 plus half its agility against the
      player's d20 plus half theirs; a hit takes `dmg` health. */
  function Attacked(e: EnemyRecord, p: PlayerRecord, hit: int, evade: int, dmg: int): (r: PlayerRecord)
    ensures Hits(hit, e.agility, evade, p.agility) ==> r == HealthChanged(p, -dmg)
    ensures !Hits(hit, e.agility, evade, p.agility) ==> r == p
  {
    if Hits(hit, e.agility, evade, p.agility) then HealthChanged(p, -dmg) else p
  }

  /** An enemy attack only ever lowers health, and only on a hit; it never
      touches anything else and never revives. */
  lemma AttackOnlyHurts(e: EnemyRecord, p: PlayerRecord, hit: int, evade: int, dmg: int)
    requires IsDamage(e.strength, dmg) && e.strength >= 0
    requires 0 <= p.health <= p.maxHealth
    ensures var r := Attacked(e, p, hit, evade, dmg);
      r == p.(health := r.health, alive := r.alive) && r.health <= p.health && (r.alive ==> p.alive)
  {
    DamageRange(e.strength, dmg);
  }

  /** The enemy object. Only its hp and its alive flag ever change. */
  class Enemy {
    const name: string
    var hp: int
    const maxHp: int
    const strength: int
    const agility: int
    const magic: int
    const desc: string
    const difficulty: int
    const special: seq<SpecialMove>
    var alive: bool

    function Record(): EnemyRecord
      reads this
    {
      EnemyRecord(name, hp, maxHp, strength, agility, magic, desc, difficulty, special, alive)
    }

    constructor (name: string, hp: int, strength: int, agility: int, magic: int,
                 desc: string, difficulty: int, special: seq<SpecialMove>)
      ensures Record() == NewEnemy(name, hp, strength, agility, magic, desc, difficulty, special)
    {
      this.name := name;
      this.hp := hp;
      maxHp := hp;
      this.strength := strength;
      this.agility := agility;
      this.magic := magic;
      this.desc := desc;
      this.difficulty := difficulty;
      this.special := special;
      alive := true;
    }

    method TakeDamage(amount: int)
      modifies this
      ensures Record() == Damaged(old(Record()), amount)
    {
      hp := if hp - amount > 0 then hp - amount else 0;
      if hp == 0 {
        alive := false;
      }
    }

    method AttackPlayer(player: Player, hit: int, evade: int, dmg: int)
      requires IsRoll(20, hit) && IsRoll(20, evade) && IsDamage(strength, dmg)
      modifies player
      ensures player.Record() == Attacked(Record(), old(player.Record()), hit, evade, dmg)
    {
      if Hits(hit, agility, evade, player.agility) {
        player.ModifyHealth(-dmg);
      }
    }

    /** `special_move`: no move without a `special` dict; otherwise the move
        at index `pick` (the `random.choice`) acts. */
    method SpecialMove(player: Player, pick: nat) returns (acted: bool)
      requires special != [] ==> pick < |special|
      modifies player
      ensures acted <==> special != []
      ensures acted ==> player.Record() == SpecialEffect(Record(), old(player.Record()), special[pick])
      ensures !acted ==> player.Record() == old(player.Record())
    {
      if special == [] {
        return false;
      }
      match special[pick] {
        case Bellow => NightmareBellow(this, player);
        case Snare => DreamSnare(this, player);
      }
      return true;
    }
  }

  method NightmareBellow(enemy: Enemy, player: Player)
    modifies player
    ensures player.Record() == Bellowed(enemy.Record(), old(player.Record()))
  {
    var val := 10 + enemy.magic;
    player.ModifySanity(-val);
  }

  method DreamSnare(enemy: Enemy, player: Player)
    modifies player
    ensures player.Record() == Snared(old(player.Record()))
  {
    var loss := 2;
    player.agility := if player.agility - loss > 1 then player.agility - loss else 1;
  }
}
