/** What using an item does. An item is used on the player and, in combat,
    on the enemy being fought. */
module Effects {
  import opened Options
  import opened Dice
  import opened Items
  import opened Characters
  import opened Enemies

  /** Health restored by a Dream Elixir. */
  const ElixirHeal := 30
  /** Sanity restored by a Calm Mist. */
  const MistCalm := 25

  /** A Fear Shard's damage, `20 + int(magic * 0.5)`. */
  function ShardDamage(magic: int): (d: int)
    ensures magic >= 0 ==> 0 <= magic - 2 * (d - 20) <= 1
    ensures magic < 0 ==> -1 <= magic - 2 * (d - 20) <= 0
  {
    20 + TruncDiv(magic, 2)
  }

  /** The effect of using `it`, with `e` the enemy when there is one. Only
      the Dream Elixir, the Calm Mist and the Fear Shard have an effect; a
      Fear Shard with no enemy does nothing. */
  function Used(it: Item, p: PlayerRecord, e: Option<EnemyRecord>): (r: (PlayerRecord, Option<EnemyRecord>))
    ensures r.1.Some? <==> e.Some?
    ensures e.Some? ==> r.1.value == e.value.(hp := r.1.value.hp, alive := r.1.value.alive)
    ensures r.0 == p.(health := r.0.health, sanity := r.0.sanity, alive := r.0.alive)
  {
    match it
    case DreamElixir => (HealthChanged(p, ElixirHeal), e)
    case CalmMist => (SanityChanged(p, MistCalm), e)
    case FearShard =>
      (match e
       case None => (p, None)
       case Some(x) => (p, Some(Damaged(x, ShardDamage(p.magic)))))
    case HopeSeed => (p, e)
    case BrokerLedger => (p, e)
  }

  /** What each item does: the Dream Elixir heals 30 health (clamped), the
      Calm Mist restores 25 sanity, the Fear Shard changes only the enemy,
      and only when there is one; the Hope Seed and the Broker Ledger change
      nothing. */
  lemma UsedTouches(it: Item, p: PlayerRecord, e: Option<EnemyRecord>)
    ensures it == DreamElixir ==> Used(it, p, e) == (HealthChanged(p, ElixirHeal), e)
    ensures it == CalmMist ==> Used(it, p, e) == (SanityChanged(p, MistCalm), e)
    ensures it == FearShard ==> Used(it, p, e).0 == p
    ensures it == FearShard && e.Some? ==>
      Used(it, p, e).1 == Some(Damaged(e.value, ShardDamage(p.magic)))
    ensures it != FearShard || e.None? ==> Used(it, p, e).1 == e
    ensures it in {HopeSeed, BrokerLedger} ==> Used(it, p, e) == (p, e)
  {
  }

  /** Items only ever help the player: health and sanity never drop, the
      other fields of the player never change, and a dead player stays dead.
      A living player with a positive maximum health and sanity above the
      death line stays alive. */
  lemma UseOnlyHelps(it: Item, p: PlayerRecord, e: Option<EnemyRecord>)
    requires 0 <= p.health <= p.maxHealth
    ensures var q := Used(it, p, e).0;
      q == p.(health := q.health, sanity := q.sanity, alive := q.alive)
      && q.health >= p.health && q.sanity >= p.sanity
      && (q.alive ==> p.alive)
      && (p.alive && p.maxHealth > 0 && p.sanity > SanityDeath ==> q.alive)
  {
  }

  /** A Fear Shard deals at least 20 damage when the player's magic is not
      negative, so it kills any enemy at 20 hp or less. */
  lemma ShardKillsWeakEnemy(p: PlayerRecord, x: EnemyRecord)
    requires p.magic >= 0 && x.hp <= 20
    ensures Used(FearShard, p, Some(x)).1 == Some(x.(hp := 0, alive := false))
  {
  }

  /** `Item.use`: runs the item's use function on the player and the enemy
      (`null` outside combat); an item without one does nothing. */
  method Use(it: Item, player: Player, enemy: Enemy?)
    modifies player, enemy
    ensures enemy == null ==> player.Record() == Used(it, old(player.Record()), None).0
    ensures enemy != null ==>
      (player.Record(), Some(enemy.Record())) == Used(it, old(player.Record()), Some(old(enemy.Record())))
  {
    match it {
      case DreamElixir => player.ModifyHealth(ElixirHeal);
      case CalmMist => player.ModifySanity(MistCalm);
      case FearShard =>
        if enemy != null {
          var dmg := 20 + TruncDiv(player.magic, 2);
          enemy.TakeDamage(dmg);
        }
      case HopeSeed =>
      case BrokerLedger =>
    }
  }
}
