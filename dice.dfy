/** The arithmetic of the game's random draws. Every draw is a value handed
    in by the caller: `roll(d)` is a die value in 1..d, and the float factor
    of a damage roll is replaced by the damage value it produces. */
module Dice {

  /** A value `roll(d)` can return. */
  predicate IsRoll(d: int, v: int) {
    1 <= v <= d
  }

  /** Integer division truncated toward zero, as `int(a / b)` computes it
      for a positive divisor (Dafny's own `/` is Euclidean). */
  function TruncDiv(a: int, b: int): (q: int)
    requires b > 0
    ensures a >= 0 ==> 0 <= a - b * q < b
    ensures a < 0 ==> -b < a - b * q <= 0
  {
    if a >= 0 then a / b else -((-a) / b)
  }

  /** `int(x / 2)`, the half stat added to every d20 comparison. */
  function Half(x: int): int {
    TruncDiv(x, 2)
  }

  /** On the non-negative stats of the class and enemy tables, the half stat
      is plain floor division: an odd stat loses its last point. */
  lemma HalfOfStat(x: int)
    requires x >= 0
    ensures Half(x) == x / 2 && Half(x + 1) == (x + 1) / 2
    ensures x % 2 == 0 ==> Half(x + 1) == Half(x)
  {
  }

  /** An attack lands when the attacker's d20 plus half its stat reaches the
      defender's d20 plus half its stat. */
  predicate Hits(atkRoll: int, atkStat: int, defRoll: int, defStat: int) {
    atkRoll + Half(atkStat) >= defRoll + Half(defStat)
  }

  /** Fleeing succeeds only when the player's d20 plus half its agility is
      strictly greater than the enemy's. */
  predicate Escapes(chance: int, agility: int, escape: int, enemyAgility: int) {
    chance + Half(agility) > escape + Half(enemyAgility)
  }

  /** A tie is a hit for whoever attacks, and a failed escape. */
  lemma TiesFavourAttacker(r: int, s: int, r2: int, s2: int)
    requires r + Half(s) == r2 + Half(s2)
    ensures Hits(r, s, r2, s2) && Hits(r2, s2, r, s)
    ensures !Escapes(r, s, r2, s2) && !Escapes(r2, s2, r, s)
  {
  }

  /** The values `int(s * (1 + f * 0.5))` can take for `0 <= f < 1`: from `s`
      up to one and a half times `s`, truncated toward zero. */
  predicate IsDamage(s: int, dmg: int) {
    if s >= 0 then s <= dmg <= TruncDiv(3 * s, 2)
    else TruncDiv(3 * s, 2) <= dmg <= s
  }

  /** A damage roll on a non-negative stat never heals, and always
      exists. */
  lemma DamageRange(s: int, dmg: int)
    requires IsDamage(s, dmg)
    ensures s >= 0 ==> dmg >= 0
    ensures IsDamage(s, s)
  {
  }

  /** The Lucid Magician's critical strike, `int(base * 1.8)`, in integers. */
  function Critical(base: int): (c: int)
    ensures base >= 0 ==> base <= c <= 2 * base
    ensures base >= 0 ==> 5 * c <= 9 * base < 5 * c + 5
  {
    TruncDiv(9 * base, 5)
  }

  /** How many faces `v` of a `d`-sided die satisfy `v < n`. */
  function RollsBelow(n: int, d: int): nat
    decreases d
  {
    if d <= 0 then 0 else RollsBelow(n, d - 1) + (if d < n then 1 else 0)
  }

  /** `roll(d) < n` holds on exactly `n - 1` faces, clamped to the die: the
      strict comparison loses one face. */
  lemma {:induction false} RollsBelowCount(n: int, d: int)
    requires d >= 0
    ensures RollsBelow(n, d) == if n - 1 <= 0 then 0 else if n - 1 >= d then d else n - 1
    decreases d
  {
    if d > 0 {
      RollsBelowCount(n, d - 1);
    }
  }

  /** The odds behind the three `roll(100) < n` tests: a drop on 30 faces per
      difficulty level minus one (all 100 from difficulty 4 on), an enemy
      special on 29 faces, a critical on 19. */
  lemma PercentOdds(difficulty: int)
    requires 1 <= difficulty
    ensures RollsBelow(30 * difficulty, 100) == if difficulty >= 4 then 100 else 30 * difficulty - 1
    ensures RollsBelow(30, 100) == 29
    ensures RollsBelow(20, 100) == 19
  {
    RollsBelowCount(30 * difficulty, 100);
    RollsBelowCount(30, 100);
    RollsBelowCount(20, 100);
  }
}
