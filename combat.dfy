/** One encounter between the player and an enemy: command parsing, the
    player's actions, the enemy's turn, the round loop and the reward. The
    pure functions here state what each step does to the two fighters; the
    `Combat` class performs the steps on the objects and is proved to follow
    them. */
module CombatEngine {
  import opened Options
  import opened Text
  import opened Dice
  import opened Items
  import opened Characters
  import opened Enemies
  import opened Effects

  /** The player flag holding the agility to restore after a defend. */
  const DefendKey := "defend_tmp"
  /** The rewrite that makes the enemy's next attack fail. */
  const MissKey := "enemy_miss_next"
  /** The key the Lucid Magician's guard tests; nothing ever stores it. */
  const RewrittenKey := "rewritten"
  /** The Night Surgeon's once-per-life extraction marker. */
  const ExtractedKey := "extracted"
  /** Sanity paid for the Insomniac's onslaught. */
  const InsomniacCost := 20

  // ----- commands -----

  datatype Command =
    | Blank             // nothing but whitespace: `tokens[0]` raises
    | Attack
    | Defend
    | UseNothing        // `use` with no item name
    | UseNamed(name: string)
    | ShowInventory
    | Special
    | ShowStats
    | Flee              // `run`
    | Unknown(word: string)

  /** `player_turn`'s reading of the tokens of a line: the first token,
      lower-cased, picks the command; `use` takes the remaining tokens
      joined by single spaces as the item name. */
  function ParseWords(tokens: seq<string>): (c: Command)
    ensures c == Blank <==> tokens == []
    ensures c.UseNamed? ==>
      (|tokens| >= 2 && Lower(tokens[0]) == "use" && c.name == JoinWords(tokens[1..]))
  {
    if tokens == [] then Blank
    else
      var cmd := Lower(tokens[0]);
      if cmd == "attack" then Attack
      else if cmd == "defend" then Defend
      else if cmd == "use" then (if |tokens| == 1 then UseNothing else UseNamed(JoinWords(tokens[1..])))
      else if cmd == "inventory" then ShowInventory
      else if cmd == "special" then Special
      else if cmd == "stats" then ShowStats
      else if cmd == "run" then Flee
      else Unknown(cmd)
  }

  /** The command typed on `line`, split with `str.split()`. */
  function ParseCommand(line: string): Command {
    ParseWords(Words(line))
  }

  /** A line crashes the turn exactly when it is empty or all whitespace. */
  lemma ParseBlankIff(line: string)
    ensures ParseCommand(line) == Blank <==> forall i :: 0 <= i < |line| ==> IsSpace(line[i])
  {
    WordsEmptyIff(line);
  }

  lemma LowerUse()
    ensures Lower("use") == "use"
  {
    var l := Lower("use");
    assert l[0] == 'u' && l[1] == 's' && l[2] == 'e';
  }

  /** A line made by joining words parses as those words. */
  lemma ParseJoined(ws: seq<string>)
    requires forall k :: 0 <= k < |ws| ==> IsWord(ws[k])
    ensures ParseCommand(JoinWords(ws)) == ParseWords(ws)
  {
    WordsOfJoin(ws);
  }

  lemma ConsWords(w: string, ws: seq<string>)
    requires IsWord(w)
    requires forall k :: 0 <= k < |ws| ==> IsWord(ws[k])
    ensures forall k :: 0 <= k < |[w] + ws| ==> IsWord(([w] + ws)[k])
  {
    forall k | 0 <= k < |[w] + ws| ensures IsWord(([w] + ws)[k]) {
      if k > 0 { assert ([w] + ws)[k] == ws[k - 1]; }
    }
  }

  lemma ParseWordsUse(ws: seq<string>)
    requires ws != []
    ensures ParseWords(["use"] + ws) == UseNamed(JoinWords(ws))
  {
    LowerUse();
    assert (["use"] + ws)[0] == "use";
    assert (["use"] + ws)[1..] == ws;
  }

  /** A line joined from `use` and the words of an item name hands that
      name back to the inventory. */
  lemma ParseUse(ws: seq<string>)
    requires ws != []
    requires forall k :: 0 <= k < |ws| ==> IsWord(ws[k])
    ensures ParseCommand(JoinWords(["use"] + ws)) == UseNamed(JoinWords(ws))
  {
    UseLineWords(ws);
    ParseJoined(["use"] + ws);
    ParseWordsUse(ws);
  }

  /** Whatever whitespace separates them, a line whose tokens are `use`
      and the words of a name hands the inventory those words joined by
      single spaces. */
  lemma ParseUseAnySpacing(line: string, ws: seq<string>)
    requires ws != [] && Words(line) == ["use"] + ws
    ensures ParseCommand(line) == UseNamed(JoinWords(ws))
  {
    ParseWordsUse(ws);
  }

  lemma UseLineWords(ws: seq<string>)
    requires forall k :: 0 <= k < |ws| ==> IsWord(ws[k])
    ensures forall k :: 0 <= k < |["use"] + ws| ==> IsWord((["use"] + ws)[k])
  {
    assert IsWord("use");
    ConsWords("use", ws);
  }

  lemma LowerKeepsWord(w: string)
    requires IsWord(w)
    ensures IsWord(Lower(w))
  {
    forall i | 0 <= i < |w| ensures !IsSpace(Lower(w)[i]) {
      assert !IsSpace(w[i]);
    }
  }

  lemma ParseWordsVerbCase(w: string, ws: seq<string>)
    ensures ParseWords([Lower(w)] + ws) == ParseWords([w] + ws)
  {
    LowerIdempotent(w);
    assert ([Lower(w)] + ws)[0] == Lower(w) && ([w] + ws)[0] == w;
    assert ([Lower(w)] + ws)[1..] == ws == ([w] + ws)[1..];
  }

  lemma LowerHeadWords(ws: seq<string>)
    requires ws != []
    requires forall k :: 0 <= k < |ws| ==> IsWord(ws[k])
    ensures forall k :: 0 <= k < |[Lower(ws[0])] + ws[1..]| ==> IsWord(([Lower(ws[0])] + ws[1..])[k])
  {
    var lw := [Lower(ws[0])] + ws[1..];
    forall k | 0 <= k < |lw| ensures IsWord(lw[k]) {
      if k == 0 {
        LowerKeepsWord(ws[0]);
      } else {
        assert lw[k] == ws[k];
      }
    }
  }

  lemma ParseWordsLowerHead(ws: seq<string>)
    requires ws != []
    ensures ParseWords([Lower(ws[0])] + ws[1..]) == ParseWords(ws)
  {
    ParseWordsVerbCase(ws[0], ws[1..]);
    assert [ws[0]] + ws[1..] == ws;
  }

  /** The command word is read without regard to letter case: lower-casing
      it changes nothing, while a `use` name keeps its case. */
  lemma ParseIgnoresVerbCase(ws: seq<string>)
    requires ws != []
    requires forall k :: 0 <= k < |ws| ==> IsWord(ws[k])
    ensures ParseCommand(JoinWords([Lower(ws[0])] + ws[1..])) == ParseCommand(JoinWords(ws))
  {
    LowerHeadWords(ws);
    ParseJoined([Lower(ws[0])] + ws[1..]);
    ParseJoined(ws);
    ParseWordsLowerHead(ws);
  }

  // ----- the random draws of one round -----

  /** The player's draws: `roll` is their d20 (attack, run, special),
      `counter` the enemy's d20 against it, `dmg` the damage of a hit and
      `crit` the d100 of the Lucid critical. */
  datatype PlayerDice = PlayerDice(roll: int, counter: int, dmg: int, crit: int)

  predicate ValidPlayerDice(d: PlayerDice, strength: int) {
    IsRoll(20, d.roll) && IsRoll(20, d.counter) && IsDamage(strength, d.dmg) && IsRoll(100, d.crit)
  }

  /** The enemy's draws: `chance` is the d100 for a special move, `pick` the
      index of the move `random.choice` takes, `hit` and `evade` the two
      d20s of its attack and `dmg` the damage of a hit. */
  datatype EnemyDice = EnemyDice(chance: int, pick: nat, hit: int, evade: int, dmg: int)

  predicate ValidEnemyDice(d: EnemyDice, strength: int, special: seq<SpecialMove>) {
    IsRoll(100, d.chance) && (special != [] ==> d.pick < |special|)
    && IsRoll(20, d.hit) && IsRoll(20, d.evade) && IsDamage(strength, d.dmg)
  }

  /** One round of input: the line typed and the round's draws. */
  datatype Step = Step(line: string, pd: PlayerDice, ed: EnemyDice)

  predicate ValidScript(script: seq<Step>, strength: int, enemyStrength: int, special: seq<SpecialMove>) {
    forall k :: 0 <= k < |script| ==>
      ValidPlayerDice(script[k].pd, strength) && ValidEnemyDice(script[k].ed, enemyStrength, special)
  }

  /** The draws after a victory: the xp bonus `randint(0, 20)`, the d100 of
      the drop and the index of the dropped item. */
  datatype RewardDice = RewardDice(bonus: int, drop: int, pick: nat)

  predicate ValidRewardDice(d: RewardDice) {
    0 <= d.bonus <= 20 && IsRoll(100, d.drop) && d.pick < 2
  }

  // ----- the state of a fight -----

  /** Both fighters, the Lucid Magician's rewrites and the turn counter. */
  datatype Arena = Arena(p: PlayerRecord, e: EnemyRecord, rewrite: set<string>, turns: int)

  /** What no action of either side changes: the player's identity, level,
      xp, maximum health, strength and magic, and everything of the enemy
      but its hp and alive flag. */
  predicate Fixed(a: Arena, b: Arena) {
    b.p.name == a.p.name && b.p.cls == a.p.cls && b.p.className == a.p.className
    && b.p.maxHealth == a.p.maxHealth && b.p.strength == a.p.strength
    && b.p.magic == a.p.magic && b.p.level == a.p.level && b.p.xp == a.p.xp
    && b.e == a.e.(hp := b.e.hp, alive := b.e.alive)
  }

  predicate IsLucid(className: string) {
    StartsWith(Lower(className), "lucid")
  }

  /** `player_attack`: the player's d20 plus half their strength against
      the enemy's d20 plus half its agility; a hit deals `dmg`, raised to the
      critical for a Lucid class name when the d100 is under 20. */
  function Attacking(a: Arena, d: PlayerDice): (r: Arena)
    ensures r == a.(e := r.e) && Fixed(a, r)
    ensures !Hits(d.roll, a.p.strength, d.counter, a.e.agility) ==> r == a
  {
    if Hits(d.roll, a.p.strength, d.counter, a.e.agility) then
      var base := if IsLucid(a.p.className) && d.crit < 20 then Critical(d.dmg) else d.dmg;
      a.(e := Damaged(a.e, base))
    else a
  }

  /** A landed hit with a damage draw for a non-negative strength takes
      between `dmg` and `2 * dmg` hp, stopping at 0; it never heals. It is
      exactly `dmg` unless a Lucid class name rolls under 20 on the d100,
      and then exactly the critical `int(dmg * 1.8)`. */
  lemma AttackDamage(a: Arena, d: PlayerDice)
    requires ValidPlayerDice(d, a.p.strength) && a.p.strength >= 0 && a.e.hp >= 0
    requires Hits(d.roll, a.p.strength, d.counter, a.e.agility)
    ensures var hp := Attacking(a, d).e.hp;
      hp <= a.e.hp && (hp == 0 || d.dmg <= a.e.hp - hp <= 2 * d.dmg)
    ensures !IsLucid(a.p.className) ==> Attacking(a, d).e == Damaged(a.e, d.dmg)
    ensures IsLucid(a.p.className) && d.crit >= 20 ==> Attacking(a, d).e == Damaged(a.e, d.dmg)
    ensures IsLucid(a.p.className) && d.crit < 20 ==> Attacking(a, d).e == Damaged(a.e, Critical(d.dmg))
  {
    DamageRange(a.p.strength, d.dmg);
  }

  /** `player_defend`: agility up by 4, the old value kept in `defend_tmp`. */
  function Defending(a: Arena): (r: Arena)
    ensures r.p.agility == a.p.agility + 4
    ensures DefendKey in r.p.flags && r.p.flags[DefendKey] == a.p.agility
    ensures r == a.(p := a.p.(agility := r.p.agility, flags := r.p.flags))
  {
    a.(p := a.p.(agility := a.p.agility + 4, flags := a.p.flags[DefendKey := a.p.agility]))
  }

  /** The `use` command: the first case-insensitive match leaves the list
      and takes effect, even the ones whose effect is nothing; without a
      match nothing happens. */
  function UsingItem(a: Arena, name: string): (r: Arena)
    ensures FirstMatch(a.p.items, name).None? ==> r == a
    ensures FirstMatch(a.p.items, name).Some? ==>
      r.p.items == RemoveAt(a.p.items, FirstMatch(a.p.items, name).value)
    ensures FirstMatch(a.p.items, name).Some? ==>
      var i := FirstMatch(a.p.items, name).value;
      var u := Used(a.p.items[i], a.p.(items := RemoveAt(a.p.items, i)), Some(a.e));
      r == a.(p := u.0, e := u.1.value)
    ensures Fixed(a, r) && r.rewrite == a.rewrite && r.turns == a.turns
    ensures r.p.flags == a.p.flags && r.p.agility == a.p.agility
    ensures r.p.classResource == a.p.classResource
  {
    match FirstMatch(a.p.items, name)
    case None => a
    case Some(i) =>
      var used := Used(a.p.items[i], a.p.(items := RemoveAt(a.p.items, i)), Some(a.e));
      a.(p := used.0, e := used.1.value)
  }

  /** `player_special`, dispatched on the class key. */
  function Specialising(a: Arena, d: PlayerDice): (r: Arena)
    ensures Fixed(a, r) && r.turns == a.turns
    ensures r.p.flags == a.p.flags && r.p.agility == a.p.agility && r.p.health == a.p.health
    ensures r.rewrite == a.rewrite || r.rewrite == a.rewrite + {MissKey}
    ensures a.p.classResource <= r.p.classResource
  {
    if a.p.cls == "night_surgeon" then
      if ExtractedKey in a.p.classResource then a
      else if d.roll + a.p.magic >= 15 then
        a.(p := a.p.(items := a.p.items + [FearShard],
                     classResource := a.p.classResource + {ExtractedKey}))
      else a
    else if a.p.cls == "lucid_magician" then
      if RewrittenKey in a.rewrite then a
      else if d.roll + a.p.magic >= 15 then a.(rewrite := a.rewrite + {MissKey})
      else a
    else if a.p.cls == "insomniac" then
      if a.p.sanity - InsomniacCost <= SanityDeath then a
      else
        var q := SanityChanged(a.p, -InsomniacCost);
        a.(p := q, e := Damaged(a.e, TruncDiv(5 * q.strength, 2)))
    else
      if a.p.magic >= 10 && d.roll + a.p.magic >= 12 then
        a.(e := Damaged(a.e, TruncDiv(3 * a.p.magic, 2)))
      else a
  }

  /** The Night Surgeon extracts a Fear Shard at most once: once `extracted`
      is set the special changes nothing, and before that a roll plus magic
      of 15 or more adds exactly one Fear Shard and sets it. */
  lemma SurgeonSpecial(a: Arena, d: PlayerDice)
    requires a.p.cls == "night_surgeon"
    ensures ExtractedKey in a.p.classResource ==> Specialising(a, d) == a
    ensures ExtractedKey !in a.p.classResource && d.roll + a.p.magic >= 15 ==>
      Specialising(a, d) == a.(p := a.p.(items := a.p.items + [FearShard],
                                         classResource := a.p.classResource + {ExtractedKey}))
    ensures ExtractedKey !in a.p.classResource && d.roll + a.p.magic < 15 ==> Specialising(a, d) == a
  {
  }

  /** Every other class casts the dream-spark: with magic of 10 or more and
      a roll plus magic of 12 or more it deals `int(magic * 1.5)`, and
      otherwise nothing happens. */
  lemma GenericSpecial(a: Arena, d: PlayerDice)
    requires a.p.cls !in {"night_surgeon", "lucid_magician", "insomniac"}
    ensures a.p.magic >= 10 && d.roll + a.p.magic >= 12 ==>
      Specialising(a, d) == a.(e := Damaged(a.e, TruncDiv(3 * a.p.magic, 2)))
    ensures !(a.p.magic >= 10 && d.roll + a.p.magic >= 12) ==> Specialising(a, d) == a
  {
  }

  /** The Lucid Magician's guard tests a key nothing stores, so without it
      the rewrite can be cast every turn: a roll plus magic of 15 or more
      arms the miss, and the enemy and player are left alone. */
  lemma LucidSpecial(a: Arena, d: PlayerDice)
    requires a.p.cls == "lucid_magician" && RewrittenKey !in a.rewrite
    ensures d.roll + a.p.magic >= 15 ==> Specialising(a, d) == a.(rewrite := a.rewrite + {MissKey})
    ensures d.roll + a.p.magic < 15 ==> Specialising(a, d) == a
  {
  }

  /** The Insomniac's onslaught is refused when it would take sanity to -50
      or lower; otherwise it costs exactly 20 sanity, deals `5 * strength / 2`
      and, because of that guard, never kills the player. */
  lemma InsomniacSpecial(a: Arena, d: PlayerDice)
    requires a.p.cls == "insomniac"
    ensures a.p.sanity - InsomniacCost <= SanityDeath ==> Specialising(a, d) == a
    ensures a.p.sanity - InsomniacCost > SanityDeath ==>
      Specialising(a, d) == a.(p := a.p.(sanity := a.p.sanity - InsomniacCost),
                               e := Damaged(a.e, TruncDiv(5 * a.p.strength, 2)))
  {
  }

  /** What `player_turn` reports: carry on, escaped, or the crash of an
      empty command. */
  datatype TurnResult = Continue | Escape | Crash

  /** `player_turn` on a parsed command. */
  function PlayerActs(a: Arena, c: Command, d: PlayerDice): (r: (TurnResult, Arena))
    ensures Fixed(a, r.1) && r.1.turns == a.turns
    ensures r.0 == Crash <==> c == Blank
    ensures r.0 == Escape ==> c == Flee && r.1 == a
    ensures c != Defend ==> r.1.p.flags == a.p.flags
    ensures RewrittenKey !in a.rewrite ==> RewrittenKey !in r.1.rewrite
    ensures a.p.classResource <= r.1.p.classResource
  {
    match c
    case Blank => (Crash, a)
    case Attack => (Continue, Attacking(a, d))
    case Defend => (Continue, Defending(a))
    case UseNothing => (Continue, a)
    case UseNamed(name) => (Continue, UsingItem(a, name))
    case ShowInventory => (Continue, a)
    case Special => (Continue, Specialising(a, d))
    case ShowStats => (Continue, a)
    case Flee =>
      if Escapes(d.roll, a.p.agility, d.counter, a.e.agility) then (Escape, a) else (Continue, a)
    case Unknown(_) => (Continue, a)
  }

  /** A command that does nothing to either fighter: listing, stats, an
      unknown word, `use` with no name or no matching item, a failed run. */
  predicate Passive(a: Arena, c: Command, d: PlayerDice) {
    c.ShowInventory? || c.ShowStats? || c.Unknown? || c.UseNothing?
    || (c.UseNamed? && FirstMatch(a.p.items, c.name).None?)
    || (c.Flee? && !Escapes(d.roll, a.p.agility, d.counter, a.e.agility))
  }

  lemma PassiveChangesNothing(a: Arena, c: Command, d: PlayerDice)
    requires Passive(a, c, d)
    ensures PlayerActs(a, c, d) == (Continue, a)
  {
  }

  /** The revert at the top of the round loop: `defend_tmp` is popped back
      into agility. */
  function Reverted(a: Arena): (r: Arena)
    ensures DefendKey !in r.p.flags
    ensures r == a.(p := r.p) && Fixed(a, r)
    ensures DefendKey !in a.p.flags ==> r == a
  {
    if DefendKey in a.p.flags then
      a.(p := a.p.(agility := a.p.flags[DefendKey], flags := a.p.flags - {DefendKey}))
    else a
  }

  /** Defending and reverting gives the player back the agility they had. */
  lemma DefendThenRevert(a: Arena)
    ensures Reverted(Defending(a)) == a.(p := a.p.(flags := a.p.flags - {DefendKey}))
    ensures DefendKey !in a.p.flags ==> Reverted(Defending(a)) == a
  {
    if DefendKey !in a.p.flags {
      assert a.p.flags - {DefendKey} == a.p.flags;
    }
  }

  /** `enemy_turn`. A dead enemy does nothing; a pending miss is used up
      instead of acting; otherwise the d100 under 30 gives a special move
      to an enemy that has one, and anything else is a plain attack. */
  function EnemyActs(a: Arena, d: EnemyDice): (r: Arena)
    requires a.e.special != [] ==> d.pick < |a.e.special|
    ensures r.e == a.e && r.turns == a.turns
    ensures Fixed(a, r) && r.p.items == a.p.items && r.p.flags == a.p.flags
    ensures r.p.classResource == a.p.classResource
    ensures r.rewrite == a.rewrite || r.rewrite == a.rewrite - {MissKey}
    ensures !a.p.alive ==> !r.p.alive
  {
    if !a.e.alive then a
    else if MissKey in a.rewrite then a.(rewrite := a.rewrite - {MissKey})
    else if a.e.special != [] && d.chance < 30 then
      a.(p := SpecialEffect(a.e, a.p, a.e.special[d.pick]))
    else a.(p := Attacked(a.e, a.p, d.hit, d.evade, d.dmg))
  }

  /** A pending miss is consumed by the enemy's turn, which then leaves the
      player untouched. */
  lemma MissConsumed(a: Arena, d: EnemyDice)
    requires a.e.alive && MissKey in a.rewrite
    requires a.e.special != [] ==> d.pick < |a.e.special|
    ensures EnemyActs(a, d) == a.(rewrite := a.rewrite - {MissKey})
  {
  }

  /** A defend never reaches the enemy: the enemy's turn after a defend and
      its revert is the enemy's turn on the undefended player. */
  lemma DefendNeverReachesEnemy(a: Arena, d: PlayerDice, ed: EnemyDice)
    requires DefendKey !in a.p.flags
    requires a.e.special != [] ==> ed.pick < |a.e.special|
    ensures EnemyActs(Reverted(PlayerActs(a, Defend, d).1), ed) == EnemyActs(a, ed)
  {
    DefendThenRevert(a);
  }

  // ----- the round loop -----

  /** How `run` ends. `Crashed` is the exception raised by an empty command;
      `InputExhausted` means the input ran out with both fighters up. */
  datatype Outcome = PlayerDead | EnemyDead | Escaped | Crashed | InputExhausted

  /** The verdict after the loop: the player's death is checked first. */
  function Ended(a: Arena): Outcome {
    if !a.p.alive then PlayerDead else EnemyDead
  }

  /** How one pass of the loop body ends: the loop goes on from `next`, or
      it is over with `outcome` in the state `last`. */
  datatype RoundEnd = Next(next: Arena) | Over(outcome: Outcome, last: Arena)

  /** One pass of the body of `run`'s loop: the player acts; a successful
      run leaves at once; the defend buff is reverted; a dead enemy ends the
      loop; otherwise the enemy acts, a dead player ends the loop, and the
      turn counter goes up. */
  function Round(a: Arena, s: Step): (r: RoundEnd)
    requires a.p.alive && a.e.alive
    requires a.e.special != [] ==> s.ed.pick < |a.e.special|
    ensures r.Next? ==> (Fixed(a, r.next) && r.next.turns == a.turns + 1
      && r.next.p.alive && r.next.e.alive && DefendKey !in r.next.p.flags)
    ensures r.Over? ==> Fixed(a, r.last) && r.last.turns == a.turns
    ensures r.Over? && r.outcome in {Escaped, Crashed} ==>
      (r.last.p.alive && r.last.e.alive && r.last.p.flags == a.p.flags)
    ensures r.Over? && r.outcome !in {Escaped, Crashed} ==>
      ((!r.last.p.alive || !r.last.e.alive) && r.outcome == Ended(r.last)
      && DefendKey !in r.last.p.flags)
    ensures r.Over? ==> r.outcome != InputExhausted
  {
    var (res, a1) := PlayerActs(a, ParseCommand(s.line), s.pd);
    if res == Escape then Over(Escaped, a1)
    else if res == Crash then Over(Crashed, a1)
    else
      var a2 := Reverted(a1);
      if !a2.e.alive then Over(Ended(a2), a2)
      else
        var a3 := EnemyActs(a2, s.ed);
        if !a3.p.alive then Over(Ended(a3), a3)
        else Next(a3.(turns := a3.turns + 1))
  }

  lemma ValidScriptTail(script: seq<Step>, strength: int, enemyStrength: int, special: seq<SpecialMove>)
    requires script != [] && ValidScript(script, strength, enemyStrength, special)
    ensures ValidScript(script[1..], strength, enemyStrength, special)
  {
    forall k | 0 <= k < |script[1..]|
      ensures script[1..][k] == script[k + 1]
    {
    }
  }

  /** The `while player.alive and enemy.alive` loop of `run`, one step of
      input per round. */
  function Play(a: Arena, script: seq<Step>): (r: (Outcome, Arena))
    requires ValidScript(script, a.p.strength, a.e.strength, a.e.special)
    ensures Fixed(a, r.1) && a.turns <= r.1.turns <= a.turns + |script|
    ensures r.0 == PlayerDead <==> !r.1.p.alive
    ensures r.0 == EnemyDead <==> r.1.p.alive && !r.1.e.alive
    ensures r.0 in {Escaped, Crashed, InputExhausted} ==> r.1.p.alive && r.1.e.alive
    ensures r.0 == InputExhausted ==> r.1.turns == a.turns + |script|
    ensures (!a.p.alive || !a.e.alive) ==> r == (Ended(a), a)
    decreases |script|
  {
    if !a.p.alive || !a.e.alive then (Ended(a), a)
    else if script == [] then (InputExhausted, a)
    else
      match Round(a, script[0])
      case Over(o, b) => (o, b)
      case Next(b) =>
        ValidScriptTail(script, a.p.strength, a.e.strength, a.e.special);
        Play(b, script[1..])
  }

  /** The defend buff never outlives the round it was cast in. */
  lemma {:induction false} PlayClearsDefend(a: Arena, script: seq<Step>)
    requires ValidScript(script, a.p.strength, a.e.strength, a.e.special)
    requires DefendKey !in a.p.flags
    ensures DefendKey !in Play(a, script).1.p.flags
    decreases |script|
  {
    if a.p.alive && a.e.alive && script != [] {
      var r := Round(a, script[0]);
      if r.Next? {
        ValidScriptTail(script, a.p.strength, a.e.strength, a.e.special);
        PlayClearsDefend(r.next, script[1..]);
      }
    }
  }

  /** Within a round, `rewritten` is never stored. */
  lemma RoundNeverRewrites(a: Arena, s: Step)
    requires a.p.alive && a.e.alive
    requires a.e.special != [] ==> s.ed.pick < |a.e.special|
    requires RewrittenKey !in a.rewrite
    ensures var r := Round(a, s);
      RewrittenKey !in (if r.Next? then r.next else r.last).rewrite
  {
  }

  /** Nothing ever stores `rewritten`, so the Lucid Magician's guard never
      fires during a fight that starts without it. */
  lemma {:induction false} RewrittenNeverSet(a: Arena, script: seq<Step>)
    requires ValidScript(script, a.p.strength, a.e.strength, a.e.special)
    requires RewrittenKey !in a.rewrite
    ensures RewrittenKey !in Play(a, script).1.rewrite
    decreases |script|
  {
    if a.p.alive && a.e.alive && script != [] {
      RoundNeverRewrites(a, script[0]);
      var r := Round(a, script[0]);
      if r.Next? {
        ValidScriptTail(script, a.p.strength, a.e.strength, a.e.special);
        RewrittenNeverSet(r.next, script[1..]);
      }
    }
  }

  /** Within a round, class resources are only ever added. */
  lemma RoundKeepsResources(a: Arena, s: Step)
    requires a.p.alive && a.e.alive
    requires a.e.special != [] ==> s.ed.pick < |a.e.special|
    ensures var r := Round(a, s);
      a.p.classResource <= (if r.Next? then r.next else r.last).p.classResource
  {
  }

  /** `extracted` is never cleared: class resources only ever grow. */
  lemma {:induction false} ClassResourcesPersist(a: Arena, script: seq<Step>)
    requires ValidScript(script, a.p.strength, a.e.strength, a.e.special)
    ensures a.p.classResource <= Play(a, script).1.p.classResource
    decreases |script|
  {
    if a.p.alive && a.e.alive && script != [] {
      RoundKeepsResources(a, script[0]);
      var r := Round(a, script[0]);
      if r.Next? {
        ValidScriptTail(script, a.p.strength, a.e.strength, a.e.special);
        ClassResourcesPersist(r.next, script[1..]);
      }
    }
  }

  /** Every action but a successful run costs a turn: a command that does
      nothing still hands the round to the enemy, and the fight goes on
      from the enemy's move. */
  lemma PassiveCostsTurn(a: Arena, s: Step, rest: seq<Step>)
    requires a.p.alive && a.e.alive && DefendKey !in a.p.flags
    requires ValidScript([s] + rest, a.p.strength, a.e.strength, a.e.special)
    requires Passive(a, ParseCommand(s.line), s.pd)
    ensures a.e.special != [] ==> s.ed.pick < |a.e.special|
    ensures var a3 := EnemyActs(a, s.ed);
      Play(a, [s] + rest) ==
        if !a3.p.alive then (PlayerDead, a3) else Play(a3.(turns := a.turns + 1), rest)
  {
    assert ([s] + rest)[0] == s;
    assert ([s] + rest)[1..] == rest;
    PassiveChangesNothing(a, ParseCommand(s.line), s.pd);
  }

  /** An action that leaves the enemy dead (a killing attack, a Fear Shard,
      a damaging special) ends the fight at once: the defend buff is
      reverted and the enemy never gets its turn. */
  lemma KillSkipsEnemyTurn(a: Arena, s: Step, rest: seq<Step>)
    requires a.p.alive && a.e.alive
    requires ValidScript([s] + rest, a.p.strength, a.e.strength, a.e.special)
    requires PlayerActs(a, ParseCommand(s.line), s.pd).0 == Continue
    requires !PlayerActs(a, ParseCommand(s.line), s.pd).1.e.alive
    ensures var a2 := Reverted(PlayerActs(a, ParseCommand(s.line), s.pd).1);
      Play(a, [s] + rest) == (Ended(a2), a2)
  {
    assert ([s] + rest)[0] == s;
  }

  // ----- the reward -----

  /** The two items a victory can drop. */
  const DropTable: seq<Item> := [FearShard, HopeSeed]

  /** The xp of a victory: 20 per difficulty level plus the bonus draw. */
  function XpReward(difficulty: int, bonus: int): (xp: int)
    requires 0 <= bonus <= 20
    ensures 20 * difficulty <= xp <= 20 * difficulty + 20
  {
    20 * difficulty + bonus
  }

  /** The victory: xp of `20 * difficulty + bonus`, then a drop when the d100
      is under `30 * difficulty`. */
  function Rewarded(a: Arena, d: RewardDice): (r: Arena)
    requires ValidRewardDice(d)
    ensures r == a.(p := r.p)
    ensures d.drop < 30 * a.e.difficulty ==>
      r.p == XpGained(a.p, XpReward(a.e.difficulty, d.bonus)).(items := a.p.items + [DropTable[d.pick]])
    ensures d.drop >= 30 * a.e.difficulty ==> r.p == XpGained(a.p, XpReward(a.e.difficulty, d.bonus))
  {
    var q := XpGained(a.p, XpReward(a.e.difficulty, d.bonus));
    if d.drop < 30 * a.e.difficulty then a.(p := q.(items := q.items + [DropTable[d.pick]]))
    else a.(p := q)
  }

  /** A victory never lowers the level, leaves the xp inside the new
      level's threshold, and adds at most one item. */
  lemma RewardFacts(a: Arena, d: RewardDice)
    requires ValidRewardDice(d) && a.p.xp >= 0 && a.e.difficulty >= 0
    ensures var q := Rewarded(a, d).p;
      q.level >= a.p.level && 0 <= q.xp < 100 * q.level
      && |a.p.items| <= |q.items| <= |a.p.items| + 1
      && q.alive == a.p.alive && q.health == a.p.health
  {
    XpGainedFacts(a.p, XpReward(a.e.difficulty, d.bonus));
  }

  /** Beating the boss, at difficulty 4, always yields a drop: every d100 is
      under 120. */
  lemma BossAlwaysDrops(a: Arena, d: RewardDice)
    requires ValidRewardDice(d) && a.e.difficulty == SlumberContract.difficulty
    ensures Rewarded(a, d).p.items == a.p.items + [DropTable[d.pick]]
  {
  }

  /** The whole of `run`: the loop, then the reward when the enemy fell. */
  function Fight(a: Arena, script: seq<Step>, d: RewardDice): (r: (Outcome, Arena))
    requires ValidScript(script, a.p.strength, a.e.strength, a.e.special)
    requires ValidRewardDice(d)
    ensures r.0 == Play(a, script).0
    ensures r.0 != EnemyDead ==> r.1 == Play(a, script).1
    ensures r.0 == EnemyDead ==> r.1 == Rewarded(Play(a, script).1, d)
  {
    var (o, b) := Play(a, script);
    if o == EnemyDead then (o, Rewarded(b, d)) else (o, b)
  }

  // ----- the encounter object -----

  class Combat {
    const player: Player
    const enemy: Enemy
    var turnCount: int
    /** Keys of `rewrite_effects`; the source only ever stores `True`. */
    var rewriteEffects: set<string>

    function State(): Arena
      reads this, player, player.inventory, enemy
    {
      Arena(player.Record(), enemy.Record(), rewriteEffects, turnCount)
    }

    constructor (player: Player, enemy: Enemy)
      ensures this.player == player && this.enemy == enemy
      ensures State() == Arena(player.Record(), enemy.Record(), {}, 0)
    {
      this.player := player;
      this.enemy := enemy;
      turnCount := 0;
      rewriteEffects := {};
    }

    method PlayerAttack(d: PlayerDice)
      requires ValidPlayerDice(d, player.strength)
      modifies enemy
      ensures State() == Attacking(old(State()), d)
    {
      if Hits(d.roll, player.strength, d.counter, enemy.agility) {
        var base := d.dmg;
        if IsLucid(player.className) && d.crit < 20 {
          base := Critical(base);
        }
        enemy.TakeDamage(base);
      }
    }

    method PlayerDefend()
      modifies player
      ensures State() == Defending(old(State()))
    {
      var old_agility := player.agility;
      player.agility := player.agility + 4;
      player.flags := player.flags[DefendKey := old_agility];
    }

    /** The `use` branch of `player_turn`. */
    method UseItem(name: string)
      modifies player, player.inventory, enemy
      ensures State() == UsingItem(old(State()), name)
    {
      var item := player.inventory.Remove(name);
      if item.None? {
        return;
      }
      Effects.Use(item.value, player, enemy);
    }

    method PlayerSpecial(d: PlayerDice)
      requires ValidPlayerDice(d, player.strength)
      modifies this, player, player.inventory, enemy
      ensures State() == Specialising(old(State()), d)
    {
      var cls := player.cls;
      if cls == "night_surgeon" {
        if ExtractedKey in player.classResource {
          return;
        }
        if d.roll + player.magic >= 15 {
          player.inventory.Add(FearShard);
          player.classResource := player.classResource + {ExtractedKey};
        }
      } else if cls == "lucid_magician" {
        if RewrittenKey in rewriteEffects {
          return;
        }
        if d.roll + player.magic >= 15 {
          rewriteEffects := rewriteEffects + {MissKey};
        }
      } else if cls == "insomniac" {
        var cost := InsomniacCost;
        if player.sanity - cost <= SanityDeath {
          return;
        }
        player.ModifySanity(-cost);
        var dmg := TruncDiv(5 * player.strength, 2);
        enemy.TakeDamage(dmg);
      } else {
        if player.magic >= 10 && d.roll + player.magic >= 12 {
          var dmg := TruncDiv(3 * player.magic, 2);
          enemy.TakeDamage(dmg);
        }
      }
    }

    method PlayerTurn(line: string, d: PlayerDice) returns (res: TurnResult)
      requires ValidPlayerDice(d, player.strength)
      modifies this, player, player.inventory, enemy
      ensures (res, State()) == PlayerActs(old(State()), ParseCommand(line), d)
    {
      match ParseCommand(line) {
        case Blank => res := Crash;
        case Attack => PlayerAttack(d); res := Continue;
        case Defend => PlayerDefend(); res := Continue;
        case UseNothing => res := Continue;
        case UseNamed(name) => UseItem(name); res := Continue;
        case ShowInventory => res := Continue;
        case Special => PlayerSpecial(d); res := Continue;
        case ShowStats => res := Continue;
        case Flee =>
          res := if Escapes(d.roll, player.agility, d.counter, enemy.agility) then Escape else Continue;
        case Unknown(_) => res := Continue;
      }
    }

    method RevertDefend()
      modifies player
      ensures State() == Reverted(old(State()))
    {
      if DefendKey in player.flags {
        player.agility := player.flags[DefendKey];
        player.flags := player.flags - {DefendKey};
      }
    }

    method EnemyTurn(d: EnemyDice)
      requires ValidEnemyDice(d, enemy.strength, enemy.special)
      modifies this, player
      ensures State() == EnemyActs(old(State()), d)
    {
      if !enemy.alive {
        return;
      }
      if MissKey in rewriteEffects {
        rewriteEffects := rewriteEffects - {MissKey};
        return;
      }
      var acted := false;
      if enemy.special != [] && d.chance < 30 {
        acted := enemy.SpecialMove(player, d.pick);
      }
      if !acted {
        enemy.AttackPlayer(player, d.hit, d.evade, d.dmg);
      }
    }

    method Reward(d: RewardDice)
      requires ValidRewardDice(d)
      modifies player, player.inventory
      ensures State() == Rewarded(old(State()), d)
    {
      var xp := 20 * enemy.difficulty + d.bonus;
      player.GainXp(xp);
      if d.drop < 30 * enemy.difficulty {
        player.inventory.Add(DropTable[d.pick]);
      }
    }

    /** One pass of the body of `run`'s loop; `None` when the loop goes
        on, the outcome when it is over. */
    method PlayRound(s: Step) returns (end: Option<Outcome>)
      requires player.alive && enemy.alive
      requires ValidPlayerDice(s.pd, player.strength)
      requires ValidEnemyDice(s.ed, enemy.strength, enemy.special)
      modifies this, player, player.inventory, enemy
      ensures var r := Round(old(State()), s);
        (end.None? <==> r.Next?)
        && (r.Next? ==> State() == r.next)
        && (r.Over? ==> end == Some(r.outcome) && State() == r.last)
    {
      var res := PlayerTurn(s.line, s.pd);
      if res == Escape {
        return Some(Escaped);
      }
      if res == Crash {
        return Some(Crashed);
      }
      RevertDefend();
      if !enemy.alive {
        return Some(if !player.alive then PlayerDead else EnemyDead);
      }
      EnemyTurn(s.ed);
      if !player.alive {
        return Some(PlayerDead);
      }
      turnCount := turnCount + 1;
      return None;
    }

    /** `run`: rounds until a fighter falls, the player escapes or the
        input gives out, then the reward for a victory. */
    method Run(script: seq<Step>, d: RewardDice) returns (o: Outcome)
      requires ValidScript(script, player.strength, enemy.strength, enemy.special)
      requires ValidRewardDice(d)
      modifies this, player, player.inventory, enemy
      ensures (o, State()) == Fight(old(State()), script, d)
    {
      ghost var result := Play(State(), script);
      var i := 0;
      while player.alive && enemy.alive
        invariant 0 <= i <= |script|
        invariant ValidScript(script[i..], player.strength, enemy.strength, enemy.special)
        invariant Play(State(), script[i..]) == result
        decreases |script| - i
      {
        if i == |script| {
          return InputExhausted;
        }
        var end := PlayRound(script[i]);
        if end.Some? {
          if end.value == Escaped || end.value == Crashed {
            return end.value;
          }
          assert result == (Ended(State()), State());
          break;
        }
        ValidScriptTail(script[i..], player.strength, enemy.strength, enemy.special);
        assert script[i..][1..] == script[i + 1..];
        i := i + 1;
      }
      assert result == (Ended(State()), State());
      if !player.alive {
        return PlayerDead;
      }
      Reward(d);
      return EnemyDead;
    }
  }
}
