# Dream Market — a verified model of the game's core

Dream Market is a text RPG. The player is a dream broker who crosses three
areas, fights nightmares, collects items and reaches one of several endings.
This project models the game's core in Dafny and proves properties of that
model. The core covers:

- **Inventory**: an ordered list of catalog items in which duplicates are
  allowed. It supports appending, removing the first case-insensitive name
  match, and a grouped listing (`items.dfy`).
- **Player and class table**: six classes. Health is clamped into
  `[0, max_health]`. Sanity is unclamped and kills at -50 or below. The xp
  loop levels up repeatedly (`characters.dfy`).
- **Enemies**: damage that bottoms out at 0 hp, an attack that pits d20 plus
  half agility against the player's d20 plus half agility, and two special
  moves: the bellow (a sanity loss) and the snare (agility loss, floored at
  1) (`enemies.dfy`).
- **Item effects**: the Dream Elixir (+30 health), the Calm Mist (+25
  sanity) and the Fear Shard (`20 + int(magic / 2)` damage, in combat only)
  (`effects.dfy`).
- **The combat engine**: the player turn's command parsing, attack, defend,
  `use`, the class specials, the enemy turn, the round loop and the victory
  reward (`combat.dfy`).
- **Save and load**: the mapping between a player and the saved record
  (`persistence.dfy`).
- **The ending choice**: the flag priorities of `compute_ending`
  (`endings.dfy`).
- **Support modules**: `dice.dfy` holds the arithmetic of the random draws
  (truncating division, hit and escape tests, damage ranges, the odds of the
  `roll(100) < n` tests). `text.dfy` holds the string helpers (`lower`,
  `split`, `join`). `options.dfy` holds the option type.

Every random draw is an input. A draw is a die value in `1..d`, or the damage
value that a float factor produces, and each draw's range is a precondition.
One round of combat reads one `Step`: the line typed plus that round's
draws. A whole fight reads a script of steps.

The parts of the source that update objects in place are Dafny classes proved
against pure functions on value records:

- `Inventory`, `Player`, `Enemy` and `Combat` are classes.
- `PlayerRecord`, `EnemyRecord` and `Arena` are the value records.
- Each method's `ensures` ties the new state to a function of the old state,
  for example `State() == EnemyActs(old(State()), d)`.
- The lemmas about those functions carry the game's promises.
- `Combat.Run` is the `while` loop of `run`. It is proved to produce the
  outcome and state of the recursive `Play` function, followed by the
  reward.

Facts of the code that the proofs make explicit:

- A command that changes nothing still hands the turn to the enemy
  (dream_market.py:471-479). This covers the listing, stats, an unknown word,
  `use` without a match and a failed run (`PassiveCostsTurn`). The enemy's
  turn is skipped in three ways:
  - a successful run, which returns `escaped` (dream_market.py:472-473);
  - a blank line, on which `tokens[0]` raises before any action
    (dream_market.py:348-349; the `Crashed` outcome of `Round`);
  - a player action that left the enemy dead, which breaks the loop
    (dream_market.py:477-478; `KillSkipsEnemyTurn`).
- The defend bonus never outlives its round: `defend_tmp` is popped back
  into agility right after the player's turn, before the enemy-alive check
  (dream_market.py:474-478; `PlayClearsDefend`).
- 250 xp at level 1 gives level 2 with 150 xp left: the loop pays 100 for
  level 1 and stops once xp < 100 * level (dream_market.py:143-145;
  `Gain250AtLevelOne`).
- The Night Surgeon's `extracted` marker is set once and never removed
  within a fight (dream_market.py:411-416; `ClassResourcesPersist`). The only
  write to `class_resource` is at dream_market.py:416, so across fights the
  marker also stays. A loaded player starts with no resources
  (`Persistence.Load`, `LoadSave`), so extraction succeeds at most once per
  `Player` object, that is once per run of the game.
- The Lucid Magician's guard tests the key `rewritten` (dream_market.py:423),
  which nothing stores, so the rewrite can be cast every turn
  (`RewrittenNeverSet`, `LucidSpecial`).
- `roll(100) < n` holds on `n - 1` faces (dream_market.py:48-50). The drop
  therefore comes on `30 * difficulty - 1` faces of 100 (all 100 from
  difficulty 4, so the boss always drops), the enemy special on 29 and the
  Lucid critical on 19 (dream_market.py:391, 460, 492; `PercentOdds`,
  `BossAlwaysDrops`).

## Model

| member | source | states |
|---|---|---|
| Text.Words | dream_market.py:348 | every token of `split()` is non-empty and free of whitespace |
| Text.WordsEmptyIff | dream_market.py:348-349 | a line splits into no tokens exactly when it is empty or all whitespace |
| Text.WordsOfJoin | dream_market.py:348-358 | splitting words joined by single spaces gives the words back |
| Items.ItemNamed | dream_market.py:209-215 | catalog lookup is exact on the name: a result carries that name, and an item with that name is always found |
| Items.FirstMatch | dream_market.py:78-83 | the index is that of the first item whose lower-cased name equals the lower-cased query: it matches and no earlier item does; no index means no item matches |
| Items.FirstMatchAt | dream_market.py:80-83 | a scan that has passed `i` non-matching items and stops at a match has found the first match; a scan that reaches the end has found none |
| Items.MatchIgnoresCase | dream_market.py:81 | lower-casing the query never changes which item is removed |
| Items.FirstSeen | dream_market.py:88-92 | the listed names are distinct, and they are exactly the names in the inventory |
| Items.FirstIndex | dream_market.py:93 | the position of a name's first occurrence |
| Items.FirstSeenOrder | dream_market.py:88-92 | the grouped names appear in order of first occurrence |
| Items.SummaryEmptyIff | dream_market.py:86-95 | the summary is empty exactly when the inventory is |
| Items.SummaryCoversNames | dream_market.py:88-94 | every item's name has an entry, and no name has two |
| Items.SummaryInFirstSeenOrder | dream_market.py:92-94 | entries come in order of first occurrence in the list |
| Items.SummaryEntries | dream_market.py:89-94 | each entry's count is the number of items with its name (at least 1), and its description is the first such item's |
| Items.SummaryTotal | dream_market.py:89-92 | the listed counts add up to the number of items |
| Items.ListingEmptyIff | dream_market.py:85-95 | the listing is "Your inventory is empty." exactly when the inventory is empty |
| Items.RemoveThenAddKeepsCounts | dream_market.py:75-83 | removing an item and adding it back restores every name's count |
| Items.DescOfFirst | dream_market.py:93 | the `next(...)` description is that of the first item with the name |
| Items.Summary | dream_market.py:88-94 | the `counts` dict paired with each name's first description; `SummaryEmptyIff`, `SummaryCoversNames`, `SummaryInFirstSeenOrder`, `SummaryEntries` and `SummaryTotal` state its order, counts, descriptions and total |
| Items.Listing | dream_market.py:85-95 | the text of `list()`: the fixed message for an empty inventory, else one `name xN - desc` line per summary entry; `ListingEmptyIff` states that the message appears exactly for the empty inventory |
| Items.Inventory.constructor | dream_market.py:72-73 | a new inventory is empty |
| Items.Inventory.Add | dream_market.py:75-76 | the item is appended at the end |
| Items.Inventory.Remove | dream_market.py:78-83 | the first case-insensitive match is returned and removed, everything else stays in order; with no match nothing changes and nothing is returned |
| Items.Inventory.List | dream_market.py:85-95 | returns the empty message exactly when there are no items |
| Characters.ClassByKey | dream_market.py:188 | the class is from the table; a known key gives its class, an unknown one the first class |
| Characters.ClassKeysDistinct | dream_market.py:154-188 | every class is found under its own key |
| Characters.ClampHealth | dream_market.py:131 | the result lies in `[0, max_health]`, equals `health + amt` when that is in range, and is 0 exactly when `health + amt <= 0` or the maximum is not positive |
| Characters.HealthChanged | dream_market.py:130-133 | only health and alive change; health is clamped; the player is alive afterwards exactly when they were before and health is not 0 |
| Characters.SanityChanged | dream_market.py:135-139 | sanity moves by exactly `amt`; the player is alive afterwards exactly when they were before and sanity stays above -50; nothing else changes |
| Characters.LevelUp | dream_market.py:143-145 | the level and xp the `while` loop stops at; `LevelUpFacts` and `LevelUpUnique` state and characterise that stopping point |
| Characters.XpGained | dream_market.py:141-149 | the player after `gain_xp`; `XpGainedFacts` states the level, xp and stat bonuses and that nothing else changes, and `Player.GainXp` is proved to reach it |
| Characters.LevelUpFacts | dream_market.py:141-145 | the loop never lowers the level, stops with xp below the new level's threshold, pays exactly the sum of the thresholds passed, passes each threshold it pays, and keeps non-negative xp non-negative |
| Characters.LevelUpUnique | dream_market.py:141-145 | those facts determine the resulting level and xp |
| Characters.XpGainedFacts | dream_market.py:141-149 | `gain_xp` never lowers the level, leaves xp below the new threshold, accounts for every xp point, adds 10 max health and 1 strength, agility and magic per level gained, and changes nothing else |
| Characters.Gain250AtLevelOne | dream_market.py:141-149 | 250 xp from level 1 with 0 xp gives level 2 with 150 xp and 10 more max health |
| Characters.Player.constructor | dream_market.py:101-117 | a new player has the class's stats and full health, is at level 1 with 0 xp, has no items or flags, and is alive |
| Characters.Player.ModifyHealth | dream_market.py:130-133 | the new state is `HealthChanged` of the old one |
| Characters.Player.ModifySanity | dream_market.py:135-139 | the new state is `SanityChanged` of the old one |
| Characters.Player.GainXp | dream_market.py:141-149 | the `while` loop brings the player to `XpGained` of the old state |
| Dice.TruncDiv | dream_market.py:238-239 | `int(a / b)` truncates toward zero: the remainder has the sign of `a` and is smaller than `b` |
| Dice.Hits | dream_market.py:240 | a hit is d20 plus half the attacker's stat reaching d20 plus half the defender's; `TiesFavourAttacker` states its tie rule against `Escapes` |
| Dice.Escapes | dream_market.py:374-376 | an escape is d20 plus half the player's agility strictly above the enemy's; `TiesFavourAttacker` shows a tie fails |
| Dice.HalfOfStat | dream_market.py:238-239 | on a non-negative stat `int(x / 2)` is floor division, so an odd stat's last point adds nothing |
| Dice.TiesFavourAttacker | dream_market.py:240 | equal totals are a hit for either side and a failed escape |
| Dice.DamageRange | dream_market.py:241 | damage on a non-negative strength is non-negative, and the strength itself is a possible damage |
| Dice.Critical | dream_market.py:392 | `int(base * 1.8)` lies between `base` and `2 * base` and is `9 * base / 5` truncated |
| Dice.RollsBelowCount | dream_market.py:48-50 | `roll(d) < n` holds on `n - 1` faces, clamped to `0..d` |
| Dice.PercentOdds | dream_market.py:391-492 | the drop, the enemy special and the critical come on `30 * difficulty - 1` (100 from difficulty 4), 29 and 19 faces of 100 |
| Enemies.BestiaryStartsFresh | dream_market.py:264-296 | every enemy the areas and the boss scene create starts alive at full positive hp with non-negative stats and difficulty 1 to 4, and only the boss (dream_market.py:555) has difficulty 4 |
| Enemies.Damaged | dream_market.py:232-235 | only hp and alive change; hp drops by the amount but not below 0; it is alive exactly when it was and hp is not 0 |
| Enemies.DamagedTwice | dream_market.py:232-235 | two non-negative hits equal one hit of their sum |
| Enemies.FiftyHpTwoHits | dream_market.py:232-235 | 20 damage leaves a 50 hp enemy at 30 and alive; 30 more leave it at 0 and dead |
| Enemies.Bellowed | dream_market.py:252-255 | the bellow takes exactly `10 + magic` sanity, with the sanity-death rule |
| Enemies.Snared | dream_market.py:257-260 | only agility changes: down by 2, never below 1 |
| Enemies.SnaredRepeatedly | dream_market.py:257-260 | n snares lower agility by `2n`, stopping at 1, and change nothing else |
| Enemies.Attacked | dream_market.py:237-244 | a hit (`>=`) applies the damage through `modify_health`; a miss leaves the player as they were |
| Enemies.AttackOnlyHurts | dream_market.py:237-244 | an attack changes only health and alive, never raises health, and never revives |
| Enemies.Enemy.constructor | dream_market.py:220-230 | a new enemy has full hp and is alive |
| Enemies.Enemy.TakeDamage | dream_market.py:232-235 | the new state is `Damaged` of the old one |
| Enemies.Enemy.AttackPlayer | dream_market.py:237-244 | the player's new state is `Attacked` of the old one |
| Enemies.Enemy.SpecialMove | dream_market.py:246-250 | an enemy without moves does nothing and reports it; otherwise the picked move's effect is applied |
| Enemies.NightmareBellow | dream_market.py:252-255 | the player's new state is `Bellowed` of the old one |
| Enemies.DreamSnare | dream_market.py:257-260 | the player's new state is `Snared` of the old one |
| Effects.ShardDamage | dream_market.py:204 | `20 + int(magic * 0.5)`, truncated toward zero for either sign |
| Effects.Used | dream_market.py:192-215 | an enemy stays present or absent; only the enemy's hp and alive and the player's health, sanity and alive can change; `UsedTouches` states each item's exact effect |
| Effects.UsedTouches | dream_market.py:192-215 | the Dream Elixir is `modify_health(30)` and the Calm Mist `modify_sanity(25)`, neither touching the enemy; the Fear Shard hits the enemy for its damage and leaves the player alone, is inert without an enemy, and the Hope Seed and Broker Ledger do nothing |
| Effects.UseOnlyHelps | dream_market.py:192-200 | items never lower health or sanity and never revive; they never kill a living player whose maximum health is positive and whose sanity is above -50 |
| Effects.ShardKillsWeakEnemy | dream_market.py:202-206 | with non-negative magic a Fear Shard kills an enemy of 20 hp or less |
| Effects.Use | dream_market.py:62-65 | the objects end in the states `Used` gives, with or without an enemy |
| CombatEngine.ParseWords | dream_market.py:348-383 | no tokens means the crash; `use` with a name takes the remaining tokens joined by single spaces |
| CombatEngine.ParseCommand | dream_market.py:348-349 | the command a typed line selects, by `split()` and the lower-cased first token; `ParseBlankIff`, `ParseUse` and `ParseIgnoresVerbCase` state its crash, `use` and case rules |
| CombatEngine.ParseBlankIff | dream_market.py:348-349 | the turn crashes exactly on an empty or all-whitespace line |
| CombatEngine.ParseUse | dream_market.py:354-358 | a line joined from `use` and a name's words parses back to `use` of that name |
| CombatEngine.ParseUseAnySpacing | dream_market.py:348-358 | whatever whitespace separates them, a line whose tokens are `use` and a name's words hands the inventory those words joined by single spaces |
| CombatEngine.ParseIgnoresVerbCase | dream_market.py:349 | lower-casing the command word does not change the command |
| CombatEngine.Attacking | dream_market.py:385-398 | only the enemy can change, and a miss changes nothing |
| CombatEngine.AttackDamage | dream_market.py:388-394 | a hit lowers hp by between `dmg` and `2 * dmg` or to 0; it is exactly `take_damage(dmg)` unless a Lucid class name rolls under 20 on the d100, and then exactly `take_damage(int(dmg * 1.8))` |
| CombatEngine.Defending | dream_market.py:400-405 | agility rises by 4 and `defend_tmp` holds the old agility; nothing else changes |
| CombatEngine.UsingItem | dream_market.py:354-364 | without a match nothing changes; with one the first match leaves the list and then its `Used` effect applies to the shortened player and the enemy; flags, agility and resources stay |
| CombatEngine.Specialising | dream_market.py:407-451 | the special never changes health, agility or flags, and only ever adds the miss rewrite and class resources |
| CombatEngine.SurgeonSpecial | dream_market.py:409-420 | extraction is refused once `extracted` is set; otherwise 15 or more appends one Fear Shard and sets `extracted`, changing nothing else, and less does nothing |
| CombatEngine.GenericSpecial | dream_market.py:443-451 | any other class deals `int(magic * 1.5)` with magic of 10 or more and roll plus magic of 12 or more, changing nothing else, and otherwise nothing happens |
| CombatEngine.LucidSpecial | dream_market.py:421-431 | without `rewritten`, 15 or more arms the miss and changes nothing else, and less does nothing |
| CombatEngine.InsomniacSpecial | dream_market.py:432-442 | refused when sanity would reach -50; otherwise costs exactly 20 sanity and deals `int(strength * 2.5)`, changing nothing else |
| CombatEngine.PlayerActs | dream_market.py:342-383 | it crashes exactly on the blank command; an escape is a run that changes nothing; only defend touches flags; `rewritten` is never stored; resources only grow |
| CombatEngine.PassiveChangesNothing | dream_market.py:365-383 | inventory, stats, unknown words, `use` without a match and a failed run change nothing |
| CombatEngine.Reverted | dream_market.py:474-476 | the revert removes `defend_tmp`, changes only the player, and is a no-op without one |
| CombatEngine.DefendThenRevert | dream_market.py:400-405 | defending and reverting gives back the old agility |
| CombatEngine.EnemyActs | dream_market.py:453-465 | the enemy's turn never changes the enemy, items, flags or resources, can only consume the miss, and never revives |
| CombatEngine.MissConsumed | dream_market.py:456-459 | a pending miss is consumed and the player is untouched |
| CombatEngine.DefendNeverReachesEnemy | dream_market.py:471-479 | the enemy acts on the undefended agility after a defend |
| CombatEngine.Round | dream_market.py:469-482 | a round that goes on has both fighters alive, no `defend_tmp` and one more turn; an escape or crash leaves both alive; any other end has a fallen fighter and reports it, player's death first |
| CombatEngine.Play | dream_market.py:469-483 | the loop ends with `player_dead` exactly when the player fell, `enemy_dead` exactly when only the enemy fell, and with both alive otherwise; each round is one turn |
| CombatEngine.PlayClearsDefend | dream_market.py:474-476 | the defend bonus never outlives a fight |
| CombatEngine.RoundNeverRewrites | dream_market.py:423-427 | no round stores `rewritten` |
| CombatEngine.RewrittenNeverSet | dream_market.py:423-427 | no fight stores `rewritten` |
| CombatEngine.RoundKeepsResources | dream_market.py:411-416 | no round removes a class resource |
| CombatEngine.KillSkipsEnemyTurn | dream_market.py:471-478 | a player action that leaves the enemy dead ends the fight after the defend revert, without the enemy's turn |
| CombatEngine.ClassResourcesPersist | dream_market.py:411-416 | class resources such as `extracted` are never cleared |
| CombatEngine.PassiveCostsTurn | dream_market.py:469-482 | a command that changes nothing still gives the enemy its turn and counts a turn |
| CombatEngine.XpReward | dream_market.py:489 | the reward is between `20 * difficulty` and 20 more |
| CombatEngine.Rewarded | dream_market.py:487-495 | the player gains the xp and, when the d100 is under `30 * difficulty`, the drawn drop; nothing else changes |
| CombatEngine.RewardFacts | dream_market.py:487-495 | victory never lowers the level, leaves xp within the new threshold, adds at most one item, and keeps health and alive |
| CombatEngine.BossAlwaysDrops | dream_market.py:489-494 | beating a difficulty-4 enemy always adds the drawn drop, since every d100 is under 120 |
| CombatEngine.Fight | dream_market.py:467-496 | `run` is the loop's outcome, followed by the reward exactly when the enemy fell |
| CombatEngine.Combat.constructor | dream_market.py:331-335 | no rewrites and no turns at the start |
| CombatEngine.Combat.PlayerAttack | dream_market.py:385-398 | the new state is `Attacking` of the old one |
| CombatEngine.Combat.PlayerDefend | dream_market.py:400-405 | the new state is `Defending` of the old one |
| CombatEngine.Combat.UseItem | dream_market.py:354-364 | the new state is `UsingItem` of the old one |
| CombatEngine.Combat.PlayerSpecial | dream_market.py:407-451 | the new state is `Specialising` of the old one |
| CombatEngine.Combat.PlayerTurn | dream_market.py:342-383 | the result and new state are `PlayerActs` on the parsed command |
| CombatEngine.Combat.RevertDefend | dream_market.py:474-476 | the new state is `Reverted` of the old one |
| CombatEngine.Combat.EnemyTurn | dream_market.py:453-465 | the new state is `EnemyActs` of the old one |
| CombatEngine.Combat.Reward | dream_market.py:487-495 | the new state is `Rewarded` of the old one |
| CombatEngine.Combat.PlayRound | dream_market.py:469-482 | one loop pass follows `Round` |
| CombatEngine.Combat.Run | dream_market.py:467-496 | the `while` loop and the reward produce the outcome and state of `Fight` |
| Persistence.Save | dream_market.py:659-673 | the saved record: stats, class key, item names in order and flags; `LoadSave` and `SaveLoadSave` state that loading it restores the player and that saving again writes the same record |
| Persistence.KnownItems | dream_market.py:694-696 | the loaded items are no more than the saved names, and each carries a saved name |
| Persistence.Load | dream_market.py:678-699 | the loaded player is alive with no resources, and has the saved class or else the first class |
| Persistence.KnownItemsAppend | dream_market.py:694-696 | an unknown name is skipped and a known one appends its item |
| Persistence.KnownItemsOfNames | dream_market.py:671-696 | the saved names of any inventory load back to the same items |
| Persistence.LoadSave | dream_market.py:659-699 | loading a save restores every saved field; the class name comes from the table, alive is set, resources are empty |
| Persistence.SaveLoadSave | dream_market.py:659-699 | saving a loaded save writes the same record |
| Persistence.LoadUnknownClass | dream_market.py:684-693 | an unknown class key loads as a Night Surgeon, keeping the saved health and level |
| Persistence.LoadDefaults | dream_market.py:694-697 | missing inventory or flags load as empty |
| Endings.ComputeEnding | dream_market.py:637-653 | the ending for an end state and the flags; `EndingCases` states, both ways, when each ending is chosen |
| Endings.EndingCases | dream_market.py:637-653 | each ending, exactly when it is reached: death first, then boss or contract, then helped, then exploited, then neutral |
| Endings.OtherFlagsIgnored | dream_market.py:642-651 | no flag besides the three ending flags affects the ending |
| Endings.AreaLoopEndings | dream_market.py:524-567 | from the two states the area loop returns, only the death ending or the final choice follow |

## Left out

- Terminal I/O: prompts, `print`, `wrap`, the status screens and all
  narrative text. A turn's input is a string parameter, and `sys.exit` on
  end of input appears as the `InputExhausted` outcome.
- The random number generator: every draw is a parameter whose range is a
  precondition.
- Floating point: the damage factor `1 + random() * 0.5` appears only as the
  integer range its truncation can produce (`Dice.IsDamage`). The critical
  `int(base * 1.8)` is computed as `9 * base / 5` truncated.
- The save file and JSON. A saved record is a Dafny value; flags are an
  integer map (`True` is 1) and JSON's own value types are not modelled.
  `load_game` with no save file is not modelled.
- The re-prompt when `prompt` returns `None` in `player_turn`: with no
  option list `prompt` never returns `None`, so that branch is dead.
- `lower()` and `split()` handle ASCII letters and ASCII whitespace only.
- `Item.__str__`, `Player.status`, `Combat.show_status` and listing line
  rendering beyond the entries: presentation only.
- `equipped`: nothing in the game ever sets it.
- The world driver (`area_loop`, the merchant, choice and boss scenes, the
  menus, `ending_shopkeeper`, `run_game`): interactive glue outside the
  core. The shopkeeper's own ending appears only as `FinalChoice`.
- CombatEngine.Play: the loop is driven by a finite script of steps, so an
  unending fight appears as the input running out.
