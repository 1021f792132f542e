# Dungeon adventure: a verified model of the game's state machine

`Game.py` is a turn-based text dungeon game. A player moves between eight
fixed rooms, picks up and uses items, and fights the enemy bound to a room.
The game is won in the dragon's chamber. This project models the part of the
game that has logic: the player's stat rules, the room and enemy tables, the
command dispatcher, the item rules, the combat loop and the win test that
follows each command.

The model's layout follows the program's structure:

- `entities.dfy` (module `Entities`) has the classes `Player` and `Enemy`,
  whose fields are updated in place. Each `Player` method is proved to change
  the stats exactly as a pure function on the value `PlayerStats` says
  (`Damaged`, `Healed`, `WithExp`, `LevelledUp`). The properties the game
  relies on are proved about those functions: the damage floor of 1, the
  health ceiling, and at most one level-up per experience gain.
- `builtins.dfy` (module `Builtins`) models the Python built-ins the rules
  depend on: `str.lower`, substring `in`, `startswith` and `list.remove`.
  The substring scan is proved equal to "occurs at some offset", and the
  removal is proved to take out exactly the first occurrence. The prefix test
  is related to concatenation, and lower-casing is specified character by
  character and shown idempotent.
- `world.dfy` (module `World`) holds the room table, the enemy registry and
  the session as one value, `GameState`. It also defines `WellFormed`, the
  invariant every command keeps: every exit leads to a room, and the player's
  health never exceeds its ceiling. In addition the registry always holds the
  same four enemies, and only their health changes.
- `fight.dfy` (module `Fight`) defines `Encounter`, the rounds of one
  `attack` command, as a recursive function. Its contract covers termination,
  who falls, the number of rounds and the damage bounds.
- `commands.dfy` (module `Commands`) models the command-line grammar of
  `process_choice`, as a parser proved inverse to a renderer.
- `rules.dfy` (module `Rules`) has one pure function per command, giving its
  effect on `GameState`. It also holds both win tests: the one the game loop
  actually performs and a corrected one (see "Findings").
- `game.dfy` (module `Dungeon`) has the class `Game`. It owns the player,
  the shared enemy registry (a map to `Enemy` objects, so a defeated enemy is
  seen from every room) and the mutable room table. Every command method is
  proved to leave `State()` equal to the matching `Rules` function applied to
  the old state, and to keep `Valid()`.
- `scenarios.dfy` (module `Scenarios`) plays concrete sessions. Each one is
  stated for any session that matches the initial tables on the rooms it
  passes through, and `StartsAtEntrance` shows that the initial session is
  such a session. It covers the goblin fight, a blocked move, a potion used
  twice and the walk that wins the game as written.

The game calls `random.randint` once for the player's blow in every combat
round, and once more for the enemy's answer only when the enemy survives the
blow. The model replaces these calls with two roll sequences supplied by the
caller: round `i` uses `playerRolls[i]` for the player's blow and
`enemyRolls[i]` for the enemy's answer. In the round that fells the enemy,
`enemyRolls[i]` is not used. `Dungeon.Game.Combat` requires the rolls to lie in the ranges
`randint` would draw from: the player's attack ±5 and the enemy's attack ±3.
The enemy loses at least one point per round, so its health bounds the
number of rolls used.

## Model

| member | source | states |
|---|---|---|
| Entities.NewPlayer | Game.py:6-15 | a new player has full health (100 of 100) at level 1 |
| Entities.Player.constructor | Game.py:6-15 | the new player's stats are exactly the starting stats, and it keeps its name |
| Entities.Enemy.constructor | Game.py:41-48 | an enemy starts at full health (`max_health` equals `health`) with the given attack, defense and rewards |
| Entities.Mitigated | Game.py:18 | the damage that gets through is at least 1 and at least damage minus defense, and it is one of the two |
| Entities.Damaged | Game.py:17-20 | only health changes; it drops by exactly the mitigated damage, so it strictly drops and may go below 0; the health ceiling is kept |
| Entities.Player.TakeDamage | Game.py:17-20 | returns `max(1, damage - defense)` and leaves the stats equal to `Damaged` of the old stats |
| Entities.Healed | Game.py:22-23 | only health changes; it ends at the ceiling or at health plus amount, whichever is lower; a non-negative heal never lowers health; healing at full health changes nothing |
| Entities.Player.Heal | Game.py:22-23 | leaves the stats equal to `Healed` of the old stats |
| Entities.WithExp | Game.py:25-28 | experience rises by exactly the gain; below the threshold `level * 100` nothing else changes; at or past it the result is exactly `LevelledUp` of the old stats with the new experience, so the level rises by one and never by more; the health ceiling is kept |
| Entities.Player.GainExp | Game.py:25-28 | leaves the stats equal to `WithExp` of the old stats |
| Entities.Threshold | Game.py:27 | the experience a level needs before the next level-up: `level * 100` |
| Entities.OneLevelPerGain | Game.py:25-28 | a single gain of 250 from a fresh player passes two thresholds but yields level 2 only |
| Entities.LevelledUp | Game.py:30-35 | level +1, maximum health +20, health reset to the new maximum, attack +5, defense +2, nothing else changes |
| Entities.Player.LevelUp | Game.py:30-35 | leaves the stats equal to `LevelledUp` of the old stats |
| Builtins.StartsWith | Game.py:184-190 | the prefix test of `process_choice`: the text is at least as long as the prefix and begins with it |
| Builtins.StartsWithConcat | Game.py:184-190 | a text starts with a prefix exactly when it is the prefix followed by some rest |
| Builtins.Lower | Game.py:143 | lower-casing keeps the length, folds each character and leaves no upper-case ASCII letter |
| Builtins.LowerFixes | Game.py:143 | lower-casing twice gives the same as once, and characters that are not capitals are kept |
| Builtins.Contains | Game.py:239 | `pattern in text` on strings, trying the offsets from left to right |
| Builtins.ContainsOccurs | Game.py:239 | the left-to-right substring scan answers true exactly when the pattern occurs at some offset |
| Builtins.RemoveFirst | Game.py:223 | removing a present element shortens the list by one and takes exactly one copy of it out of the multiset |
| Builtins.RemoveFirstAt | Game.py:223 | the copy removed is the first occurrence; the elements before and after it keep their order |
| Commands.Parse | Game.py:183-200 | the first test that passes decides: a "move " prefix gives a move, otherwise "take ", otherwise "use "; the argument is the rest of the line after the prefix; "attack", "inventory" and "quit" must match the whole line; a line failing every test is invalid |
| Commands.Render | Game.py:173-178 | the line the help text tells the player to type for each command: "move ", "take " or "use " followed by the argument, or the bare words "attack", "inventory" and "quit" |
| Commands.ParseRender | Game.py:183-200 | every command typed as the help text shows is recognised as that command |
| Commands.RenderParse | Game.py:183-200 | every recognised line is the rendering of the command it is parsed to |
| World.InitialRooms | Game.py:66-116 | the room table as the game sets it up: exits, items and the enemy key of each of the eight rooms |
| World.Bestiary | Game.py:59-64 | the enemy registry as the game sets it up: four enemies with their health, attack, defense and rewards |
| World.InitialState | Game.py:52-56 | the session right after set-up and the player's creation (Game.py:130): a new player, the full registry, the initial rooms, at the entrance, the game running and no room visited |
| World.InitialTables | Game.py:59-116 | the table has exactly the eight rooms and the registry exactly the four enemies; every enemy key a room names is non-empty and in the registry; every enemy starts alive at full health |
| World.ItemsReplaced | Game.py:223 | replacing one room's item list keeps the room table's keys and every exit, so the invariant is kept, and leaves every other room as it was |
| World.InitialWellFormed | Game.py:59-116 | the initial tables satisfy the invariant: every exit leads to a room of the table, and the registry is the bestiary at full health |
| Fight.Encounter | Game.py:269-294 | no rounds are fought unless both sides are alive; otherwise the fight ends with the enemy at or below 0 and the player above 0 (victory), or the player at or below 0 and the enemy above 0 (defeat); it takes between 1 and the enemy's starting health rounds; the enemy loses at least one point per round and the player at least one per round the enemy answers |
| Rules.BoundEnemy | Game.py:206-207 | a bound enemy is the room's own enemy key, non-empty and held by the registry; when there is none, the room names no enemy, names the empty key, or names one the registry does not hold |
| Rules.Blocked | Game.py:206-208 | the room's bound enemy is alive |
| Rules.MoveStep | Game.py:202-218 | a live enemy in the room, or a direction with no exit, changes nothing; otherwise the player is in the exit's target and the target is added to the visited rooms; only those two fields change and the invariant is kept |
| Rules.TakeStep | Game.py:220-232 | an item that is not in the room changes nothing; otherwise one copy leaves the room list and is appended to the inventory; gold rises by 25 exactly for "gold coins"; other rooms, the layout and the enemies are untouched; the room and inventory together hold the same multiset of items |
| Rules.Usable | Game.py:239-251 | an item has an effect exactly when its name contains "healing potion" or it is "magic scroll" or "treasure chest" |
| Rules.NotPotions | Game.py:239-251 | "magic scroll" and "treasure chest" do not fall under the healing-potion rule |
| Rules.UseStep | Game.py:234-253 | an item not owned, or with no effect, changes nothing; any owned item whose name contains "healing potion" heals 30, "magic scroll" adds 10 attack, "treasure chest" adds 100 gold; either way one copy leaves the inventory and nothing else changes |
| Rules.RollsSuffice | Game.py:269-294 | a bound enemy's health is at most the number of rolls on each side, enough for every round, since each blow takes at least one point |
| Rules.RollsInRange | Game.py:271-285 | every player roll lies within the attack ±5 that `randint` draws from, and every roll of a bound enemy within its attack ±3 |
| Rules.Rewarded | Game.py:279-280 | experience rises by the enemy's reward and gold by its gold reward; below the threshold nothing else changes; at or past it the other stats are exactly `LevelledUp` of the old ones; the inventory is kept and the health ceiling is kept |
| Rules.Engage | Game.py:269-294 | the enemy's health and the player's are those the encounter ends with; on a victory the player is `Rewarded` with the enemy's rewards, otherwise only the player's health changes; `game_over` is set exactly on a defeat; only this enemy's health changes; with either side already down nothing changes |
| Rules.CombatStep | Game.py:255-296 | with no live enemy bound to the room, nothing changes; otherwise the result is `Engage` against that enemy, so the fight ends in victory (the enemy at or below 0, its experience and gold paid once through `gain_exp`, `game_over` unchanged) or in defeat (the player at or below 0, nothing else about the player changed, `game_over` set); only the bound enemy's health changes, and it never rises; rooms and inventory are untouched |
| Rules.Dispatch | Game.py:183-200 | `inventory` and unrecognised lines change nothing; `quit` only sets `game_over`; no command restores an enemy's health or changes the room layout; a finished game stays finished; the invariant is kept; a command that drops the player to 0 or below ends the game |
| Rules.LowerNames | Game.py:60-63 | the registry's names lower-case to "goblin", "orc", "skeleton" and "ancient dragon" |
| Rules.AliveNames | Game.py:143-144 | the lower-cased names of the registry's enemies with health above 0, as `get_remaining_enemies` (Game.py:309) filters them |
| Rules.WinAsWritten | Game.py:143-144 | the win test as the loop writes it: the player is in "dragon_chamber" and "dragon" is not among the lower-cased names of the live enemies |
| Rules.Won | Game.py:143-144 | the corrected win test: the player is in "dragon_chamber" and "ancient dragon" is not among the lower-cased names of the live enemies |
| Rules.WinAsWrittenIgnoresDragon | Game.py:143-144 | the win test as written holds exactly when the player is in "dragon_chamber", whatever the dragon's health |
| Rules.WonIffDragonSlain | Game.py:143-145 | the corrected win test holds exactly when the player is in "dragon_chamber" and the dragon's health is at or below 0 |
| Rules.WinCheckAsWritten | Game.py:143-145 | only `game_over` can change; afterwards it is set exactly when it was already set or the written test holds |
| Rules.WinCheck | Game.py:143-145 | only `game_over` can change; afterwards it is set exactly when it was already set or the corrected test holds |
| Rules.StepAsWritten | Game.py:137-145 | one pass of the loop as written keeps the invariant and ends the game whenever the player ends up in "dragon_chamber" |
| Rules.Step | Game.py:137-145 | one corrected pass keeps the invariant; enemies only weaken; the layout is unchanged; a finished game stays finished; a fall to 0 health ends the game; standing over the dead dragon ends it |
| Dungeon.Game.constructor | Game.py:52-116 | the session starts at the entrance with the initial tables, no visited rooms and a new player; an empty name becomes "Hero"; the registry's key list is its insertion order "goblin", "orc", "skeleton", "dragon" |
| Dungeon.Game.NewRegistry | Game.py:59-64 | builds four fresh enemy objects whose stats are exactly the bestiary at full health, one distinct object per key, with the keys listed in insertion order |
| Dungeon.Game.RegistryFacts | Game.py:59-64 | the four registry entries are distinct objects, and the keys in insertion order are exactly the registry's keys |
| Dungeon.Game.MovePlayer | Game.py:202-218 | the new state is `MoveStep` of the old one and the invariant is kept |
| Dungeon.Game.TakeItem | Game.py:220-232 | the new state is `TakeStep` of the old one |
| Dungeon.Game.UseItem | Game.py:234-253 | the new state is `UseStep` of the old one |
| Dungeon.Game.Combat | Game.py:255-296 | the new state is `CombatStep` of the old one |
| Dungeon.Game.FightOut | Game.py:269-294 | the loop leaves the enemy's health and the player's health as `Encounter` computes them; a victory adds the rewards through `gain_exp`; a defeat sets `game_over` |
| Dungeon.Game.EnemiesUnchanged | Game.py:202-253 | a command that touches no enemy object leaves the registry's state as it was |
| Dungeon.Game.OnlyOneEnemyChanged | Game.py:261-273 | wounding one registry entry changes only that entry of the registry's state |
| Dungeon.Game.QuitGame | Game.py:323-325 | the only change is that `game_over` is set |
| Dungeon.Game.WinGame | Game.py:311-321 | the only change is that `game_over` is set |
| Dungeon.Game.ProcessChoice | Game.py:183-200 | the new state is `Dispatch` of the old one for the same line |
| Dungeon.Game.AliveInMembers | Game.py:308-309 | an enemy is in the filtered list exactly when it is alive and stored under one of the keys |
| Dungeon.Game.GetRemainingEnemies | Game.py:308-309 | returns the live registry entries in insertion order, and an enemy is returned exactly when it is in the registry and alive |
| Dungeon.Game.RemainingNames | Game.py:143-144 | the lower-cased names of the remaining enemies are exactly the names in `AliveNames` of the state |
| Dungeon.Game.RemainingNamesLowered | Game.py:143-144 | the list the win test searches holds exactly the lower-cased names of the live enemies |
| Dungeon.Game.CheckWinAsWritten | Game.py:143-145 | the new state is `WinCheckAsWritten` of the old one |
| Dungeon.Game.CheckWin | Game.py:143-145 | the new state is `WinCheck` of the old one |
| Dungeon.Game.TurnAsWritten | Game.py:137-145 | the new state is `StepAsWritten` of the old one |
| Dungeon.Game.Turn | Game.py:137-145 | the new state is `Step` of the old one |
| Scenarios.StartsAtEntrance | Game.py:52-116 | the initial session keeps the invariant, stands at the entrance with a new player, matches the walked rooms' exits and bindings, has the dragon at 150 health and the goblin at full health, and has visited nothing |
| Scenarios.DragonAliveWinAsWritten | Game.py:143-145 | from the entrance, three "move north" lines reach "dragon_chamber" through the corridor and the treasure room; the written test ends the game on the third, with every enemy as it was, so a live dragon is not needed |
| Scenarios.DragonAliveNoWin | Game.py:143-145 | the same walk under the corrected test, with the dragon alive, reaches the chamber and leaves the game running |
| Scenarios.GoblinEncounter | Game.py:269-294 | with player blows of 25 and goblin blows of 18 the goblin falls in round 2, leaving the player at 87 health and the goblin at -16 |
| Scenarios.ReachDen | Game.py:202-218 | "move north" then "move west" from the entrance lead into the goblin's den through the corridor, each room added to the visited set |
| Scenarios.GoblinBlocks | Game.py:206-210 | while the goblin lives, "move east" from its den changes nothing |
| Scenarios.GoblinFight | Game.py:255-296 | "attack" in the den with a new player wins, leaving 87 health, 25 experience and 65 gold, the goblin at -16 and nothing else changed; the player is still at level 1, the game keeps running and the invariant holds |
| Scenarios.GoblinLeaves | Game.py:202-218 | once the goblin is down, "move east" leads from its den back to the corridor |
| Scenarios.PotionHeals | Game.py:234-243 | with 70 or more of 100 health and a potion as the second item, "use healing potion" heals to 100 and leaves only the first item |
| Scenarios.NoPotionLeft | Game.py:234-237 | without a potion carried, "use healing potion" changes nothing |
| Scenarios.PotionOnce | Game.py:234-243 | after the fight the first "use healing potion" heals the player to 100 and uses up the only potion carried; a second use changes nothing |
| Scenarios.EnterDen | Game.py:202-218 | a new game object driven by "move north" and "move west" stands in the goblin's den with a new player and the goblin unhurt |
| Scenarios.PlayGoblinDen | Game.py:255-296 | playing the goblin fight on a game object leaves the player at 87 health, 65 gold and 25 experience, back in the corridor |

## Left out

- Printing is left out: every `print`, the emoji, `display_room`, `display_status` and `get_user_input`'s help text. `show_inventory` only prints, so `inventory` changes no state. `win_game` is modelled as setting `game_over` only; its summary text is not modelled.
- `input()` (Game.py:126, 181) is left out because it is console I/O. `ProcessChoice` takes a line that is already lower-cased and stripped, and the `Game` constructor takes the already stripped name.
- `time.sleep` (Game.py:132, 216, 296) is pacing only.
- Room descriptions are left out: no logic reads them.
- The `while` of `game_loop`, plus `start_game` and `main`, loop on console input. The model gives one pass of the loop instead (`Turn`, `TurnAsWritten`). The loop's guard `not game_over and health > 0` is left to the caller.
- `random.randint` (Game.py:271, 285) is replaced by supplied rolls, as described above.
- `Dungeon.Game.constructor` merges `Game.__init__` with the creation of the player in `start_game`. The state where `self.player` is still `None` is not modelled.
- `Builtins.Lower`: folds only the ASCII letters `A`-`Z`. Python's `str.lower` also folds non-ASCII letters, which no name in the tables contains.
- `Dungeon.Game.GetRemainingEnemies`: the iteration order of the enemy dictionary's `values()` is modelled by the constant key list `enemyOrder`, which is the dictionary's insertion order.
- The enemies' names, attack, defense, rewards and maximum health are constants, because the source never assigns them after construction. Only `health` is a mutable field.
- `take_damage`'s return value is only printed by `combat`, so `FightOut` discards it. `Entities.Player.TakeDamage` still returns it.
- Combat leaves its loop with `break` on a victory and `return` on a defeat. Nothing follows the loop, so both have the same effect, and `FightOut` uses `break` for both.
- Python integers are unbounded, like Dafny's `int`, so no wrap-around needs modelling.

## Findings

| source | as written | input that shows it | evidently intended | confidence | as-written member | corrected member |
|---|---|---|---|---|---|---|
| Game.py:143-144 | The win test looks for "dragon" among the lower-cased names of the live enemies. The dragon's name lower-cases to "ancient dragon" and no enemy is called "dragon", so the test passes whenever the player is in "dragon_chamber". | From the initial session, "move north" three times (entrance, corridor, treasure room, dragon chamber): the game ends as won while the dragon still has 150 health. | The game is won in "dragon_chamber" only once the dragon is defeated. The victory text at Game.py:315 announces defeated enemies. | not executed; high | Rules.StepAsWritten, Scenarios.DragonAliveWinAsWritten | Rules.Step, Rules.WonIffDragonSlain |

`Rules.StepAsWritten` and `Dungeon.Game.TurnAsWritten` keep the test exactly
as the loop writes it. `Rules.Step` and `Dungeon.Game.Turn` use the
corrected test, which compares against "ancient dragon".
