/**
 * What each command does to the session, as functions on `GameState`. The
 * methods of `Dungeon.Game` are proved to have exactly these effects.
 */
module Rules {
  import opened Entities
  import opened Builtins
  import opened Fight
  import opened Commands
  import opened World

  /**
   * The registry key of the enemy bound to the current room, if the room names
   * one (a non-empty key, so truthy) that the registry holds.
   */
  function BoundEnemy(s: GameState): (r: Option<string>)
    requires s.currentRoom in s.rooms
    ensures r.Some? ==> r == s.rooms[s.currentRoom].enemy && r.value in s.enemies && r.value != ""
    ensures r.None? ==> s.rooms[s.currentRoom].enemy.None? || s.rooms[s.currentRoom].enemy.value == ""
                        || s.rooms[s.currentRoom].enemy.value !in s.enemies
  {
    var e := s.rooms[s.currentRoom].enemy;
    if e.Some? && e.value != "" && e.value in s.enemies then e else None
  }

  /** The current room's enemy is alive. */
  predicate Blocked(s: GameState)
    requires s.currentRoom in s.rooms
  {
    BoundEnemy(s).Some? && s.enemies[BoundEnemy(s).value].health > 0
  }

  /** `move <direction>`: refused while the room's enemy lives, otherwise follow the exit if there is one. */
  function MoveStep(s: GameState, direction: string): (r: GameState)
    requires s.currentRoom in s.rooms
    ensures r == s.(currentRoom := r.currentRoom, visited := r.visited)
    ensures Blocked(s) || direction !in s.rooms[s.currentRoom].exits ==> r == s
    ensures !Blocked(s) && direction in s.rooms[s.currentRoom].exits ==>
              r.currentRoom == s.rooms[s.currentRoom].exits[direction] && r.visited == s.visited + {r.currentRoom}
    ensures WellFormed(s) ==> WellFormed(r)
  {
    var room := s.rooms[s.currentRoom];
    if Blocked(s) then s
    else if direction in room.exits then
      var next := room.exits[direction];
      s.(currentRoom := next, visited := s.visited + {next})
    else s
  }

  /** `take <item>`: the item moves from the room to the end of the inventory; gold coins also pay 25. */
  function TakeStep(s: GameState, item: string): (r: GameState)
    requires s.currentRoom in s.rooms
    ensures r.enemies == s.enemies && r.currentRoom == s.currentRoom && r.gameOver == s.gameOver && r.visited == s.visited
    ensures SameLayout(s.rooms, r.rooms)
    ensures forall k :: k in s.rooms && k != s.currentRoom ==> r.rooms[k] == s.rooms[k]
    ensures item !in s.rooms[s.currentRoom].items ==> r == s
    ensures item in s.rooms[s.currentRoom].items ==>
              && multiset(r.rooms[s.currentRoom].items) == multiset(s.rooms[s.currentRoom].items) - multiset{item}
              && r.player.inventory == s.player.inventory + [item]
              && r.player.gold == s.player.gold + (if item == "gold coins" then 25 else 0)
              && r.player == s.player.(inventory := r.player.inventory, gold := r.player.gold)
    ensures multiset(r.rooms[s.currentRoom].items) + multiset(r.player.inventory)
            == multiset(s.rooms[s.currentRoom].items) + multiset(s.player.inventory)
    ensures WellFormed(s) ==> WellFormed(r)
  {
    var room := s.rooms[s.currentRoom];
    if item in room.items then
      var left := RemoveFirst(room.items, item);
      ItemsReplaced(s.rooms, s.currentRoom, left);
      var p := s.player.(inventory := s.player.inventory + [item]);
      s.(rooms := s.rooms[s.currentRoom := room.(items := left)],
         player := if item == "gold coins" then p.(gold := p.gold + 25) else p)
    else s
  }

  /** Items that `use` acts on (and then uses up). */
  predicate Usable(item: string) {
    Contains(item, "healing potion") || item == "magic scroll" || item == "treasure chest"
  }

  /** Neither the scroll nor the chest falls under the healing-potion rule. */
  lemma NotPotions()
    ensures !Contains("magic scroll", "healing potion")
    ensures !Contains("treasure chest", "healing potion")
  {
    assert "treasure chest"[..14][0] == 't';
  }

  /**
   * `use <item>`: any owned item whose name contains "healing potion" heals 30,
   * a magic scroll adds 10 attack, a treasure chest 100 gold; one copy is used up.
   */
  function UseStep(s: GameState, item: string): (r: GameState)
    ensures r == s.(player := r.player)
    ensures item !in s.player.inventory || !Usable(item) ==> r == s
    ensures item in s.player.inventory && Usable(item) ==>
              multiset(r.player.inventory) == multiset(s.player.inventory) - multiset{item}
    ensures item in s.player.inventory && Occurs("healing potion", item) ==>
              r.player == Healed(s.player, 30).(inventory := r.player.inventory)
    ensures item in s.player.inventory && item == "magic scroll" ==>
              r.player == s.player.(attack := s.player.attack + 10, inventory := r.player.inventory)
    ensures item in s.player.inventory && item == "treasure chest" ==>
              r.player == s.player.(gold := s.player.gold + 100, inventory := r.player.inventory)
    ensures WellFormed(s) ==> WellFormed(r)
  {
    ContainsOccurs(item, "healing potion");
    NotPotions();
    var p := s.player;
    if item !in p.inventory then s
    else if Contains(item, "healing potion") then
      s.(player := Healed(p, 30).(inventory := RemoveFirst(p.inventory, item)))
    else if item == "magic scroll" then
      s.(player := p.(attack := p.attack + 10, inventory := RemoveFirst(p.inventory, item)))
    else if item == "treasure chest" then
      s.(player := p.(gold := p.gold + 100, inventory := RemoveFirst(p.inventory, item)))
    else s
  }

  /** Enough rolls for any encounter with the current room's enemy (it loses at least 1 per round). */
  predicate RollsSuffice(s: GameState, playerRolls: seq<int>, enemyRolls: seq<int>)
    requires s.currentRoom in s.rooms
  {
    BoundEnemy(s).Some? ==>
      var e := s.enemies[BoundEnemy(s).value];
      e.health <= |playerRolls| && e.health <= |enemyRolls|
  }

  /** The rolls `random.randint` can produce: attack +-5 for the player, attack +-3 for the enemy. */
  predicate RollsInRange(s: GameState, playerRolls: seq<int>, enemyRolls: seq<int>)
    requires s.currentRoom in s.rooms
  {
    && RollsWithin(playerRolls, s.player.attack - 5, s.player.attack + 5)
    && (BoundEnemy(s).Some? ==>
          var e := s.enemies[BoundEnemy(s).value];
          RollsWithin(enemyRolls, e.attack - 3, e.attack + 3))
  }

  /** The player after a won encounter: experience through `gain_exp`, then the gold. */
  function Rewarded(p: PlayerStats, e: EnemyStats): (r: PlayerStats)
    ensures r.experience == p.experience + e.expReward && r.gold == p.gold + e.goldReward
    ensures r.inventory == p.inventory
    ensures p.experience + e.expReward < Threshold(p.level) ==>
              r == p.(experience := r.experience, gold := r.gold)
    ensures p.experience + e.expReward >= Threshold(p.level) ==>
              r == LevelledUp(p).(experience := r.experience, gold := r.gold)
    ensures HealthCapped(p) ==> HealthCapped(r)
  {
    var q := WithExp(p, e.expReward);
    q.(gold := q.gold + e.goldReward)
  }

  /**
   * The fight loop of `combat` against registry entry `k`: the encounter's
   * healths are written back, a victory pays the enemy's rewards once through
   * `gain_exp`, and a defeat ends the game.
   */
  function Engage(s: GameState, k: string, playerRolls: seq<int>, enemyRolls: seq<int>): (r: GameState)
    requires k in s.enemies
    requires s.enemies[k].health <= |playerRolls| && s.enemies[k].health <= |enemyRolls|
    ensures r.rooms == s.rooms && r.currentRoom == s.currentRoom && r.visited == s.visited
    ensures r.enemies.Keys == s.enemies.Keys
    ensures r.enemies == s.enemies[k := r.enemies[k]] && r.enemies[k] == s.enemies[k].(health := r.enemies[k].health)
    ensures var e := s.enemies[k];
            var out := Encounter(s.player.health, s.player.defense, e.health, e.defense, playerRolls, enemyRolls);
            && r.enemies[k].health == out.enemyHealth
            && r.player == (if out.resolution.Victory? then Rewarded(s.player.(health := out.playerHealth), e)
                            else s.player.(health := out.playerHealth))
            && r.gameOver == (s.gameOver || out.resolution.Defeat?)
    ensures s.enemies[k].health <= 0 || s.player.health <= 0 ==> r == s
  {
    var e := s.enemies[k];
    var out := Encounter(s.player.health, s.player.defense, e.health, e.defense, playerRolls, enemyRolls);
    var fought := s.(player := s.player.(health := out.playerHealth),
                     enemies := s.enemies[k := e.(health := out.enemyHealth)]);
    match out.resolution
    case Victory => fought.(player := Rewarded(fought.player, e))
    case Defeat => fought.(gameOver := true)
    case NoCombat => fought
  }

  /**
   * `attack`: with a live enemy bound to the room, the whole encounter is
   * fought out. A victory pays the enemy's rewards once; a defeat ends the game.
   */
  function CombatStep(s: GameState, playerRolls: seq<int>, enemyRolls: seq<int>): (r: GameState)
    requires s.currentRoom in s.rooms
    requires RollsSuffice(s, playerRolls, enemyRolls)
    ensures r.rooms == s.rooms && r.currentRoom == s.currentRoom && r.visited == s.visited
    ensures r.player.inventory == s.player.inventory
    ensures OnlyWeakened(s.enemies, r.enemies)
    ensures forall k :: k in s.enemies && BoundEnemy(s) != Some(k) ==> r.enemies[k] == s.enemies[k]
    ensures !Blocked(s) || s.player.health <= 0 ==> r == s
    ensures Blocked(s) && s.player.health > 0 ==> r == Engage(s, BoundEnemy(s).value, playerRolls, enemyRolls)
    ensures Blocked(s) && s.player.health > 0 ==>
              var k := BoundEnemy(s).value;
              var e := s.enemies[k];
              || (&& r.enemies[k].health <= 0
                  && r.player.experience == s.player.experience + e.expReward
                  && r.player.gold == s.player.gold + e.goldReward
                  && r.gameOver == s.gameOver)
              || (&& r.player.health <= 0 < r.enemies[k].health
                  && r.player == s.player.(health := r.player.health)
                  && r.gameOver)
    ensures WellFormed(s) ==> WellFormed(r)
    ensures HealthCapped(s.player) && s.player.health > 0 && r.player.health <= 0 ==> r.gameOver
  {
    match BoundEnemy(s)
    case None => s
    case Some(k) => Engage(s, k, playerRolls, enemyRolls)
  }

  /** One command, dispatched on the line as `process_choice` does. */
  function Dispatch(s: GameState, choice: string, playerRolls: seq<int>, enemyRolls: seq<int>): (r: GameState)
    requires s.currentRoom in s.rooms
    requires Parse(choice).Attack? ==> RollsSuffice(s, playerRolls, enemyRolls)
    ensures Parse(choice).ShowInventory? || Parse(choice).Invalid? ==> r == s
    ensures Parse(choice).Quit? ==> r == s.(gameOver := true)
    ensures OnlyWeakened(s.enemies, r.enemies)
    ensures SameLayout(s.rooms, r.rooms)
    ensures s.gameOver ==> r.gameOver
    ensures WellFormed(s) ==> WellFormed(r)
    ensures WellFormed(s) && s.player.health > 0 && r.player.health <= 0 ==> r.gameOver
  {
    match Parse(choice)
    case Move(direction) => MoveStep(s, direction)
    case Take(item) => TakeStep(s, item)
    case Use(item) => UseStep(s, item)
    case Attack => CombatStep(s, playerRolls, enemyRolls)
    case ShowInventory => s
    case Quit => s.(gameOver := true)
    case Invalid => s
  }

  /** The lower-cased names of the enemies still alive (`get_remaining_enemies`). */
  function AliveNames(s: GameState): set<string> {
    set k | k in s.enemies && s.enemies[k].health > 0 :: Lower(s.enemies[k].name)
  }

  /** The win test as the loop writes it: "dragon" is compared with lower-cased enemy names. */
  predicate WinAsWritten(s: GameState) {
    s.currentRoom == "dragon_chamber" && "dragon" !in AliveNames(s)
  }

  /** The win test with the dragon's own name: the player stands in its chamber and it is dead. */
  predicate Won(s: GameState) {
    s.currentRoom == "dragon_chamber" && "ancient dragon" !in AliveNames(s)
  }

  lemma LowerNames()
    ensures Lower("Goblin") == "goblin" && Lower("Orc") == "orc"
    ensures Lower("Skeleton") == "skeleton" && Lower("Ancient Dragon") == "ancient dragon"
  {
  }

  /** No enemy of the registry is called "dragon", so the written test only looks at the room. */
  lemma WinAsWrittenIgnoresDragon(s: GameState)
    requires WellFormed(s)
    ensures WinAsWritten(s) <==> s.currentRoom == "dragon_chamber"
  {
    LowerNames();
    assert "goblin" != "dragon";
    assert forall k :: k in s.enemies ==> Lower(s.enemies[k].name) != "dragon";
  }

  /** The corrected test holds exactly when the player stands over the dead dragon. */
  lemma WonIffDragonSlain(s: GameState)
    requires WellFormed(s)
    ensures Won(s) <==> s.currentRoom == "dragon_chamber" && s.enemies["dragon"].health <= 0
  {
    LowerNames();
    assert forall k :: k in s.enemies && k != "dragon" ==> Lower(s.enemies[k].name) != "ancient dragon";
    if s.enemies["dragon"].health > 0 {
      assert Lower(s.enemies["dragon"].name) in AliveNames(s);
    }
  }

  function WinCheckAsWritten(s: GameState): (r: GameState)
    ensures r == s.(gameOver := r.gameOver)
    ensures r.gameOver == (s.gameOver || WinAsWritten(s))
  {
    if WinAsWritten(s) then s.(gameOver := true) else s
  }

  function WinCheck(s: GameState): (r: GameState)
    ensures r == s.(gameOver := r.gameOver)
    ensures r.gameOver == (s.gameOver || Won(s))
  {
    if Won(s) then s.(gameOver := true) else s
  }

  /** One pass of the game loop as written: a command, then the written win test. */
  function StepAsWritten(s: GameState, choice: string, playerRolls: seq<int>, enemyRolls: seq<int>): (r: GameState)
    requires s.currentRoom in s.rooms
    requires Parse(choice).Attack? ==> RollsSuffice(s, playerRolls, enemyRolls)
    ensures WellFormed(s) ==> WellFormed(r)
    ensures WellFormed(s) && r.currentRoom == "dragon_chamber" ==> r.gameOver
  {
    var t := Dispatch(s, choice, playerRolls, enemyRolls);
    if WellFormed(t) then
      WinAsWrittenIgnoresDragon(t);
      WinCheckAsWritten(t)
    else
      WinCheckAsWritten(t)
  }

  /** One pass of the game loop: a command, then the win check. */
  function Step(s: GameState, choice: string, playerRolls: seq<int>, enemyRolls: seq<int>): (r: GameState)
    requires s.currentRoom in s.rooms
    requires Parse(choice).Attack? ==> RollsSuffice(s, playerRolls, enemyRolls)
    ensures OnlyWeakened(s.enemies, r.enemies)
    ensures SameLayout(s.rooms, r.rooms)
    ensures s.gameOver ==> r.gameOver
    ensures WellFormed(s) ==> WellFormed(r)
    ensures WellFormed(s) && s.player.health > 0 && r.player.health <= 0 ==> r.gameOver
    ensures WellFormed(s) && r.currentRoom == "dragon_chamber" && r.enemies["dragon"].health <= 0 ==> r.gameOver
  {
    var t := Dispatch(s, choice, playerRolls, enemyRolls);
    if WellFormed(t) then
      WonIffDragonSlain(t);
      WinCheck(t)
    else
      WinCheck(t)
  }
}
