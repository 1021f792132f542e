/**
 * The game controller: one object owning the player, the shared enemy
 * registry and the room table, with one method per command. Each method is
 * proved to change the session exactly as the matching function of `Rules`.
 */
module Dungeon {
  import opened Entities
  import opened Builtins
  import opened Fight
  import opened Commands
  import opened World
  import opened Rules

  class Game {
    const player: Player
    /** The registry; rooms refer to its entries by key, so a defeat is seen everywhere. */
    const enemies: map<string, Enemy>
    /** The registry's keys in insertion order, the order `values()` yields them. */
    const enemyOrder: seq<string>
    var rooms: map<string, Room>
    var currentRoom: string
    var gameOver: bool
    var roomsVisited: set<string>

    ghost function EnemyStates(): map<string, EnemyStats>
      reads enemies.Values
    {
      map k | k in enemies :: enemies[k].Stats()
    }

    /** The session as a value. */
    ghost function State(): GameState
      reads this, player, enemies.Values
    {
      GameState(player.Stats(), EnemyStates(), rooms, currentRoom, gameOver, roomsVisited)
    }

    ghost predicate Valid()
      reads this, player, enemies.Values
    {
      && WellFormed(State())
      && (forall j, k :: j in enemies && k in enemies && j != k ==> enemies[j] != enemies[k])
      && (forall k :: k in enemies <==> k in enemyOrder)
    }

    /** Sets up the tables and creates the player; an empty name becomes "Hero". */
    constructor (name: string)
      ensures Valid() && State() == InitialState()
      ensures player.name == (if name == "" then "Hero" else name)
      ensures fresh(player) && fresh(enemies.Values)
      ensures enemyOrder == ["goblin", "orc", "skeleton", "dragon"]
    {
      var registry, order := NewRegistry();
      enemies := registry;
      enemyOrder := order;
      player := new Player(if name == "" then "Hero" else name);
      rooms := InitialRooms();
      currentRoom := "entrance";
      gameOver := false;
      roomsVisited := {};
      new;
      assert EnemyStates() == Bestiary();
      assert State() == InitialState();
      InitialWellFormed();
    }

    /** The enemy registry: one new object per enemy, keyed in insertion order. */
    static method NewRegistry() returns (m: map<string, Enemy>, order: seq<string>)
      ensures fresh(m.Values)
      ensures (map k | k in m :: m[k].Stats()) == Bestiary()
      ensures forall j, k :: j in m && k in m && j != k ==> m[j] != m[k]
      ensures order == ["goblin", "orc", "skeleton", "dragon"]
      ensures forall k :: k in m <==> k in order
    {
      var goblin := new Enemy("Goblin", 30, 15, 2, 25, 15);
      var orc := new Enemy("Orc", 50, 25, 5, 50, 30);
      var skeleton := new Enemy("Skeleton", 40, 20, 3, 35, 20);
      var dragon := new Enemy("Ancient Dragon", 150, 40, 10, 200, 100);
      m := map["goblin" := goblin, "orc" := orc, "skeleton" := skeleton, "dragon" := dragon];
      order := ["goblin", "orc", "skeleton", "dragon"];
      RegistryFacts(m, order, goblin, orc, skeleton, dragon);
      ghost var stats := map k | k in m :: m[k].Stats();
      assert stats.Keys == Bestiary().Keys;
      assert stats["goblin"] == Bestiary()["goblin"];
      assert stats["orc"] == Bestiary()["orc"];
      assert stats["skeleton"] == Bestiary()["skeleton"];
      assert stats["dragon"] == Bestiary()["dragon"];
    }

    static lemma RegistryFacts(m: map<string, Enemy>, order: seq<string>, g: Enemy, o: Enemy, sk: Enemy, d: Enemy)
      requires m == map["goblin" := g, "orc" := o, "skeleton" := sk, "dragon" := d]
      requires order == ["goblin", "orc", "skeleton", "dragon"]
      requires g != o && g != sk && g != d && o != sk && o != d && sk != d
      ensures forall j, k :: j in m && k in m && j != k ==> m[j] != m[k]
      ensures forall k :: k in m <==> k in order
      ensures m.Values == {g, o, sk, d}
    {
      forall v | v in m.Values
        ensures v in {g, o, sk, d}
      {
        var k :| k in m && m[k] == v;
      }
      assert m["goblin"] == g && m["orc"] == o && m["skeleton"] == sk && m["dragon"] == d;
    }

    /** `move_player`. */
    method MovePlayer(direction: string)
      requires Valid()
      modifies this
      ensures Valid()
      ensures State() == MoveStep(old(State()), direction)
    {
      var room := rooms[currentRoom];
      if room.enemy.Some? && room.enemy.value != "" && room.enemy.value in enemies {
        var enemy := enemies[room.enemy.value];
        if enemy.health > 0 {
          return;
        }
      }
      if direction in room.exits {
        currentRoom := room.exits[direction];
        roomsVisited := roomsVisited + {currentRoom};
      }
      EnemiesUnchanged();
    }

    /** `take_item`. */
    method TakeItem(item: string)
      requires Valid()
      modifies this, player
      ensures Valid()
      ensures State() == TakeStep(old(State()), item)
    {
      ghost var s0 := State();
      var room := rooms[currentRoom];
      if item in room.items {
        rooms := rooms[currentRoom := room.(items := RemoveFirst(room.items, item))];
        player.inventory := player.inventory + [item];
        if item == "gold coins" {
          player.gold := player.gold + 25;
        }
      }
      EnemiesUnchanged();
      ghost var t := TakeStep(s0, item);
      assert player.Stats() == t.player;
      assert rooms == t.rooms;
      assert State() == t;
    }

    /** `use_item`. */
    method UseItem(item: string)
      requires Valid()
      modifies player
      ensures Valid()
      ensures State() == UseStep(old(State()), item)
    {
      if item !in player.inventory {
        return;
      }
      if Contains(item, "healing potion") {
        player.Heal(30);
        player.inventory := RemoveFirst(player.inventory, item);
      } else if item == "magic scroll" {
        player.attack := player.attack + 10;
        player.inventory := RemoveFirst(player.inventory, item);
      } else if item == "treasure chest" {
        player.gold := player.gold + 100;
        player.inventory := RemoveFirst(player.inventory, item);
      }
      EnemiesUnchanged();
    }

    /**
     * `combat`: fights the room's enemy to the end in a single call. The
     * rolls stand for `random.randint`; round `i` uses the `i`-th of each.
     */
    method Combat(playerRolls: seq<int>, enemyRolls: seq<int>)
      requires Valid()
      requires RollsSuffice(State(), playerRolls, enemyRolls)
      requires RollsInRange(State(), playerRolls, enemyRolls)
      modifies this, player, enemies.Values
      ensures Valid()
      ensures State() == CombatStep(old(State()), playerRolls, enemyRolls)
    {
      var room := rooms[currentRoom];
      if room.enemy.None? || room.enemy.value == "" || room.enemy.value !in enemies {
        return;
      }
      var enemy := enemies[room.enemy.value];
      if enemy.health <= 0 {
        return;
      }
      ghost var key := room.enemy.value;
      ghost var s0 := State();
      FightOut(enemy, playerRolls, enemyRolls);
      OnlyOneEnemyChanged(key);
      ghost var e0 := s0.enemies[key];
      ghost var outcome := Encounter(s0.player.health, s0.player.defense, e0.health, e0.defense, playerRolls, enemyRolls);
      ghost var t := CombatStep(s0, playerRolls, enemyRolls);
      assert BoundEnemy(s0) == Some(key);
      assert enemy.Stats() == e0.(health := outcome.enemyHealth);
      assert t.enemies == EnemyStates();
      assert t.player == player.Stats();
      assert t.gameOver == gameOver;
      assert State() == t;
    }

    /**
     * The rounds of `combat` against `enemy`, until one side falls: the
     * player strikes first, a victory pays the rewards, a defeat ends the game.
     */
    method FightOut(enemy: Enemy, playerRolls: seq<int>, enemyRolls: seq<int>)
      requires enemy.health <= |playerRolls| && enemy.health <= |enemyRolls|
      modifies player, enemy, this`gameOver
      ensures var out := Encounter(old(player.health), old(player.defense), old(enemy.health), enemy.defense,
                                   playerRolls, enemyRolls);
              && enemy.health == out.enemyHealth
              && player.Stats() == (var fought := old(player.Stats()).(health := out.playerHealth);
                                    if out.resolution.Victory? then Rewarded(fought, old(enemy.Stats())) else fought)
              && gameOver == (old(gameOver) || out.resolution.Defeat?)
    {
      ghost var p0 := player.Stats();
      ghost var h0 := enemy.health;
      ghost var outcome := Encounter(player.health, player.defense, enemy.health, enemy.defense, playerRolls, enemyRolls);
      var round := 0;
      while enemy.health > 0 && player.health > 0
        invariant 0 <= round <= |playerRolls| && round <= |enemyRolls|
        invariant enemy.health <= h0 - round
        invariant player.Stats() == p0.(health := player.health)
        invariant gameOver == old(gameOver)
        invariant outcome == AddRounds(Encounter(player.health, p0.defense, enemy.health, enemy.defense,
                                                 playerRolls[round..], enemyRolls[round..]), round)
        decreases enemy.health
      {
        assert playerRolls[round..][0] == playerRolls[round] && enemyRolls[round..][0] == enemyRolls[round];
        var damage := playerRolls[round];
        enemy.health := enemy.health - Mitigated(damage, enemy.defense);
        if enemy.health <= 0 {
          player.GainExp(enemy.expReward);
          player.gold := player.gold + enemy.goldReward;
          break;
        }
        var enemyDamage := enemyRolls[round];
        var _ := player.TakeDamage(enemyDamage);
        if player.health <= 0 {
          gameOver := true;
          break;
        }
        assert playerRolls[round..][1..] == playerRolls[round + 1..];
        assert enemyRolls[round..][1..] == enemyRolls[round + 1..];
        round := round + 1;
      }
    }

    /** A step that touches no enemy leaves the registry's state as it was. */
    twostate lemma EnemiesUnchanged()
      requires forall k :: k in enemies ==> unchanged(enemies[k])
      ensures EnemyStates() == old(EnemyStates())
    {
    }

    /** Changing the health of one registry entry changes that entry of `EnemyStates` only. */
    twostate lemma OnlyOneEnemyChanged(key: string)
      requires key in enemies
      requires forall j, k :: j in enemies && k in enemies && j != k ==> enemies[j] != enemies[k]
      requires forall k :: k in enemies && k != key ==> unchanged(enemies[k])
      ensures EnemyStates() == old(EnemyStates())[key := enemies[key].Stats()]
    {
      forall k | k in enemies
        ensures EnemyStates()[k] == old(EnemyStates())[key := enemies[key].Stats()][k]
      {
        if k != key {
          assert unchanged(enemies[k]);
          assert enemies[k].Stats() == old(enemies[k].Stats());
        }
      }
    }

    /** `quit_game`. */
    method QuitGame()
      requires Valid()
      modifies this
      ensures Valid()
      ensures State() == old(State()).(gameOver := true)
    {
      gameOver := true;
    }

    /** `win_game`, less its summary text. */
    method WinGame()
      requires Valid()
      modifies this
      ensures Valid()
      ensures State() == old(State()).(gameOver := true)
    {
      gameOver := true;
    }

    /** `process_choice` on a line that is already lower-cased and trimmed. */
    method ProcessChoice(choice: string, playerRolls: seq<int>, enemyRolls: seq<int>)
      requires Valid()
      requires Parse(choice).Attack? ==>
                 RollsSuffice(State(), playerRolls, enemyRolls) && RollsInRange(State(), playerRolls, enemyRolls)
      modifies this, player, enemies.Values
      ensures Valid()
      ensures State() == Dispatch(old(State()), choice, playerRolls, enemyRolls)
    {
      if StartsWith(choice, "move ") {
        MovePlayer(choice[5..]);
      } else if StartsWith(choice, "take ") {
        TakeItem(choice[5..]);
      } else if StartsWith(choice, "use ") {
        UseItem(choice[4..]);
      } else if choice == "attack" {
        Combat(playerRolls, enemyRolls);
      } else if choice == "inventory" {
        // show_inventory only prints
      } else if choice == "quit" {
        QuitGame();
      }
    }

    /** The live enemies among `keys`, in that order. */
    ghost function AliveIn(keys: seq<string>): seq<Enemy>
      requires forall k :: k in keys ==> k in enemies
      reads enemies.Values
    {
      if keys == [] then []
      else
        var last := enemies[keys[|keys| - 1]];
        AliveIn(keys[..|keys| - 1]) + (if last.health > 0 then [last] else [])
    }

    lemma {:induction false} AliveInMembers(keys: seq<string>)
      requires forall k :: k in keys ==> k in enemies
      ensures forall e: Enemy :: e in AliveIn(keys) <==> e.health > 0 && exists k :: k in keys && enemies[k] == e
    {
      if keys != [] {
        var init := keys[..|keys| - 1];
        AliveInMembers(init);
        forall e: Enemy | e.health > 0 && exists k :: k in keys && enemies[k] == e
          ensures e in AliveIn(keys)
        {
          var k :| k in keys && enemies[k] == e;
          if k !in init {
            assert keys == init + [keys[|keys| - 1]];
            assert k == keys[|keys| - 1];
          }
        }
      }
    }

    /** `get_remaining_enemies`: the registry's live enemies, in registry order. */
    method GetRemainingEnemies() returns (remaining: seq<Enemy>)
      requires Valid()
      ensures remaining == AliveIn(enemyOrder)
      ensures forall e :: e in remaining <==> e in enemies.Values && e.health > 0
    {
      remaining := [];
      var i := 0;
      while i < |enemyOrder|
        invariant 0 <= i <= |enemyOrder|
        invariant remaining == AliveIn(enemyOrder[..i])
      {
        assert enemyOrder[..i + 1][..i] == enemyOrder[..i];
        var enemy := enemies[enemyOrder[i]];
        if enemy.health > 0 {
          remaining := remaining + [enemy];
        }
        i := i + 1;
      }
      assert enemyOrder[..i] == enemyOrder;
      AliveInMembers(enemyOrder);
    }

    /** The lower-cased names of the live enemies are exactly `AliveNames` of the state. */
    lemma RemainingNames(remaining: seq<Enemy>, names: seq<string>)
      requires Valid()
      requires forall e :: e in remaining <==> e in enemies.Values && e.health > 0
      requires |names| == |remaining|
      requires forall i :: 0 <= i < |names| ==> names[i] == Lower(remaining[i].name)
      ensures forall n :: n in names <==> n in AliveNames(State())
    {
      forall n | n in names
        ensures n in AliveNames(State())
      {
        var i :| 0 <= i < |names| && names[i] == n;
        assert remaining[i] in enemies.Values;
        var k :| k in enemies && enemies[k] == remaining[i];
        assert State().enemies[k] == remaining[i].Stats();
      }
      forall n | n in AliveNames(State())
        ensures n in names
      {
        var k :| k in State().enemies && State().enemies[k].health > 0 && Lower(State().enemies[k].name) == n;
        var e := enemies[k];
        assert e in remaining;
        var i :| 0 <= i < |remaining| && remaining[i] == e;
        assert names[i] == n;
      }
    }

    /** The lower-cased names of the live enemies, as the win test builds them. */
    method RemainingNamesLowered() returns (names: seq<string>)
      requires Valid()
      ensures forall n :: n in names <==> n in AliveNames(State())
    {
      var remaining := GetRemainingEnemies();
      names := seq(|remaining|, i requires 0 <= i < |remaining| => Lower(remaining[i].name));
      RemainingNames(remaining, names);
    }

    /** The win test exactly as the game loop writes it. */
    method CheckWinAsWritten()
      requires Valid()
      modifies this
      ensures Valid()
      ensures State() == WinCheckAsWritten(old(State()))
    {
      var names := RemainingNamesLowered();
      if currentRoom == "dragon_chamber" && "dragon" !in names {
        WinGame();
      }
    }

    /** The win test with the dragon's lower-cased name, "ancient dragon". */
    method CheckWin()
      requires Valid()
      modifies this
      ensures Valid()
      ensures State() == WinCheck(old(State()))
    {
      var names := RemainingNamesLowered();
      if currentRoom == "dragon_chamber" && "ancient dragon" !in names {
        WinGame();
      }
    }

    /** One pass of `game_loop` as written. */
    method TurnAsWritten(choice: string, playerRolls: seq<int>, enemyRolls: seq<int>)
      requires Valid()
      requires Parse(choice).Attack? ==>
                 RollsSuffice(State(), playerRolls, enemyRolls) && RollsInRange(State(), playerRolls, enemyRolls)
      modifies this, player, enemies.Values
      ensures Valid()
      ensures State() == StepAsWritten(old(State()), choice, playerRolls, enemyRolls)
    {
      ProcessChoice(choice, playerRolls, enemyRolls);
      CheckWinAsWritten();
    }

    /** One pass of `game_loop`: a command, then the (corrected) win test. */
    method Turn(choice: string, playerRolls: seq<int>, enemyRolls: seq<int>)
      requires Valid()
      requires Parse(choice).Attack? ==>
                 RollsSuffice(State(), playerRolls, enemyRolls) && RollsInRange(State(), playerRolls, enemyRolls)
      modifies this, player, enemies.Values
      ensures Valid()
      ensures State() == Step(old(State()), choice, playerRolls, enemyRolls)
    {
      ProcessChoice(choice, playerRolls, enemyRolls);
      CheckWin();
    }
  }
}
