/**
 * Concrete sessions played from the start, worked out on the step functions
 * that the `Dungeon.Game` methods are proved to follow. Each scenario takes
 * its starting state as a parameter fixed by its precondition.
 */
module Scenarios {
  import opened Entities
  import opened Builtins
  import opened Fight
  import opened Commands
  import opened World
  import opened Rules
  import opened Dungeon

  /** Rolls for the goblin fight, inside both `randint` ranges. */
  function HeroRolls(): seq<int> {
    seq(30, _ => 25)
  }

  function GoblinRolls(): seq<int> {
    seq(30, _ => 18)
  }

  /** A `move` line is a move followed by the corrected win test. */
  lemma StepMoves(s: GameState, d: string)
    requires WellFormed(s)
    ensures Step(s, "move " + d, [], []) == WinCheck(MoveStep(s, d))
  {
    ParseRender(Move(d));
  }

  /** A `move` line is a move followed by the written win test. */
  lemma StepAsWrittenMoves(s: GameState, d: string)
    requires WellFormed(s)
    ensures StepAsWritten(s, "move " + d, [], []) == WinCheckAsWritten(MoveStep(s, d))
  {
    ParseRender(Move(d));
  }

  /** Proof aid: the move lines of the scenarios, spelled as the parser splits them. */
  lemma MoveLines()
    ensures "move " + "north" == "move north" && "move " + "west" == "move west" && "move " + "east" == "move east"
  {
  }

  /** The move lines of the walk are not attacks, so they need no rolls. */
  lemma MovesNotAttack()
    ensures !Parse("move north").Attack? && !Parse("move west").Attack? && !Parse("move east").Attack?
  {
    MoveLines();
    ParseRender(Move("north"));
    ParseRender(Move("west"));
    ParseRender(Move("east"));
  }

  /** Proof aid: the potion line of the scenarios, spelled as the parser splits it. */
  lemma UseLine()
    ensures "use " + "healing potion" == "use healing potion"
  {
  }

  /** The player after walking into `target`. */
  function Moved(s: GameState, target: string): GameState {
    s.(currentRoom := target, visited := s.visited + {target})
  }

  /** The exits and bindings of the rooms the scenarios walk through, as the initial table has them. */
  predicate Paths(rooms: map<string, Room>) {
    && "entrance" in rooms && "corridor" in rooms && "treasure_room" in rooms && "goblin_den" in rooms
    && rooms["entrance"].enemy == None && rooms["entrance"].exits.Keys >= {"north"}
    && rooms["entrance"].exits["north"] == "corridor"
    && rooms["corridor"].enemy == None && rooms["corridor"].exits.Keys >= {"north", "west"}
    && rooms["corridor"].exits["north"] == "treasure_room" && rooms["corridor"].exits["west"] == "goblin_den"
    && rooms["treasure_room"].enemy == None && rooms["treasure_room"].exits.Keys >= {"north"}
    && rooms["treasure_room"].exits["north"] == "dragon_chamber"
    && rooms["goblin_den"].enemy == Some("goblin") && rooms["goblin_den"].exits.Keys >= {"east"}
    && rooms["goblin_den"].exits["east"] == "corridor"
  }

  lemma InitialPaths()
    ensures Paths(InitialRooms())
  {
  }

  /** Following an open exit to `target`, under the corrected win test. */
  lemma Walk(s: GameState, d: string, target: string)
    requires WellFormed(s) && !Blocked(s)
    requires d in s.rooms[s.currentRoom].exits && s.rooms[s.currentRoom].exits[d] == target
    requires target != "dragon_chamber" || s.enemies["dragon"].health > 0
    ensures Step(s, "move " + d, [], []) == Moved(s, target) && WellFormed(Moved(s, target))
  {
    StepMoves(s, d);
    WonIffDragonSlain(MoveStep(s, d));
  }

  /** Following an open exit to `target`, under the written win test. */
  lemma WalkAsWritten(s: GameState, d: string, target: string)
    requires WellFormed(s) && !Blocked(s)
    requires d in s.rooms[s.currentRoom].exits && s.rooms[s.currentRoom].exits[d] == target
    ensures StepAsWritten(s, "move " + d, [], [])
            == Moved(s, target).(gameOver := s.gameOver || target == "dragon_chamber")
    ensures WellFormed(Moved(s, target))
  {
    StepAsWrittenMoves(s, d);
    WinAsWrittenIgnoresDragon(MoveStep(s, d));
  }

  /**
   * From the entrance, walking north three times reaches the dragon's chamber
   * with the dragon untouched, and the written win test ends the game there.
   */
  lemma DragonAliveWinAsWritten(s0: GameState)
    requires WellFormed(s0) && s0.currentRoom == "entrance" && Paths(s0.rooms)
    ensures var s1 := Moved(s0, "corridor");
            var s2 := Moved(s1, "treasure_room");
            var s3 := Moved(s2, "dragon_chamber");
            && StepAsWritten(s0, "move north", [], []) == s1.(gameOver := s0.gameOver)
            && StepAsWritten(s1, "move north", [], []) == s2.(gameOver := s0.gameOver)
            && StepAsWritten(s2, "move north", [], []) == s3.(gameOver := true)
            && s3.enemies == s0.enemies
  {
    MoveLines();
    WalkAsWritten(s0, "north", "corridor");
    var s1 := Moved(s0, "corridor");
    WalkAsWritten(s1, "north", "treasure_room");
    var s2 := Moved(s1, "treasure_room");
    WalkAsWritten(s2, "north", "dragon_chamber");
  }

  /** The initial session meets the preconditions of the walks: the dragon is at full health. */
  lemma StartsAtEntrance()
    ensures var s0 := InitialState();
            && WellFormed(s0) && s0.currentRoom == "entrance" && Paths(s0.rooms)
            && s0.enemies["dragon"].health == 150 && !s0.gameOver && s0.visited == {}
            && s0.player == NewPlayer()
            && "goblin" in s0.enemies && s0.enemies["goblin"] == EnemyStats("Goblin", 30, 30, 15, 2, 25, 15)
  {
    InitialWellFormed();
    InitialPaths();
  }

  /** The same walk under the corrected test leaves a live dragon's game running. */
  lemma DragonAliveNoWin(s0: GameState)
    requires WellFormed(s0) && s0.currentRoom == "entrance" && Paths(s0.rooms)
    requires s0.enemies["dragon"].health > 0
    ensures var s1 := Moved(s0, "corridor");
            var s2 := Moved(s1, "treasure_room");
            var s3 := Moved(s2, "dragon_chamber");
            && Step(s0, "move north", [], []) == s1
            && Step(s1, "move north", [], []) == s2
            && Step(s2, "move north", [], []) == s3
  {
    MoveLines();
    Walk(s0, "north", "corridor");
    var s1 := Moved(s0, "corridor");
    Walk(s1, "north", "treasure_room");
    var s2 := Moved(s1, "treasure_room");
    Walk(s2, "north", "dragon_chamber");
  }

  /** The goblin falls in the second round: 23 damage a blow against its 30 health, 13 back. */
  lemma GoblinEncounter()
    ensures Encounter(100, 5, 30, 2, HeroRolls(), GoblinRolls()) == Outcome(Victory, 2, 87, -16)
  {
    var p := HeroRolls();
    var e := GoblinRolls();
    assert p[0] == 25 && e[0] == 18;
    assert p[1..][0] == 25;
    assert Encounter(87, 5, 7, 2, p[1..], e[1..]) == Outcome(Victory, 1, 87, -16);
  }

  /** A session standing in the goblin's den with a fresh player and the goblin unhurt. */
  predicate InDen(s: GameState) {
    && WellFormed(s) && s.currentRoom == "goblin_den" && Paths(s.rooms) && !s.gameOver
    && s.player == NewPlayer()
    && "goblin" in s.enemies && s.enemies["goblin"] == EnemyStats("Goblin", 30, 30, 15, 2, 25, 15)
  }

  lemma ReachDen(s0: GameState)
    requires WellFormed(s0) && s0.currentRoom == "entrance" && Paths(s0.rooms)
    ensures var s1 := Moved(s0, "corridor");
            && Step(s0, "move north", [], []) == s1
            && Step(s1, "move west", [], []) == Moved(s1, "goblin_den")
  {
    MoveLines();
    Walk(s0, "north", "corridor");
    var s1 := Moved(s0, "corridor");
    Walk(s1, "west", "goblin_den");
  }

  /** The live goblin bars the way out of its den. */
  lemma GoblinBlocks(s: GameState)
    requires InDen(s)
    ensures Step(s, "move east", [], []) == s
  {
    assert BoundEnemy(s) == Some("goblin");
    MoveLines();
    StepMoves(s, "east");
    WonIffDragonSlain(s);
  }

  /** An `attack` line is a combat followed by the corrected win test. */
  lemma StepAttacks(s: GameState, playerRolls: seq<int>, enemyRolls: seq<int>)
    requires WellFormed(s) && RollsSuffice(s, playerRolls, enemyRolls)
    ensures Step(s, "attack", playerRolls, enemyRolls) == WinCheck(CombatStep(s, playerRolls, enemyRolls))
  {
    ParseRender(Attack);
  }

  /** A won encounter against the room's enemy `k`, as `CombatStep` records it. */
  lemma CombatWon(s: GameState, k: string, playerRolls: seq<int>, enemyRolls: seq<int>, o: Outcome)
    requires s.currentRoom in s.rooms && RollsSuffice(s, playerRolls, enemyRolls)
    requires BoundEnemy(s) == Some(k) && s.enemies[k].health > 0
    requires o == Encounter(s.player.health, s.player.defense, s.enemies[k].health, s.enemies[k].defense,
                            playerRolls, enemyRolls)
    requires o.resolution == Victory
    ensures CombatStep(s, playerRolls, enemyRolls)
            == s.(player := Rewarded(s.player.(health := o.playerHealth), s.enemies[k]),
                  enemies := s.enemies[k := s.enemies[k].(health := o.enemyHealth)])
  {
  }

  /** The goblin-fight rolls are long enough and lie in the `randint` ranges of the den. */
  lemma DenRolls(s: GameState)
    requires InDen(s)
    ensures RollsSuffice(s, HeroRolls(), GoblinRolls()) && RollsInRange(s, HeroRolls(), GoblinRolls())
  {
    assert BoundEnemy(s) == Some("goblin");
  }

  /** The session right after the goblin falls. */
  function AfterGoblin(s: GameState): GameState
    requires "goblin" in s.enemies
  {
    s.(player := s.player.(health := 87, experience := 25, gold := 65),
       enemies := s.enemies["goblin" := s.enemies["goblin"].(health := -16)])
  }

  /** Beating the goblin pays 25 experience and 15 gold once and leaves the player at level 1. */
  lemma GoblinFight(s: GameState)
    requires InDen(s)
    ensures var t := AfterGoblin(s);
            && Step(s, "attack", HeroRolls(), GoblinRolls()) == t
            && WellFormed(t) && !t.gameOver && t.player.level == 1
  {
    GoblinEncounter();
    assert BoundEnemy(s) == Some("goblin");
    StepAttacks(s, HeroRolls(), GoblinRolls());
    CombatWon(s, "goblin", HeroRolls(), GoblinRolls(), Outcome(Victory, 2, 87, -16));
    var t := CombatStep(s, HeroRolls(), GoblinRolls());
    assert t == AfterGoblin(s);
    WonIffDragonSlain(t);
  }

  /** With the goblin down, the way east out of the den is open. */
  lemma GoblinLeaves(s: GameState)
    requires InDen(s)
    ensures var t := AfterGoblin(s);
            Step(t, "move east", [], []) == Moved(t, "corridor")
  {
    GoblinFight(s);
    var t := AfterGoblin(s);
    assert BoundEnemy(t) == Some("goblin");
    assert !Blocked(t);
    MoveLines();
    Walk(t, "east", "corridor");
  }

  /** Away from the dragon's chamber, a `use` line is exactly the item rule. */
  lemma StepUses(s: GameState, item: string)
    requires WellFormed(s) && s.currentRoom != "dragon_chamber"
    ensures Step(s, "use " + item, [], []) == UseStep(s, item)
  {
    ParseRender(Use(item));
    WonIffDragonSlain(UseStep(s, item));
  }

  /** A potion carried as the second item heals to a ceiling of 100 and is used up. */
  lemma PotionHeals(t: GameState)
    requires WellFormed(t) && t.currentRoom != "dragon_chamber"
    requires t.player.inventory == ["rusty sword", "healing potion"]
    requires t.player.maxHealth == 100 && 70 <= t.player.health
    ensures Step(t, "use healing potion", [], []) == t.(player := t.player.(health := 100, inventory := ["rusty sword"]))
  {
    UseLine();
    StepUses(t, "healing potion");
    assert StartsWith("healing potion", "healing potion");
    assert RemoveFirst(["rusty sword", "healing potion"], "healing potion") == ["rusty sword"];
  }

  /** Without a potion carried, using one changes nothing. */
  lemma NoPotionLeft(u: GameState)
    requires WellFormed(u) && u.currentRoom != "dragon_chamber"
    requires u.player.inventory == ["rusty sword"]
    ensures Step(u, "use healing potion", [], []) == u
  {
    UseLine();
    StepUses(u, "healing potion");
  }

  /** After the fight the first potion heals to the ceiling; the second use finds none left. */
  lemma PotionOnce(s: GameState)
    requires InDen(s)
    ensures var t := AfterGoblin(s);
            var u := t.(player := t.player.(health := 100, inventory := ["rusty sword"]));
            && Step(t, "use healing potion", [], []) == u
            && Step(u, "use healing potion", [], []) == u
  {
    GoblinFight(s);
    var t := AfterGoblin(s);
    PotionHeals(t);
    NoPotionLeft(t.(player := t.player.(health := 100, inventory := ["rusty sword"])));
  }

  /** A new game whose player has walked into the goblin's den. */
  method EnterDen() returns (g: Game)
    ensures fresh(g) && fresh(g.player) && fresh(g.enemies.Values)
    ensures g.Valid() && InDen(g.State())
  {
    g := new Game("Hero");
    ghost var s0 := g.State();
    StartsAtEntrance();
    ReachDen(s0);
    MovesNotAttack();
    g.Turn("move north", [], []);
    g.Turn("move west", [], []);
    assert g.State() == Moved(Moved(s0, "corridor"), "goblin_den");
  }

  /** The goblin fight played on the game object: the player wins and walks back out. */
  method PlayGoblinDen() returns (health: int, gold: int, experience: int, room: string)
    ensures health == 87 && gold == 65 && experience == 25 && room == "corridor"
  {
    var g := EnterDen();
    ghost var s := g.State();
    DenRolls(s);
    GoblinFight(s);
    g.Turn("attack", HeroRolls(), GoblinRolls());
    assert g.State() == AfterGoblin(s);
    GoblinLeaves(s);
    MovesNotAttack();
    g.Turn("move east", [], []);
    assert g.State() == Moved(AfterGoblin(s), "corridor");
    health := g.player.health;
    gold := g.player.gold;
    experience := g.player.experience;
    room := g.currentRoom;
  }
}
