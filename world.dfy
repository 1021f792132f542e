/**
 * The fixed world of the dungeon: its rooms, its enemy registry, and the
 * value-level state of one session.
 */
module World {
  import opened Entities

  datatype Option<T> = None | Some(value: T)

  /**
   * A room: where each direction leads, the items lying there, and the key
   * of the enemy bound to it in the registry. Descriptions are not modelled.
   */
  datatype Room = Room(exits: map<string, string>, items: seq<string>, enemy: Option<string>)

  /** The room table the game starts with. */
  function InitialRooms(): map<string, Room> {
    map[
      "entrance" := Room(map["north" := "corridor", "east" := "armory"], [], None),
      "corridor" := Room(map["south" := "entrance", "north" := "treasure_room", "west" := "goblin_den"], ["torch"], None),
      "armory" := Room(map["west" := "entrance", "north" := "skeleton_chamber"], ["iron sword", "leather armor"], None),
      "goblin_den" := Room(map["east" := "corridor"], ["healing potion"], Some("goblin")),
      "skeleton_chamber" := Room(map["south" := "armory", "west" := "orc_lair"], ["magic scroll"], Some("skeleton")),
      "orc_lair" := Room(map["east" := "skeleton_chamber"], ["gold coins", "battle axe"], Some("orc")),
      "treasure_room" := Room(map["south" := "corridor", "north" := "dragon_chamber"],
                              ["treasure chest", "golden sword", "healing potion"], None),
      "dragon_chamber" := Room(map["south" := "treasure_room"], ["dragon hoard"], Some("dragon"))
    ]
  }

  /** The enemy registry at full health, one shared entry per enemy. */
  function Bestiary(): map<string, EnemyStats> {
    map[
      "goblin" := EnemyStats("Goblin", 30, 30, 15, 2, 25, 15),
      "orc" := EnemyStats("Orc", 50, 50, 25, 5, 50, 30),
      "skeleton" := EnemyStats("Skeleton", 40, 40, 20, 3, 35, 20),
      "dragon" := EnemyStats("Ancient Dragon", 150, 150, 40, 10, 200, 100)
    ]
  }

  /** Everything a command can read or change, as a value. */
  datatype GameState = GameState(
    player: PlayerStats,
    enemies: map<string, EnemyStats>,
    rooms: map<string, Room>,
    currentRoom: string,
    gameOver: bool,
    visited: set<string>)

  /** The session right after the player is created. */
  function InitialState(): GameState {
    GameState(NewPlayer(), Bestiary(), InitialRooms(), "entrance", false, {})
  }

  /** Every exit leads to a room of the table. */
  predicate ExitsClosed(rooms: map<string, Room>) {
    forall r, d :: r in rooms && d in rooms[r].exits ==> rooms[r].exits[d] in rooms
  }

  /** `e` is the registry entry `base`, possibly wounded and never over-healed. */
  predicate Wounded(e: EnemyStats, base: EnemyStats) {
    e.(health := base.health) == base && e.health <= base.maxHealth
  }

  /** The registry still holds the enemies of the bestiary, differing at most in health. */
  predicate RosterIntact(enemies: map<string, EnemyStats>) {
    enemies.Keys == Bestiary().Keys &&
    forall k :: k in enemies ==> Wounded(enemies[k], Bestiary()[k])
  }

  /** The invariant every command keeps. */
  predicate WellFormed(s: GameState) {
    && s.currentRoom in s.rooms
    && ExitsClosed(s.rooms)
    && s.visited <= s.rooms.Keys
    && HealthCapped(s.player)
    && RosterIntact(s.enemies)
  }

  /** Between `before` and `after` enemies only lose health; nothing else about them changes. */
  predicate OnlyWeakened(before: map<string, EnemyStats>, after: map<string, EnemyStats>) {
    after.Keys == before.Keys &&
    forall k :: k in before ==> after[k] == before[k].(health := after[k].health) && after[k].health <= before[k].health
  }

  /** The room graph and the enemy bindings are the same; only item lists may differ. */
  predicate SameLayout(before: map<string, Room>, after: map<string, Room>) {
    after.Keys == before.Keys &&
    forall r :: r in before ==> after[r].exits == before[r].exits && after[r].enemy == before[r].enemy
  }

  /** Replacing one room's item list keeps the layout and every other room. */
  lemma ItemsReplaced(rooms: map<string, Room>, k: string, items: seq<string>)
    requires k in rooms
    ensures var after := rooms[k := rooms[k].(items := items)];
            && SameLayout(rooms, after)
            && (ExitsClosed(rooms) ==> ExitsClosed(after))
            && forall j :: j in rooms && j != k ==> after[j] == rooms[j]
  {
    var after := rooms[k := rooms[k].(items := items)];
    assert after.Keys == rooms.Keys;
    forall r, d | r in after && d in after[r].exits
      ensures after[r].exits == rooms[r].exits
    {
    }
  }

  /**
   * The eight rooms and the four enemies of the tables; every enemy a room
   * names is a registry key, and every enemy starts alive at full health.
   */
  lemma InitialTables()
    ensures InitialRooms().Keys == {"entrance", "corridor", "armory", "goblin_den", "skeleton_chamber",
                                    "orc_lair", "treasure_room", "dragon_chamber"}
    ensures Bestiary().Keys == {"goblin", "orc", "skeleton", "dragon"}
    ensures forall k :: k in InitialRooms() && InitialRooms()[k].enemy.Some? ==>
              InitialRooms()[k].enemy.value != "" && InitialRooms()[k].enemy.value in Bestiary()
    ensures forall k :: k in Bestiary() ==> 0 < Bestiary()[k].health == Bestiary()[k].maxHealth
  {
  }

  lemma InitialWellFormed()
    ensures WellFormed(InitialState())
  {
  }
}
