/**
 * The player and enemy stat rules of the dungeon game. The classes `Player`
 * and `Enemy` hold the mutable fields; the `PlayerStats` functions say what
 * each of the player's methods does to them.
 */
module Entities {

  /** Everything about the player except the name, as a value. */
  datatype PlayerStats = PlayerStats(
    health: int,
    maxHealth: int,
    attack: int,
    defense: int,
    level: int,
    experience: int,
    gold: int,
    inventory: seq<string>)

  /** An enemy's stats as a value; only `health` ever changes. */
  datatype EnemyStats = EnemyStats(
    name: string,
    health: int,
    maxHealth: int,
    attack: int,
    defense: int,
    expReward: int,
    goldReward: int)

  /** The player's health never exceeds the ceiling. */
  predicate HealthCapped(p: PlayerStats) {
    p.health <= p.maxHealth
  }

  /** The stats a fresh player starts with. */
  function NewPlayer(): (p: PlayerStats)
    ensures HealthCapped(p) && p.health == p.maxHealth && p.level == 1
  {
    PlayerStats(100, 100, 20, 5, 1, 0, 50, ["rusty sword", "healing potion"])
  }

  /**
   * The damage that gets through a defense: `max(1, damage - defense)`.
   * The same rule serves both sides of a fight.
   */
  function Mitigated(damage: int, defense: int): (r: int)
    ensures r >= 1
    ensures r >= damage - defense
    ensures r == 1 || r == damage - defense
  {
    if damage - defense > 1 then damage - defense else 1
  }

  /** What `take_damage(damage)` leaves behind. */
  function Damaged(p: PlayerStats, damage: int): (r: PlayerStats)
    ensures r == p.(health := r.health)
    ensures p.health - r.health == Mitigated(damage, p.defense)
    ensures r.health < p.health
    ensures HealthCapped(p) ==> HealthCapped(r)
  {
    p.(health := p.health - Mitigated(damage, p.defense))
  }

  /** What `heal(amount)` leaves behind: `min(max_health, health + amount)`. */
  function Healed(p: PlayerStats, amount: int): (r: PlayerStats)
    ensures r == p.(health := r.health)
    ensures r.health <= p.maxHealth && r.health <= p.health + amount
    ensures r.health == p.maxHealth || r.health == p.health + amount
    ensures HealthCapped(p) && amount >= 0 ==> p.health <= r.health
    ensures p.health == p.maxHealth && amount >= 0 ==> r == p
  {
    p.(health := if p.maxHealth < p.health + amount then p.maxHealth else p.health + amount)
  }

  /** What `level_up()` leaves behind: fixed increases and a full heal. */
  function LevelledUp(p: PlayerStats): (r: PlayerStats)
    ensures r.level == p.level + 1
    ensures r.maxHealth == p.maxHealth + 20 && r.health == r.maxHealth
    ensures r.attack == p.attack + 5 && r.defense == p.defense + 2
    ensures r.experience == p.experience && r.gold == p.gold && r.inventory == p.inventory
  {
    var q := p.(level := p.level + 1, maxHealth := p.maxHealth + 20);
    q.(health := q.maxHealth, attack := p.attack + 5, defense := p.defense + 2)
  }

  /** The experience a player of `level` needs before the next level-up. */
  function Threshold(level: int): int {
    level * 100
  }

  /**
   * What `gain_exp(exp)` leaves behind. The threshold is tested once, so one
   * gain levels up at most once, however far past the threshold it goes.
   */
  function WithExp(p: PlayerStats, exp: int): (r: PlayerStats)
    ensures r.experience == p.experience + exp
    ensures r.level == p.level + 1 <==> p.experience + exp >= Threshold(p.level)
    ensures r.level == p.level || r.level == p.level + 1
    ensures r.gold == p.gold && r.inventory == p.inventory
    ensures r.attack >= p.attack && r.defense >= p.defense && r.maxHealth >= p.maxHealth
    ensures HealthCapped(p) ==> HealthCapped(r)
    ensures p.experience + exp < Threshold(p.level) ==> r == p.(experience := r.experience)
    ensures p.experience + exp >= Threshold(p.level) ==> r == LevelledUp(p).(experience := r.experience)
  {
    var q := p.(experience := p.experience + exp);
    if q.experience >= Threshold(q.level) then LevelledUp(q) else q
  }

  /** A single large gain passes two thresholds and still levels up only once. */
  lemma OneLevelPerGain()
    ensures var r := WithExp(NewPlayer(), 250);
      r.level == 2 && r.experience >= Threshold(r.level)
  {
  }

  /** The player, with the fields the game updates in place. */
  class Player {
    const name: string
    var health: int
    var maxHealth: int
    var attack: int
    var defense: int
    var inventory: seq<string>
    var gold: int
    var level: int
    var experience: int

    /** The current stats as a value. */
    ghost function Stats(): PlayerStats
      reads this
    {
      PlayerStats(health, maxHealth, attack, defense, level, experience, gold, inventory)
    }

    constructor (name: string)
      ensures this.name == name && Stats() == NewPlayer()
    {
      this.name := name;
      health := 100;
      maxHealth := 100;
      attack := 20;
      defense := 5;
      inventory := ["rusty sword", "healing potion"];
      gold := 50;
      level := 1;
      experience := 0;
    }

    /** Subtracts the damage that gets through the defense and reports it. */
    method TakeDamage(damage: int) returns (actual: int)
      modifies this
      ensures actual == Mitigated(damage, old(defense))
      ensures Stats() == Damaged(old(Stats()), damage)
    {
      actual := Mitigated(damage, defense);
      health := health - actual;
    }

    /** Restores health, never past the ceiling. */
    method Heal(amount: int)
      modifies this
      ensures Stats() == Healed(old(Stats()), amount)
    {
      health := if maxHealth < health + amount then maxHealth else health + amount;
    }

    /** Adds experience and levels up once if the threshold is reached. */
    method GainExp(exp: int)
      modifies this
      ensures Stats() == WithExp(old(Stats()), exp)
    {
      experience := experience + exp;
      if experience >= Threshold(level) {
        LevelUp();
      }
    }

    method LevelUp()
      modifies this
      ensures Stats() == LevelledUp(old(Stats()))
    {
      level := level + 1;
      maxHealth := maxHealth + 20;
      health := maxHealth;
      attack := attack + 5;
      defense := defense + 2;
    }
  }

  /** An enemy; only its health is ever changed, by combat. */
  class Enemy {
    const name: string
    var health: int
    const maxHealth: int
    const attack: int
    const defense: int
    const expReward: int
    const goldReward: int

    ghost function Stats(): EnemyStats
      reads this
    {
      EnemyStats(name, health, maxHealth, attack, defense, expReward, goldReward)
    }

    /** Enemies start at full health. */
    constructor (name: string, health: int, attack: int, defense: int, expReward: int, goldReward: int)
      ensures Stats() == EnemyStats(name, health, health, attack, defense, expReward, goldReward)
    {
      this.name := name;
      this.health := health;
      maxHealth := health;
      this.attack := attack;
      this.defense := defense;
      this.expReward := expReward;
      this.goldReward := goldReward;
    }
  }
}
