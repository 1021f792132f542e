/**
 * The meaning of one `attack` command: the rounds of the combat loop run
 * until one side is down, with the random rolls supplied up front.
 */
module Fight {
  import opened Entities

  datatype Resolution = Victory | Defeat | NoCombat

  /** How an encounter ended, after how many rounds, and both sides' health. */
  datatype Outcome = Outcome(resolution: Resolution, rounds: nat, playerHealth: int, enemyHealth: int)

  function AddRounds(o: Outcome, k: nat): Outcome {
    o.(rounds := o.rounds + k)
  }

  /**
   * The combat loop. Round `i` uses `playerRolls[i]` for the player's blow and
   * `enemyRolls[i]` for the enemy's answer. Each round costs the enemy at least
   * one point, so `enemyHealth` rolls of each kind always suffice.
   */
  function Encounter(playerHealth: int, playerDefense: int, enemyHealth: int, enemyDefense: int,
                     playerRolls: seq<int>, enemyRolls: seq<int>): (r: Outcome)
    requires enemyHealth <= |playerRolls| && enemyHealth <= |enemyRolls|
    ensures r.resolution == NoCombat <==> !(enemyHealth > 0 && playerHealth > 0)
    ensures r.resolution == NoCombat ==> r == Outcome(NoCombat, 0, playerHealth, enemyHealth)
    ensures r.resolution == Victory ==> r.enemyHealth <= 0 < r.playerHealth
    ensures r.resolution == Defeat ==> r.playerHealth <= 0 < r.enemyHealth
    ensures r.resolution != NoCombat ==> 1 <= r.rounds <= enemyHealth
    ensures r.enemyHealth <= enemyHealth - r.rounds
    ensures r.resolution == Victory ==> r.playerHealth <= playerHealth - (r.rounds - 1)
    ensures r.resolution == Defeat ==> r.playerHealth <= playerHealth - r.rounds
    decreases enemyHealth
  {
    if enemyHealth <= 0 || playerHealth <= 0 then
      Outcome(NoCombat, 0, playerHealth, enemyHealth)
    else
      var enemyLeft := enemyHealth - Mitigated(playerRolls[0], enemyDefense);
      if enemyLeft <= 0 then
        Outcome(Victory, 1, playerHealth, enemyLeft)
      else
        var playerLeft := playerHealth - Mitigated(enemyRolls[0], playerDefense);
        if playerLeft <= 0 then
          Outcome(Defeat, 1, playerLeft, enemyLeft)
        else
          AddRounds(Encounter(playerLeft, playerDefense, enemyLeft, enemyDefense, playerRolls[1..], enemyRolls[1..]), 1)
  }

  /** `random.randint(low, high)` produced every roll. */
  predicate RollsWithin(rolls: seq<int>, low: int, high: int) {
    forall i :: 0 <= i < |rolls| ==> low <= rolls[i] <= high
  }
}
