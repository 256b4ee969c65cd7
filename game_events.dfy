/**
 * The global signals of the static `GameEvents` hub that the modelled
 * components raise. Components record what they raise in a ghost trace;
 * delivery to subscribers is not modelled.
 */
module GameEvents {

  /** Identity of a spawned enemy's game object. */
  type EnemyId = nat

  datatype Event =
    | PlayerHealthChanged(health: int)
    | PlayerDeath
    | PlayerRevive
    | EnemyKilled(scoreValue: int)
    | WeaponFired(damage: int)
    | ScoreChanged(score: int)
    | HighScoreChanged(highScore: int)
    | GameStarted
    | GamePaused
    | GameResumed
    | GameOver
    | EnemySpawned(enemy: EnemyId)
    | EnemyDestroyed(enemy: EnemyId)

  /** How many times `e` occurs in `trace`. */
  function Occurrences(trace: seq<Event>, e: Event): nat
  {
    if |trace| == 0 then 0
    else Occurrences(trace[..|trace| - 1], e) + (if trace[|trace| - 1] == e then 1 else 0)
  }

  lemma OccurrencesAppend(trace: seq<Event>, x: Event, e: Event)
    ensures Occurrences(trace + [x], e) == Occurrences(trace, e) + (if x == e then 1 else 0)
  {
    assert (trace + [x])[..|trace|] == trace;
  }
}
