/**
 * An enemy's health (`EnemyHealth`): unclamped damage, a death latch, the
 * slow-effect duration setter and the spawned/destroyed signal pair.
 */
module EnemyHealth {
  import opened Common
  import opened GameEvents

  class EnemyHealth {
    const id: EnemyId
    const startingHealth: int
    const scoreValue: int
    var currentHealth: int
    var isDead: bool
    var effectsDuration: real
    /** True once the engine has destroyed the game object (`OnDestroy` ran). */
    var destroyed: bool
    /** How many times `Death` has run. */
    ghost var deaths: nat
    /** The `GameEvents` signals this enemy raised, in order. */
    ghost var raised: seq<Event>

    /** Death runs at most once and exactly when the enemy is dead; the trace opens with the spawn signal and holds a destroy signal iff the object was destroyed, then as its last entry. */
    ghost predicate Valid()
      reads this
    {
      && deaths == (if isDead then 1 else 0)
      && |raised| >= 1 && raised[0] == EnemySpawned(id)
      && Occurrences(raised, EnemySpawned(id)) == 1
      && Occurrences(raised, EnemyDestroyed(id)) == (if destroyed then 1 else 0)
      && (destroyed ==> raised[|raised| - 1] == EnemyDestroyed(id))
    }

    /** `Awake`: health starts at `startingHealth` and `EnemySpawned` is raised. */
    constructor (id: EnemyId, startingHealth: int, scoreValue: int)
      ensures this.id == id && this.startingHealth == startingHealth && this.scoreValue == scoreValue
      ensures currentHealth == startingHealth && !isDead && !destroyed
      ensures effectsDuration == 1.5
      ensures raised == [EnemySpawned(id)]
      ensures Valid()
    {
      this.id := id;
      this.startingHealth := startingHealth;
      this.scoreValue := scoreValue;
      currentHealth := startingHealth;
      isDead := false;
      effectsDuration := 1.5;
      destroyed := false;
      deaths := 0;
      raised := [EnemySpawned(id)];
      new;
      OccurrencesAppend([], EnemySpawned(id), EnemySpawned(id));
      OccurrencesAppend([], EnemySpawned(id), EnemyDestroyed(id));
    }

    /** `SlowEffect_Duration(effectDuration)`: stores the duration and hands it back. */
    method SlowEffectDuration(effectDuration: real) returns (r: real)
      modifies this
      ensures r == effectDuration && effectsDuration == effectDuration
      ensures currentHealth == old(currentHealth) && isDead == old(isDead) && destroyed == old(destroyed)
      ensures deaths == old(deaths) && raised == old(raised)
    {
      effectsDuration := effectDuration;
      r := effectDuration;
    }

    /** `TakeDamage(amount, hitPoint)`: ignored once dead; otherwise the amount is taken off (C#'s unchecked `int` subtraction, with no floor), and reaching 0 or below runs `Death`. */
    method TakeDamage(amount: int)
      requires Valid()
      modifies this
      ensures Valid()
      ensures old(isDead) ==> unchanged(this)
      ensures !old(isDead) ==>
        && currentHealth == Wrap32(old(currentHealth) - amount)
        && isDead == (currentHealth <= 0)
      ensures raised == old(raised) && destroyed == old(destroyed)
      ensures effectsDuration == old(effectsDuration)
    {
      if isDead {
        return;
      }
      currentHealth := Wrap32(currentHealth - amount);
      if currentHealth <= 0 {
        Death();
      }
    }

    /** `Death()`: latches `isDead`; only `TakeDamage` calls it, on a living enemy. */
    method Death()
      requires Valid() && !isDead
      modifies this
      ensures Valid() && isDead && deaths == 1
      ensures currentHealth == old(currentHealth) && raised == old(raised)
      ensures destroyed == old(destroyed) && effectsDuration == old(effectsDuration)
    {
      isDead := true;
      deaths := deaths + 1;
    }

    /** `StartSinking()`, run by the death animation: raises `EnemyKilled` with this enemy's score value. */
    method StartSinking()
      requires Valid() && !destroyed
      modifies this
      ensures Valid()
      ensures raised == old(raised) + [EnemyKilled(scoreValue)]
      ensures currentHealth == old(currentHealth) && isDead == old(isDead) && destroyed == old(destroyed)
      ensures deaths == old(deaths) && effectsDuration == old(effectsDuration)
    {
      OccurrencesAppend(raised, EnemyKilled(scoreValue), EnemySpawned(id));
      OccurrencesAppend(raised, EnemyKilled(scoreValue), EnemyDestroyed(id));
      raised := raised + [EnemyKilled(scoreValue)];
    }

    /** `OnDestroy()`, which the engine runs once per object: raises `EnemyDestroyed`. */
    method OnDestroy()
      requires Valid() && !destroyed
      modifies this
      ensures Valid() && destroyed
      ensures raised == old(raised) + [EnemyDestroyed(id)]
      ensures Occurrences(raised, EnemySpawned(id)) == 1 && Occurrences(raised, EnemyDestroyed(id)) == 1
      ensures currentHealth == old(currentHealth) && isDead == old(isDead) && deaths == old(deaths)
    {
      OccurrencesAppend(raised, EnemyDestroyed(id), EnemySpawned(id));
      OccurrencesAppend(raised, EnemyDestroyed(id), EnemyDestroyed(id));
      raised := raised + [EnemyDestroyed(id)];
      destroyed := true;
    }
  }
}
