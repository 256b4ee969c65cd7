/**
 * `EnemyManager.Spawn`: the repeating spawn tick with a liveness gate, a
 * population check and a decaying, floored `spawnTime`. `Start` schedules
 * the tick with `InvokeRepeating` at the `spawnTime` it sees, and that
 * repeat rate stays fixed: the decayed `spawnTime` is never read again by
 * the scheduler, so it does not make spawns more frequent.
 */
module EnemyManager {
  import opened Common

  /** A spawn location (`Transform`); only its identity matters here. */
  datatype SpawnPoint = SpawnPoint(name: string)

  /** The scene's `zombieCount` counter object that spawning shares with other scripts. */
  class ZombieCount {
    var entityCount: int
    var maximumEntities: int

    constructor (entityCount: int, maximumEntities: int)
      ensures this.entityCount == entityCount && this.maximumEntities == maximumEntities
    {
      this.entityCount := entityCount;
      this.maximumEntities := maximumEntities;
    }
  }

  /** What one `Spawn` tick did. */
  datatype SpawnOutcome =
    | PlayerDead          // the liveness gate returned early
    | AtCapacity          // the population check failed
    | Spawned(index: nat) // an enemy was instantiated at `spawnPoints[index]`
    | Faulted             // no spawn points: indexing `spawnPoints[0]` throws

  const DecayFactor: real := 0.99
  const FloorFactor: real := 0.6

  /** What `Random.Range(0, n)` may return: `[0, n)`, and 0 when `n` is 0. */
  predicate IsRangeDraw(roll: int, n: nat)
  {
    if n > 0 then 0 <= roll < n else roll == 0
  }

  class EnemyManager {
    const tag: string
    const spawnPoints: seq<SpawnPoint>
    const zombieCount: ZombieCount
    /** The repeat rate `InvokeRepeating` was given in `Start`. */
    const repeatRate: real
    var spawnTime: real
    var shortestSpawnTime: real
    /** The `spawnTime` that `Start` saw. */
    ghost var initialSpawnTime: real
    /** Every enemy instantiated so far, by spawn point. */
    ghost var instantiated: seq<SpawnPoint>

    /** The floor is 60% of the initial interval; a non-negative interval only shrinks, never below 99% of the floor. */
    ghost predicate Valid()
      reads this
    {
      && shortestSpawnTime == FloorFactor * initialSpawnTime
      && (initialSpawnTime >= 0.0 ==> DecayFactor * shortestSpawnTime <= spawnTime <= initialSpawnTime)
      && (initialSpawnTime < 0.0 ==> spawnTime == initialSpawnTime)
    }

    /** The serialized fields followed by `Start`, which derives the floor from the configured interval. */
    constructor (tag: string, spawnTime: real, spawnPoints: seq<SpawnPoint>, zombieCount: ZombieCount)
      ensures this.tag == tag && this.spawnPoints == spawnPoints && this.zombieCount == zombieCount
      ensures this.spawnTime == spawnTime && initialSpawnTime == spawnTime && repeatRate == spawnTime
      ensures shortestSpawnTime == FloorFactor * spawnTime
      ensures instantiated == []
      ensures Valid()
    {
      this.tag := tag;
      this.spawnPoints := spawnPoints;
      this.zombieCount := zombieCount;
      this.spawnTime := spawnTime;
      repeatRate := spawnTime;
      shortestSpawnTime := spawnTime * FloorFactor;
      initialSpawnTime := spawnTime;
      instantiated := [];
    }

    /**
     * `Spawn()`; `playerHealth` is the player's current health and `roll`
     * the value `Random.Range` drew. The count is a C# `int`, so its
     * increment wraps.
     */
    method Spawn(playerHealth: int, roll: int) returns (outcome: SpawnOutcome)
      requires Valid()
      requires IsRangeDraw(roll, |spawnPoints|)
      modifies this, zombieCount
      ensures Valid()
      ensures zombieCount.maximumEntities == old(zombieCount.maximumEntities)
      ensures shortestSpawnTime == old(shortestSpawnTime) && initialSpawnTime == old(initialSpawnTime)
      ensures outcome == (if playerHealth <= 0 then PlayerDead
                          else if old(zombieCount.entityCount) > zombieCount.maximumEntities then AtCapacity
                          else if |spawnPoints| == 0 then Faulted
                          else Spawned(roll))
      ensures !outcome.Spawned? ==>
        && zombieCount.entityCount == old(zombieCount.entityCount)
        && spawnTime == old(spawnTime) && instantiated == old(instantiated)
      ensures outcome.Spawned? ==>
        && 0 <= outcome.index < |spawnPoints|
        && zombieCount.entityCount == Wrap32(old(zombieCount.entityCount) + 1)
        && (IsInt32(old(zombieCount.entityCount) + 1) ==> zombieCount.entityCount == old(zombieCount.entityCount) + 1)
        && (IsInt32(old(zombieCount.entityCount)) ==> zombieCount.entityCount <= zombieCount.maximumEntities + 1)
        && instantiated == old(instantiated) + [spawnPoints[outcome.index]]
        && spawnTime == (if tag != "GIANT" && old(spawnTime) >= shortestSpawnTime
                         then old(spawnTime) * DecayFactor else old(spawnTime))
      ensures IsInt32(old(zombieCount.entityCount)) && old(zombieCount.entityCount) <= zombieCount.maximumEntities + 1 ==>
        zombieCount.entityCount <= zombieCount.maximumEntities + 1
    {
      if playerHealth <= 0 {
        return PlayerDead;
      }
      var spawnPointIndex := roll;
      if zombieCount.entityCount <= zombieCount.maximumEntities {
        if |spawnPoints| == 0 {
          return Faulted;
        }
        instantiated := instantiated + [spawnPoints[spawnPointIndex]];
        if zombieCount.entityCount == Int32Max {
          assert Wrap32(zombieCount.entityCount + 1) == Int32Min;
        }
        zombieCount.entityCount := Wrap32(zombieCount.entityCount + 1);
        if tag != "GIANT" && spawnTime >= shortestSpawnTime {
          spawnTime := spawnTime * DecayFactor;
        }
        return Spawned(spawnPointIndex);
      }
      return AtCapacity;
    }
  }
}
