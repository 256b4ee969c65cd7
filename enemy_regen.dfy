/** `EnemyRegen`: a periodic, guarded health increment on an enemy. */
module EnemyRegen {
  import opened Common
  import opened EnemyHealth

  class EnemyRegen {
    const enemyHealth: EnemyHealth
    const regenAmount: int

    constructor (enemyHealth: EnemyHealth, regenAmount: int)
      ensures this.enemyHealth == enemyHealth && this.regenAmount == regenAmount
    {
      this.enemyHealth := enemyHealth;
      this.regenAmount := regenAmount;
    }

    /**
     * `Regenerate()`: a living enemy below its starting health gains
     * `regenAmount` by C#'s unchecked `int` addition, which may carry it past
     * the starting health (or, past `int.MaxValue`, wrap it negative).
     */
    method Regenerate()
      modifies enemyHealth
      ensures old(enemyHealth.isDead) || old(enemyHealth.currentHealth) >= enemyHealth.startingHealth ==>
        unchanged(enemyHealth)
      ensures !old(enemyHealth.isDead) && old(enemyHealth.currentHealth) < enemyHealth.startingHealth ==>
        && enemyHealth.currentHealth == Wrap32(old(enemyHealth.currentHealth) + regenAmount)
        && (IsInt32(old(enemyHealth.currentHealth) + regenAmount) ==>
              && enemyHealth.currentHealth == old(enemyHealth.currentHealth) + regenAmount
              && enemyHealth.currentHealth < enemyHealth.startingHealth + regenAmount)
      ensures enemyHealth.isDead == old(enemyHealth.isDead) && enemyHealth.destroyed == old(enemyHealth.destroyed)
      ensures enemyHealth.deaths == old(enemyHealth.deaths) && enemyHealth.raised == old(enemyHealth.raised)
      ensures enemyHealth.effectsDuration == old(enemyHealth.effectsDuration)
      ensures old(enemyHealth.Valid()) ==> enemyHealth.Valid()
    {
      if enemyHealth.currentHealth < enemyHealth.startingHealth && !enemyHealth.isDead {
        enemyHealth.currentHealth := Wrap32(enemyHealth.currentHealth + regenAmount);
      }
    }
  }
}
