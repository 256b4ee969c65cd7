/**
 * The player's integer health state machine (`PlayerHealthRefactored`):
 * damage, healing, direct assignment, maximum changes, death and revive.
 */
module PlayerHealth {
  import opened Common
  import opened GameEvents

  /** `Mathf.Clamp(int value, int min, int max)`: the lower bound is checked first. */
  function Clamp(value: int, lo: int, hi: int): int
  {
    if value < lo then lo else if value > hi then hi else value
  }

  /** Within bounds `0 <= lo <= hi`, a clamp lands inside them and keeps values already inside. */
  lemma ClampBounds(value: int, lo: int, hi: int)
    requires lo <= hi
    ensures lo <= Clamp(value, lo, hi) <= hi
    ensures lo <= value <= hi ==> Clamp(value, lo, hi) == value
  {
  }

  /**
   * The wrap in `Heal`: from 50 of 100, healing by `int.MaxValue` leaves the
   * sum negative, and `Mathf.Min` with the maximum keeps it.
   */
  lemma HealPastIntMaxWraps()
    ensures Min(100, Wrap32(50 + Int32Max)) == -2147483599
  {
  }

  class PlayerHealthRefactored {
    var maxHealth: int
    var currentHealth: int
    var maxStamina: real
    var currentStamina: real
    var isDead: bool
    var isInvulnerable: bool
    var isSprinting: bool
    var isRegenerating: bool
    var lastDamageTime: real
    /** The `GameEvents` signals raised so far, in order. */
    ghost var raised: seq<Event>

    /** Health lies in `[0, maxHealth]`, and the maximum is a C# `int`. */
    ghost predicate Valid()
      reads this
    {
      0 <= currentHealth <= maxHealth <= Int32Max
    }

    /** `Awake`: `InitializeHealth` and `InitializeStamina`. */
    constructor (maxHealth: int, maxStamina: real)
      ensures this.maxHealth == maxHealth && currentHealth == maxHealth
      ensures this.maxStamina == maxStamina && currentStamina == maxStamina
      ensures !isDead && !isInvulnerable && !isSprinting && !isRegenerating
      ensures lastDamageTime == 0.0 && raised == []
      ensures 0 <= maxHealth <= Int32Max ==> Valid()
    {
      this.maxHealth := maxHealth;
      currentHealth := maxHealth;
      this.maxStamina := maxStamina;
      currentStamina := maxStamina;
      isDead := false;
      isInvulnerable := false;
      isSprinting := false;
      isRegenerating := false;
      lastDamageTime := 0.0;
      raised := [];
    }

    /** `TakeDamage(damageAmount)` at time `now`; the brief invulnerability starts here and ends in `EndInvulnerability`. */
    method TakeDamage(amount: int, now: real)
      modifies this
      ensures old(isDead || isInvulnerable) || amount <= 0 ==> unchanged(this)
      ensures !old(isDead || isInvulnerable) && amount > 0 ==>
        && currentHealth == Max(0, Wrap32(old(currentHealth) - amount))
        && isDead == (currentHealth == 0)
        && isInvulnerable && !isRegenerating && lastDamageTime == now
        && isSprinting == (old(isSprinting) && currentHealth > 0)
        && maxHealth == old(maxHealth) && maxStamina == old(maxStamina)
        && currentStamina == old(currentStamina)
        && raised == old(raised) + [PlayerHealthChanged(currentHealth)]
                     + (if currentHealth == 0 then [PlayerDeath] else [])
      ensures old(Valid()) && IsInt32(amount) && amount > 0 && !old(isDead || isInvulnerable) ==>
        currentHealth == Max(0, old(currentHealth) - amount)
      ensures currentHealth >= 0 || unchanged(this)
      ensures old(Valid()) && IsInt32(amount) ==> Valid()
    {
      if isDead || isInvulnerable || amount <= 0 {
        return;
      }
      currentHealth := Wrap32(currentHealth - amount);
      currentHealth := Max(0, currentHealth);
      lastDamageTime := now;
      isRegenerating := false;
      isInvulnerable := true;
      raised := raised + [PlayerHealthChanged(currentHealth)];
      if currentHealth <= 0 && !isDead {
        Die();
      }
    }

    /** The end of `InvulnerabilityCoroutine`. */
    method EndInvulnerability()
      modifies this
      ensures !isInvulnerable
      ensures currentHealth == old(currentHealth) && maxHealth == old(maxHealth) && isDead == old(isDead)
      ensures isSprinting == old(isSprinting) && isRegenerating == old(isRegenerating)
      ensures currentStamina == old(currentStamina) && maxStamina == old(maxStamina)
      ensures lastDamageTime == old(lastDamageTime) && raised == old(raised)
    {
      isInvulnerable := false;
    }

    /**
     * `Heal(healAmount)`; the flash and sound it may play are not modelled.
     * The addition is C#'s unchecked `int` addition, so an amount that
     * carries the sum past `int.MaxValue` wraps it negative, and the cap at
     * the maximum keeps that negative value.
     */
    method Heal(amount: int)
      modifies this
      ensures old(isDead) || amount <= 0 || old(currentHealth) >= old(maxHealth) ==> unchanged(this)
      ensures !(old(isDead) || amount <= 0 || old(currentHealth) >= old(maxHealth)) ==>
        && currentHealth == Min(maxHealth, Wrap32(old(currentHealth) + amount))
        && currentHealth <= maxHealth
        && (IsInt32(old(currentHealth) + amount) ==> old(currentHealth) < currentHealth)
        && maxHealth == old(maxHealth) && !isDead
        && isInvulnerable == old(isInvulnerable) && isSprinting == old(isSprinting)
        && isRegenerating == old(isRegenerating) && lastDamageTime == old(lastDamageTime)
        && currentStamina == old(currentStamina) && maxStamina == old(maxStamina)
        && raised == old(raised) + [PlayerHealthChanged(currentHealth)]
      ensures old(Valid()) && IsInt32(old(currentHealth) + amount) ==> Valid()
    {
      if isDead || amount <= 0 || currentHealth >= maxHealth {
        return;
      }
      currentHealth := Wrap32(currentHealth + amount);
      currentHealth := Min(maxHealth, currentHealth);
      raised := raised + [PlayerHealthChanged(currentHealth)];
    }

    /** `SetHealth(health)`: clamps, then dies at 0 or revives (to full health) when above 0 while dead. */
    method SetHealth(health: int)
      modifies this
      ensures var c := Clamp(health, 0, old(maxHealth));
        && maxHealth == old(maxHealth) && maxStamina == old(maxStamina)
        && isInvulnerable == old(isInvulnerable) && lastDamageTime == old(lastDamageTime)
        && (c <= 0 && !old(isDead) ==>
              && currentHealth == c && isDead && !isSprinting && !isRegenerating
              && currentStamina == old(currentStamina)
              && raised == old(raised) + [PlayerHealthChanged(c), PlayerDeath])
        && (c > 0 && old(isDead) ==>
              && currentHealth == maxHealth && !isDead && currentStamina == maxStamina
              && isSprinting == old(isSprinting) && isRegenerating == old(isRegenerating)
              && raised == old(raised) + [PlayerHealthChanged(c), PlayerRevive, PlayerHealthChanged(maxHealth)])
        && (!(c <= 0 && !old(isDead)) && !(c > 0 && old(isDead)) ==>
              && currentHealth == c && isDead == old(isDead)
              && isSprinting == old(isSprinting) && isRegenerating == old(isRegenerating)
              && currentStamina == old(currentStamina)
              && raised == old(raised) + [PlayerHealthChanged(c)])
      ensures 0 <= maxHealth <= Int32Max ==> Valid()
    {
      currentHealth := Clamp(health, 0, maxHealth);
      raised := raised + [PlayerHealthChanged(currentHealth)];
      if currentHealth <= 0 && !isDead {
        Die();
      } else if currentHealth > 0 && isDead {
        Revive();
      }
    }

    /**
     * `AddMaxHealth(amount)`: any amount, so the maximum may drop below the
     * current health, which then follows it down. The sum wraps as C#'s
     * `int` addition does.
     */
    method AddMaxHealth(amount: int)
      modifies this
      ensures maxHealth == Wrap32(old(maxHealth) + amount)
      ensures IsInt32(old(maxHealth) + amount) ==> maxHealth == old(maxHealth) + amount
      ensures currentHealth == Min(old(currentHealth), maxHealth)
      ensures isDead == old(isDead) && isInvulnerable == old(isInvulnerable)
      ensures isSprinting == old(isSprinting) && isRegenerating == old(isRegenerating)
      ensures currentStamina == old(currentStamina) && maxStamina == old(maxStamina)
      ensures lastDamageTime == old(lastDamageTime) && raised == old(raised)
      ensures old(Valid()) && maxHealth >= 0 ==> Valid()
    {
      maxHealth := Wrap32(maxHealth + amount);
      if currentHealth > maxHealth {
        currentHealth := maxHealth;
      }
    }

    /** `RestoreStamina(amount)`. */
    method RestoreStamina(amount: real)
      modifies this
      ensures currentStamina == if old(currentStamina) + amount < maxStamina then old(currentStamina) + amount else maxStamina
      ensures currentHealth == old(currentHealth) && maxHealth == old(maxHealth) && isDead == old(isDead)
      ensures isInvulnerable == old(isInvulnerable) && isSprinting == old(isSprinting)
      ensures isRegenerating == old(isRegenerating) && maxStamina == old(maxStamina)
      ensures lastDamageTime == old(lastDamageTime) && raised == old(raised)
    {
      currentStamina := currentStamina + amount;
      if maxStamina < currentStamina {
        currentStamina := maxStamina;
      }
    }

    /** `Die()`: idempotent; the first call marks death, stops sprinting and regeneration and raises `PlayerDeath`. */
    method Die()
      modifies this
      ensures old(isDead) ==> unchanged(this)
      ensures !old(isDead) ==>
        && isDead && !isSprinting && !isRegenerating
        && raised == old(raised) + [PlayerDeath]
      ensures currentHealth == old(currentHealth) && maxHealth == old(maxHealth)
      ensures currentStamina == old(currentStamina) && maxStamina == old(maxStamina)
      ensures isInvulnerable == old(isInvulnerable) && lastDamageTime == old(lastDamageTime)
    {
      if isDead {
        return;
      }
      isDead := true;
      isSprinting := false;
      isRegenerating := false;
      raised := raised + [PlayerDeath];
    }

    /** `Revive()`: a no-op while alive; otherwise back to full health and full stamina. */
    method Revive()
      modifies this
      ensures !old(isDead) ==> unchanged(this)
      ensures old(isDead) ==>
        && !isDead && currentHealth == maxHealth && currentStamina == maxStamina
        && raised == old(raised) + [PlayerRevive, PlayerHealthChanged(maxHealth)]
      ensures maxHealth == old(maxHealth) && maxStamina == old(maxStamina)
      ensures isSprinting == old(isSprinting) && isRegenerating == old(isRegenerating)
      ensures isInvulnerable == old(isInvulnerable) && lastDamageTime == old(lastDamageTime)
      ensures 0 <= maxHealth <= Int32Max && old(isDead) ==> Valid()
      ensures old(Valid()) ==> Valid()
    {
      if !isDead {
        return;
      }
      isDead := false;
      currentHealth := maxHealth;
      currentStamina := maxStamina;
      raised := raised + [PlayerRevive, PlayerHealthChanged(currentHealth)];
    }
  }
}
