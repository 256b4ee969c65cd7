/**
 * `WeaponSystem.cs`: the `WeaponData` configuration asset and the shared
 * behaviour of every weapon (`BaseWeapon`): the fire gate and its cooldown,
 * the magazine and the reserve, reloading and its completion.
 */
module WeaponSystem {
  import opened Common
  import opened GameEvents

  /** The designer-facing configuration (`WeaponData`); the weapon never changes it. */
  datatype WeaponData = WeaponData(
    weaponName: string,
    baseDamage: int,
    fireRate: real,
    range: real,
    magazineSize: int,
    totalAmmo: int,
    isAutomatic: bool,
    hasReload: bool,
    reloadTime: real)
  {
    /** The integer fields are C# `int`s. */
    predicate WellFormed()
    {
      IsInt32(baseDamage) && IsInt32(magazineSize) && IsInt32(totalAmmo)
    }
  }

  /** A freshly created `WeaponData` asset. */
  const DefaultWeaponData: WeaponData :=
    WeaponData("Default Weapon", 100, 0.1, 100.0, 30, 300, true, true, 2.0)

  /** What one `Fire` call did. */
  datatype FireOutcome =
    | Fired    // a shot was fired
    | Empty    // the magazine is empty: the empty sound and `OnWeaponEmpty`
    | Blocked  // reloading or cooling down, with ammo left: nothing happens
    | Faulted  // no weapon data: reading its sounds throws

  /** What one `Reload` call did. */
  datatype ReloadOutcome =
    | NotNeeded // already reloading, magazine full, or no reserve
    | Started   // the reload coroutine is running
    | ReloadFaulted // no weapon data: reading its reload sound throws

  class BaseWeapon {
    var data: Option<WeaponData>
    var currentAmmo: int
    var totalAmmo: int
    var lastFireTime: real
    var isReloading: bool
    /** The `GameEvents` signals this weapon raised, in order. */
    ghost var raised: seq<Event>

    /** The counters are C# `int`s and the configuration is well formed. */
    ghost predicate Valid()
      reads this
    {
      IsInt32(currentAmmo) && IsInt32(totalAmmo) && (data.Some? ==> data.value.WellFormed())
    }

    /** `WeaponName`: "Unknown" without data. */
    function WeaponName(): (r: string)
      reads this
      ensures data.None? ==> r == "Unknown"
      ensures data.Some? ==> r == data.value.weaponName
    {
      if data.Some? then data.value.weaponName else "Unknown"
    }

    /** `Damage`: 0 without data. */
    function Damage(): (r: int)
      reads this
      ensures data.None? ==> r == 0
      ensures data.Some? ==> r == data.value.baseDamage
    {
      if data.Some? then data.value.baseDamage else 0
    }

    /** `FireRate`, the minimum time between shots: 0.1 without data. */
    function FireRate(): (r: real)
      reads this
      ensures data.None? ==> r == 0.1
      ensures data.Some? ==> r == data.value.fireRate
    {
      if data.Some? then data.value.fireRate else 0.1
    }

    /** `MaxAmmo`, the magazine size: 0 without data. */
    function MaxAmmo(): (r: int)
      reads this
      ensures data.None? ==> r == 0
      ensures data.Some? ==> r == data.value.magazineSize
    {
      if data.Some? then data.value.magazineSize else 0
    }

    /** `CanFire` at time `now`: not reloading, a round in the magazine and the cooldown elapsed. */
    predicate CanFire(now: real)
      reads this
      ensures CanFire(now) <==> !isReloading && currentAmmo > 0 && now >= lastFireTime + FireRate()
    {
      !isReloading && currentAmmo > 0 && now >= lastFireTime + FireRate()
    }

    /**
     * The fire gate only opens with time: a weapon that may fire now may
     * fire at any later time, and a weapon marked as reloading may not fire
     * at any time.
     */
    lemma CanFireLater(now: real, later: real)
      requires now <= later
      ensures CanFire(now) ==> CanFire(later)
      ensures isReloading ==> !CanFire(now) && !CanFire(later)
    {
    }

    /** `Awake` (through `InitializeWeapon`): a configured weapon starts with a full magazine and its reserve; otherwise with none. */
    constructor (data: Option<WeaponData>)
      requires data.Some? ==> data.value.WellFormed()
      ensures this.data == data && Valid()
      ensures data.Some? ==> currentAmmo == data.value.magazineSize && totalAmmo == data.value.totalAmmo
      ensures data.None? ==> currentAmmo == 0 && totalAmmo == 0
      ensures lastFireTime == 0.0 && !isReloading && raised == []
    {
      this.data := data;
      currentAmmo := 0;
      totalAmmo := 0;
      lastFireTime := 0.0;
      isReloading := false;
      raised := [];
      new;
      InitializeWeapon();
    }

    /** `InitializeWeapon`: with data, refills the magazine and the reserve from it; without, changes nothing. */
    method InitializeWeapon()
      requires data.Some? ==> data.value.WellFormed()
      modifies this
      ensures data.Some? ==> currentAmmo == data.value.magazineSize && totalAmmo == data.value.totalAmmo
      ensures data.None? ==> currentAmmo == old(currentAmmo) && totalAmmo == old(totalAmmo)
      ensures data == old(data) && lastFireTime == old(lastFireTime)
      ensures isReloading == old(isReloading) && raised == old(raised)
    {
      if data.Some? {
        currentAmmo := data.value.magazineSize;
        totalAmmo := data.value.totalAmmo;
      }
    }

    /** `SetWeaponData(data)`: swaps the configuration and re-initialises; a reload under way carries on. */
    method SetWeaponData(newData: Option<WeaponData>)
      requires Valid()
      requires newData.Some? ==> newData.value.WellFormed()
      modifies this
      ensures Valid() && data == newData
      ensures newData.Some? ==> currentAmmo == newData.value.magazineSize && totalAmmo == newData.value.totalAmmo
      ensures newData.None? ==> currentAmmo == old(currentAmmo) && totalAmmo == old(totalAmmo)
      ensures lastFireTime == old(lastFireTime) && isReloading == old(isReloading) && raised == old(raised)
    {
      data := newData;
      InitializeWeapon();
    }

    /**
     * `Reload`: starts the reload coroutine unless one is running, the
     * magazine is at least full, or the reserve is empty. The coroutine
     * marks the weapon as reloading before anything else; without data the
     * reload sound lookup then throws, so the coroutine never completes and
     * the weapon stays marked as reloading, unable to fire or reload again.
     */
    method Reload() returns (outcome: ReloadOutcome)
      requires Valid()
      modifies this
      ensures Valid()
      ensures outcome == (if old(isReloading) || old(currentAmmo) >= old(MaxAmmo()) || old(totalAmmo) <= 0 then NotNeeded
                          else if data.None? then ReloadFaulted
                          else Started)
      ensures outcome != NotNeeded ==> isReloading
      ensures outcome == NotNeeded ==> isReloading == old(isReloading)
      ensures currentAmmo == old(currentAmmo) && totalAmmo == old(totalAmmo)
      ensures data == old(data) && lastFireTime == old(lastFireTime) && raised == old(raised)
    {
      if isReloading || currentAmmo >= MaxAmmo() || totalAmmo <= 0 {
        return NotNeeded;
      }
      isReloading := true;
      if data.None? {
        return ReloadFaulted;
      }
      return Started;
    }

    /**
     * The rest of the reload coroutine, after its wait: moves
     * `min(MaxAmmo - currentAmmo, totalAmmo)` rounds from the reserve into
     * the magazine. From a sane state no round is created or lost, and
     * afterwards the magazine is full or the reserve is empty.
     */
    method CompleteReload()
      requires Valid() && isReloading
      modifies this
      ensures Valid() && !isReloading
      ensures var moved := Min(Wrap32(old(MaxAmmo()) - old(currentAmmo)), old(totalAmmo));
        currentAmmo == Wrap32(old(currentAmmo) + moved) && totalAmmo == Wrap32(old(totalAmmo) - moved)
      ensures 0 <= old(currentAmmo) <= MaxAmmo() && 0 <= old(totalAmmo) ==>
        && currentAmmo + totalAmmo == old(currentAmmo) + old(totalAmmo)
        && old(currentAmmo) <= currentAmmo <= MaxAmmo() && 0 <= totalAmmo
        && (currentAmmo == MaxAmmo() || totalAmmo == 0)
      ensures data == old(data) && lastFireTime == old(lastFireTime) && raised == old(raised)
    {
      var ammoToReload := Min(Wrap32(MaxAmmo() - currentAmmo), totalAmmo);
      currentAmmo := Wrap32(currentAmmo + ammoToReload);
      totalAmmo := Wrap32(totalAmmo - ammoToReload);
      isReloading := false;
    }

    /** `AddAmmo(amount)`: C# `int` addition to the reserve. */
    method AddAmmo(amount: int)
      requires Valid() && IsInt32(amount)
      modifies this
      ensures Valid()
      ensures totalAmmo == Wrap32(old(totalAmmo) + amount)
      ensures IsInt32(old(totalAmmo) + amount) ==> totalAmmo == old(totalAmmo) + amount
      ensures currentAmmo == old(currentAmmo) && isReloading == old(isReloading)
      ensures data == old(data) && lastFireTime == old(lastFireTime) && raised == old(raised)
    {
      totalAmmo := Wrap32(totalAmmo + amount);
    }

    /**
     * `Fire(origin, direction)` at time `now`. When the weapon cannot fire,
     * an empty magazine is signalled and nothing else happens. Otherwise one
     * round leaves the magazine, the cooldown restarts, `WeaponFired` is
     * raised with the weapon's damage and an emptied magazine triggers an
     * automatic reload when the data allows it and the reserve has rounds.
     * Without data the sound lookup throws: on the empty path before any
     * change, on the firing path after the round was spent.
     */
    method Fire(now: real) returns (outcome: FireOutcome, reload: Option<ReloadOutcome>)
      requires Valid()
      modifies this
      ensures Valid()
      ensures data == old(data) && totalAmmo == old(totalAmmo)
      ensures outcome == (if old(CanFire(now)) then (if data.None? then Faulted else Fired)
                          else if old(currentAmmo) <= 0 then (if data.None? then Faulted else Empty)
                          else Blocked)
      ensures !old(CanFire(now)) ==> unchanged(this) && reload.None?
      ensures old(CanFire(now)) ==> currentAmmo == old(currentAmmo) - 1 && currentAmmo >= 0 && lastFireTime == now
      ensures outcome == Faulted ==> raised == old(raised) && reload.None? && isReloading == old(isReloading)
      ensures outcome == Fired ==>
        && raised == old(raised) + [WeaponFired(Damage())]
        && reload == (if currentAmmo <= 0 && totalAmmo > 0 && data.value.hasReload
                      then Some(if 0 >= MaxAmmo() then NotNeeded else Started)
                      else None)
        && isReloading == (reload == Some(Started))
    {
      reload := None;
      if !CanFire(now) {
        if currentAmmo <= 0 {
          if data.None? {
            return Faulted, None;
          }
          return Empty, None;
        }
        return Blocked, None;
      }
      lastFireTime := now;
      currentAmmo := currentAmmo - 1;
      if data.None? {
        return Faulted, None;
      }
      raised := raised + [WeaponFired(Damage())];
      if currentAmmo <= 0 && totalAmmo > 0 && data.value.hasReload {
        var r := Reload();
        reload := Some(r);
      }
      return Fired, reload;
    }
  }
}
