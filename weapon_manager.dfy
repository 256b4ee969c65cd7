/**
 * `WeaponManager`: the player's weapon inventory. It keeps a list of
 * weapons with no repeats and the index of the selected one, switches by
 * index, by wrap-around next/previous steps or on removal, and forwards
 * reload and ammo requests to the selected weapon.
 */
module WeaponManager {
  import opened Common
  import opened WeaponSystem

  /** One `SetWeaponActive` call that reached a weapon's game object. */
  datatype Activation = Activation(weapon: BaseWeapon, active: bool)

  /** The manager's instance events. */
  datatype Notice =
    | OnWeaponSwitched(from: Option<BaseWeapon>, to: Option<BaseWeapon>)
    | OnWeaponAdded(weapon: BaseWeapon)
    | OnWeaponRemoved(weapon: BaseWeapon)

  /** The `WeaponState` struct; its default is all zeros. */
  datatype WeaponState = WeaponState(weaponIndex: int, currentAmmo: int, isReloading: bool)

  const DefaultWeaponState: WeaponState := WeaponState(0, 0, false)

  predicate NoDuplicates<T(==)>(s: seq<T>)
  {
    forall i, j :: 0 <= i < j < |s| ==> s[i] != s[j]
  }

  /** `List.IndexOf`: the first position of `x`, or -1. */
  function IndexOf<T(==)>(s: seq<T>, x: T): (r: int)
    ensures -1 <= r < |s|
    ensures r == -1 <==> x !in s
    ensures r >= 0 ==> s[r] == x && x !in s[..r]
  {
    if |s| == 0 then -1
    else if s[0] == x then 0
    else
      var k := IndexOf(s[1..], x);
      if k == -1 then -1
      else
        assert s[..k + 1] == [s[0]] + s[1..][..k];
        k + 1
  }

  /** `List.RemoveAt(index)`. */
  function RemoveAt<T>(s: seq<T>, index: nat): (r: seq<T>)
    requires index < |s|
    ensures |r| == |s| - 1
    ensures forall i :: 0 <= i < index ==> r[i] == s[i]
    ensures forall i :: index <= i < |r| ==> r[i] == s[i + 1]
  {
    s[..index] + s[index + 1..]
  }

  /** Removing one position of a list with no repeats drops exactly that element and keeps the list free of repeats. */
  lemma {:induction false} RemoveAtFacts<T>(s: seq<T>, index: nat)
    requires index < |s| && NoDuplicates(s)
    ensures NoDuplicates(RemoveAt(s, index))
    ensures forall x :: x in RemoveAt(s, index) <==> x in s && x != s[index]
  {
    var r := RemoveAt(s, index);
    forall x
      ensures x in r <==> x in s && x != s[index]
    {
      if x in r {
        var j :| 0 <= j < |r| && r[j] == x;
        if j < index {
          assert s[j] == x;
        } else {
          assert s[j + 1] == x;
        }
      }
      if x in s && x != s[index] {
        var j :| 0 <= j < |s| && s[j] == x;
        if j < index {
          assert r[j] == x;
        } else {
          assert r[j - 1] == x;
        }
      }
    }
    forall i, j | 0 <= i < j < |r|
      ensures r[i] != r[j]
    {
      var bi := if i < index then i else i + 1;
      var bj := if j < index then j else j + 1;
      assert r[i] == s[bi] && r[j] == s[bj];
    }
  }

  /**
   * The list after the `InitializeWeapons` loop: each found weapon, in
   * order, is appended unless the list already contains it.
   */
  function AppendNew<T(==)>(list: seq<T>, found: seq<T>): seq<T>
    decreases |found|
  {
    if |found| == 0 then list
    else
      var before := AppendNew(list, found[..|found| - 1]);
      if found[|found| - 1] in before then before else before + [found[|found| - 1]]
  }

  /** Appending only new weapons keeps the list free of repeats, keeps what was there, and adds exactly the found weapons. */
  lemma {:induction false} AppendNewFacts<T>(list: seq<T>, found: seq<T>)
    requires NoDuplicates(list)
    ensures var r := AppendNew(list, found);
      && NoDuplicates(r)
      && |list| <= |r| <= |list| + |found|
      && r[..|list|] == list
      && (forall x :: x in r <==> x in list || x in found)
    decreases |found|
  {
    if |found| > 0 {
      var init := found[..|found| - 1];
      var w := found[|found| - 1];
      AppendNewFacts(list, init);
      var before := AppendNew(list, init);
      assert found == init + [w];
      if w !in before {
        var r := before + [w];
        assert r[..|list|] == before[..|list|];
        forall i, j | 0 <= i < j < |r|
          ensures r[i] != r[j]
        {
          if j == |before| {
            assert r[i] == before[i] && before[i] in before;
          }
        }
      }
    }
  }

  /** The `SetWeaponActive(i, i == current)` calls of the `InitializeWeapons` loop, in order. */
  function ActivationPlan(weapons: seq<BaseWeapon>, current: int): (r: seq<Activation>)
    ensures |r| == |weapons|
    ensures forall i :: 0 <= i < |r| ==> r[i].weapon == weapons[i] && (r[i].active <==> i == current)
  {
    seq(|weapons|, i requires 0 <= i < |weapons| => Activation(weapons[i], i == current))
  }

  /** The target of `SwitchToNextWeapon` among `count` weapons. */
  function NextIndex(current: nat, count: nat): nat
    requires count > 0
  {
    (current + 1) % count
  }

  /** The target of `SwitchToPreviousWeapon`: one down, wrapping below 0 to the last weapon. */
  function PreviousIndex(current: nat, count: nat): int
  {
    if current - 1 < 0 then count - 1 else current - 1
  }

  /** Stepping forward and back (or back and forward) from a valid index returns to it, and both steps stay in range. */
  lemma {:induction false} NextPreviousInverse(current: nat, count: nat)
    requires current < count
    ensures 0 <= NextIndex(current, count) < count
    ensures 0 <= PreviousIndex(current, count) < count
    ensures PreviousIndex(NextIndex(current, count), count) == current
    ensures NextIndex(PreviousIndex(current, count), count) == current
  {
    if current + 1 < count {
      ModBelow(current + 1, count);
    } else {
      ModSelf(count);
    }
    if current == 0 {
      ModSelf(count);
    } else {
      ModBelow(current, count);
    }
  }

  lemma ModBelow(a: nat, n: nat)
    requires a < n
    ensures a % n == a
  {
  }

  lemma ModSelf(n: nat)
    requires n > 0
    ensures n % n == 0
  {
  }

  class WeaponManager {
    var availableWeapons: seq<BaseWeapon>
    var currentWeaponIndex: int
    var allowWeaponSwitching: bool
    const switchCooldown: real
    var lastSwitchTime: real
    ghost var activations: seq<Activation>
    ghost var notices: seq<Notice>

    /** The index is never negative and no weapon is listed twice. */
    ghost predicate Valid()
      reads this
    {
      currentWeaponIndex >= 0 && NoDuplicates(availableWeapons)
    }

    /** `CurrentWeapon`: the selected weapon, or none when the list is empty or the index is past its end. */
    function CurrentWeapon(): (r: Option<BaseWeapon>)
      requires currentWeaponIndex >= 0
      reads this
      ensures r.None? <==> |availableWeapons| == 0 || currentWeaponIndex >= |availableWeapons|
      ensures r.Some? ==> r.value == availableWeapons[currentWeaponIndex]
    {
      if |availableWeapons| > 0 && currentWeaponIndex < |availableWeapons| then Some(availableWeapons[currentWeaponIndex])
      else None
    }

    /** `CanSwitchWeapons` at time `now`: switching is allowed and the cooldown has elapsed. */
    predicate CanSwitchWeapons(now: real)
      reads this
      ensures CanSwitchWeapons(now) <==> allowWeaponSwitching && now >= lastSwitchTime + switchCooldown
    {
      allowWeaponSwitching && now >= lastSwitchTime + switchCooldown
    }

    /** The cooldown only elapses with time: a switch allowed now is allowed at any later time. */
    lemma CanSwitchLater(now: real, later: real)
      requires now <= later
      ensures CanSwitchWeapons(now) ==> CanSwitchWeapons(later)
      ensures !allowWeaponSwitching ==> !CanSwitchWeapons(later)
    {
    }

    /** The serialized fields: an empty list, the configured index, switching flag and cooldown. */
    constructor (currentWeaponIndex: nat, allowWeaponSwitching: bool, switchCooldown: real)
      ensures availableWeapons == [] && this.currentWeaponIndex == currentWeaponIndex
      ensures this.allowWeaponSwitching == allowWeaponSwitching && this.switchCooldown == switchCooldown
      ensures lastSwitchTime == 0.0 && activations == [] && notices == []
      ensures Valid()
    {
      availableWeapons := [];
      this.currentWeaponIndex := currentWeaponIndex;
      this.allowWeaponSwitching := allowWeaponSwitching;
      this.switchCooldown := switchCooldown;
      lastSwitchTime := 0.0;
      activations := [];
      notices := [];
    }

    /**
     * `InitializeWeapons`, run from `Awake` with the weapons found among the
     * children: adds each one not yet listed, then activates the selected
     * slot and deactivates every other.
     */
    method InitializeWeapons(found: seq<BaseWeapon>)
      requires Valid()
      modifies this
      ensures Valid()
      ensures availableWeapons == AppendNew(old(availableWeapons), found)
      ensures forall w :: w in availableWeapons <==> w in old(availableWeapons) || w in found
      ensures activations == old(activations) + ActivationPlan(availableWeapons, currentWeaponIndex)
      ensures currentWeaponIndex == old(currentWeaponIndex) && allowWeaponSwitching == old(allowWeaponSwitching)
      ensures lastSwitchTime == old(lastSwitchTime) && notices == old(notices)
    {
      var k := 0;
      while k < |found|
        invariant 0 <= k <= |found|
        invariant availableWeapons == AppendNew(old(availableWeapons), found[..k])
        invariant currentWeaponIndex == old(currentWeaponIndex) && allowWeaponSwitching == old(allowWeaponSwitching)
        invariant lastSwitchTime == old(lastSwitchTime) && notices == old(notices) && activations == old(activations)
      {
        assert found[..k + 1][..k] == found[..k];
        if found[k] !in availableWeapons {
          availableWeapons := availableWeapons + [found[k]];
        }
        k := k + 1;
      }
      assert found[..k] == found;
      AppendNewFacts(old(availableWeapons), found);
      var i := 0;
      while i < |availableWeapons|
        invariant 0 <= i <= |availableWeapons|
        invariant activations == old(activations) + ActivationPlan(availableWeapons[..i], currentWeaponIndex)
        invariant availableWeapons == AppendNew(old(availableWeapons), found)
        invariant currentWeaponIndex == old(currentWeaponIndex) && allowWeaponSwitching == old(allowWeaponSwitching)
        invariant lastSwitchTime == old(lastSwitchTime) && notices == old(notices)
      {
        assert ActivationPlan(availableWeapons[..i + 1], currentWeaponIndex)
            == ActivationPlan(availableWeapons[..i], currentWeaponIndex) + [Activation(availableWeapons[i], i == currentWeaponIndex)];
        SetWeaponActive(i, i == currentWeaponIndex);
        i := i + 1;
      }
      assert availableWeapons[..i] == availableWeapons;
    }

    /** `SetWeaponActive(index, active)`: ignored for an index out of range. */
    method SetWeaponActive(weaponIndex: int, active: bool)
      modifies this
      ensures 0 <= weaponIndex < |availableWeapons| ==>
        activations == old(activations) + [Activation(availableWeapons[weaponIndex], active)]
      ensures !(0 <= weaponIndex < |availableWeapons|) ==> activations == old(activations)
      ensures availableWeapons == old(availableWeapons) && currentWeaponIndex == old(currentWeaponIndex)
      ensures allowWeaponSwitching == old(allowWeaponSwitching) && lastSwitchTime == old(lastSwitchTime)
      ensures notices == old(notices)
    {
      if weaponIndex < 0 || weaponIndex >= |availableWeapons| {
        return;
      }
      activations := activations + [Activation(availableWeapons[weaponIndex], active)];
    }

    /**
     * `SwitchToWeapon(index, playEffects)` at time `now`: refused while
     * switching is disallowed or cooling down, for an index out of range
     * and for the current index. Otherwise the previous weapon (if any) is
     * deactivated, the target activated, the cooldown restarted and the
     * switch announced.
     */
    method SwitchToWeapon(weaponIndex: int, now: real)
      requires Valid()
      modifies this
      ensures Valid()
      ensures availableWeapons == old(availableWeapons) && allowWeaponSwitching == old(allowWeaponSwitching)
      ensures (|| !old(CanSwitchWeapons(now)) || weaponIndex < 0 || weaponIndex >= |availableWeapons|
               || weaponIndex == old(currentWeaponIndex)) ==> unchanged(this)
      ensures old(CanSwitchWeapons(now)) && 0 <= weaponIndex < |availableWeapons| && weaponIndex != old(currentWeaponIndex) ==>
        && currentWeaponIndex == weaponIndex
        && lastSwitchTime == now
        && activations == old(activations)
             + (if old(CurrentWeapon()).Some? then [Activation(old(CurrentWeapon()).value, false)] else [])
             + [Activation(availableWeapons[weaponIndex], true)]
        && notices == old(notices) + [OnWeaponSwitched(old(CurrentWeapon()), Some(availableWeapons[weaponIndex]))]
    {
      if !CanSwitchWeapons(now) || weaponIndex < 0 || weaponIndex >= |availableWeapons| {
        return;
      }
      if weaponIndex == currentWeaponIndex {
        return;
      }
      var previousWeapon := CurrentWeapon();
      if previousWeapon.Some? {
        SetWeaponActive(currentWeaponIndex, false);
      }
      currentWeaponIndex := weaponIndex;
      var newWeapon := CurrentWeapon();
      if newWeapon.Some? {
        SetWeaponActive(currentWeaponIndex, true);
      }
      lastSwitchTime := now;
      notices := notices + [OnWeaponSwitched(previousWeapon, newWeapon)];
    }

    /** `SwitchToNextWeapon`: targets the next slot, wrapping past the last; with no weapons the `%` throws. */
    method SwitchToNextWeapon(now: real) returns (faulted: bool)
      requires Valid()
      modifies this
      ensures Valid()
      ensures faulted <==> |availableWeapons| == 0
      ensures availableWeapons == old(availableWeapons) && allowWeaponSwitching == old(allowWeaponSwitching)
      ensures faulted ==> unchanged(this)
      ensures !faulted ==> var target := NextIndex(old(currentWeaponIndex), |availableWeapons|);
        old(CanSwitchWeapons(now)) && target != old(currentWeaponIndex) ==>
          && currentWeaponIndex == target
          && lastSwitchTime == now
          && activations == old(activations)
               + (if old(CurrentWeapon()).Some? then [Activation(old(CurrentWeapon()).value, false)] else [])
               + [Activation(availableWeapons[target], true)]
          && notices == old(notices) + [OnWeaponSwitched(old(CurrentWeapon()), Some(availableWeapons[target]))]
      ensures !faulted && !(old(CanSwitchWeapons(now)) && NextIndex(old(currentWeaponIndex), |availableWeapons|) != old(currentWeaponIndex)) ==>
        unchanged(this)
    {
      if |availableWeapons| == 0 {
        return true;
      }
      var nextIndex := (currentWeaponIndex + 1) % |availableWeapons|;
      SwitchToWeapon(nextIndex, now);
      return false;
    }

    /** `SwitchToPreviousWeapon`: targets the previous slot, wrapping below the first; with no weapons the target is -1 and nothing happens. */
    method SwitchToPreviousWeapon(now: real)
      requires Valid()
      modifies this
      ensures Valid()
      ensures availableWeapons == old(availableWeapons) && allowWeaponSwitching == old(allowWeaponSwitching)
      ensures var target := PreviousIndex(old(currentWeaponIndex), |availableWeapons|);
        old(CanSwitchWeapons(now)) && 0 <= target < |availableWeapons| && target != old(currentWeaponIndex) ==>
          && currentWeaponIndex == target
          && lastSwitchTime == now
          && activations == old(activations)
               + (if old(CurrentWeapon()).Some? then [Activation(old(CurrentWeapon()).value, false)] else [])
               + [Activation(availableWeapons[target], true)]
          && notices == old(notices) + [OnWeaponSwitched(old(CurrentWeapon()), Some(availableWeapons[target]))]
      ensures var target := PreviousIndex(old(currentWeaponIndex), |availableWeapons|);
        !(old(CanSwitchWeapons(now)) && 0 <= target < |availableWeapons| && target != old(currentWeaponIndex)) ==>
          unchanged(this)
    {
      var prevIndex := currentWeaponIndex - 1;
      if prevIndex < 0 {
        prevIndex := |availableWeapons| - 1;
      }
      SwitchToWeapon(prevIndex, now);
    }

    /**
     * `AddWeapon(weapon)`: ignores null and weapons already listed; otherwise
     * appends and announces the weapon and, when it is the only one, tries to
     * switch to slot 0, which switches (and announces the switch from no
     * weapon) only when the index was elsewhere and switching is allowed.
     */
    method AddWeapon(weapon: BaseWeapon?, now: real)
      requires Valid()
      modifies this
      ensures Valid()
      ensures weapon == null || weapon in old(availableWeapons) ==> unchanged(this)
      ensures weapon != null && weapon !in old(availableWeapons) ==>
        && availableWeapons == old(availableWeapons) + [weapon]
        && allowWeaponSwitching == old(allowWeaponSwitching)
        && (|availableWeapons| > 1 || old(currentWeaponIndex) == 0 || !old(CanSwitchWeapons(now)) ==>
              && currentWeaponIndex == old(currentWeaponIndex) && lastSwitchTime == old(lastSwitchTime)
              && activations == old(activations)
              && notices == old(notices) + [OnWeaponAdded(weapon)])
        && (|availableWeapons| == 1 && old(currentWeaponIndex) != 0 && old(CanSwitchWeapons(now)) ==>
              && currentWeaponIndex == 0 && lastSwitchTime == now
              && activations == old(activations) + [Activation(weapon, true)]
              && notices == old(notices) + [OnWeaponAdded(weapon), OnWeaponSwitched(None, Some(weapon))])
    {
      if weapon != null && weapon !in availableWeapons {
        availableWeapons := availableWeapons + [weapon];
        notices := notices + [OnWeaponAdded(weapon)];
        if |availableWeapons| == 1 {
          SwitchToWeapon(0, now);
        }
      }
    }

    /**
     * `RemoveWeapon(weapon)`: removes the weapon's one occurrence, announces
     * it and pulls an index past the end back to the last slot (0 when the
     * list is empty). The closing `SwitchToWeapon(currentWeaponIndex)`
     * targets the current index and so never switches.
     */
    method RemoveWeapon(weapon: BaseWeapon?, now: real)
      requires Valid()
      modifies this
      ensures Valid()
      ensures weapon == null || weapon !in old(availableWeapons) ==> unchanged(this)
      ensures weapon != null && weapon in old(availableWeapons) ==>
        && availableWeapons == RemoveAt(old(availableWeapons), IndexOf(old(availableWeapons), weapon))
        && weapon !in availableWeapons
        && (forall w :: w in availableWeapons <==> w in old(availableWeapons) && w != weapon)
        && currentWeaponIndex == (if old(currentWeaponIndex) >= |availableWeapons| then Max(0, |availableWeapons| - 1)
                                  else old(currentWeaponIndex))
        && currentWeaponIndex <= Max(0, |availableWeapons| - 1)
        && notices == old(notices) + [OnWeaponRemoved(weapon)]
        && activations == old(activations) && lastSwitchTime == old(lastSwitchTime)
        && allowWeaponSwitching == old(allowWeaponSwitching)
    {
      if weapon == null {
        return;
      }
      var index := IndexOf(availableWeapons, weapon);
      if index >= 0 {
        RemoveAtFacts(availableWeapons, index);
        availableWeapons := RemoveAt(availableWeapons, index);
        notices := notices + [OnWeaponRemoved(weapon)];
        if currentWeaponIndex >= |availableWeapons| {
          currentWeaponIndex := Max(0, |availableWeapons| - 1);
        }
        SwitchToWeapon(currentWeaponIndex, now);
      }
    }

    /** `HandlePlayerDeath`: switching is disabled for good, so no later switch can happen at any time. */
    method HandlePlayerDeath()
      requires Valid()
      modifies this
      ensures Valid() && !allowWeaponSwitching
      ensures forall now: real :: !CanSwitchWeapons(now)
      ensures availableWeapons == old(availableWeapons) && currentWeaponIndex == old(currentWeaponIndex)
      ensures lastSwitchTime == old(lastSwitchTime) && activations == old(activations) && notices == old(notices)
    {
      allowWeaponSwitching := false;
    }

    /** `ReloadCurrentWeapon`: asks the selected weapon, if any, to reload. */
    method ReloadCurrentWeapon() returns (outcome: Option<ReloadOutcome>)
      requires Valid()
      requires CurrentWeapon().Some? ==> CurrentWeapon().value.Valid()
      modifies availableWeapons
      ensures outcome.Some? <==> CurrentWeapon().Some?
      ensures CurrentWeapon().Some? ==> CurrentWeapon().value.Valid()
      ensures CurrentWeapon().Some? ==>
        var w := CurrentWeapon().value;
        && outcome.value == (if old(w.isReloading) || old(w.currentAmmo) >= old(w.MaxAmmo()) || old(w.totalAmmo) <= 0 then NotNeeded
                             else if w.data.None? then ReloadFaulted else Started)
        && (outcome.value != NotNeeded ==> w.isReloading)
        && (outcome.value == NotNeeded ==> w.isReloading == old(w.isReloading))
        && w.currentAmmo == old(w.currentAmmo) && w.totalAmmo == old(w.totalAmmo)
        && w.data == old(w.data) && w.lastFireTime == old(w.lastFireTime) && w.raised == old(w.raised)
      ensures forall w :: w in availableWeapons && Some(w) != CurrentWeapon() ==> unchanged(w)
    {
      var current := CurrentWeapon();
      if current.None? {
        return None;
      }
      var r := current.value.Reload();
      return Some(r);
    }

    /** `AddAmmoToCurrentWeapon(amount)`: adds to the selected weapon's reserve, if there is a selected weapon. */
    method AddAmmoToCurrentWeapon(amount: int)
      requires Valid() && IsInt32(amount)
      requires CurrentWeapon().Some? ==> CurrentWeapon().value.Valid()
      modifies availableWeapons
      ensures CurrentWeapon().Some? ==>
        var w := CurrentWeapon().value;
        && w.Valid()
        && w.totalAmmo == Wrap32(old(w.totalAmmo) + amount)
        && w.currentAmmo == old(w.currentAmmo) && w.isReloading == old(w.isReloading)
        && w.data == old(w.data) && w.lastFireTime == old(w.lastFireTime) && w.raised == old(w.raised)
      ensures forall w :: w in availableWeapons && Some(w) != CurrentWeapon() ==> unchanged(w)
    {
      var current := CurrentWeapon();
      if current.Some? {
        current.value.AddAmmo(amount);
      }
    }

    /** `GetWeaponState(index)`: the listed weapon's index, magazine and reload flag, or the default for an index out of range. */
    function GetWeaponState(weaponIndex: int): (r: WeaponState)
      reads this, availableWeapons
      ensures !(0 <= weaponIndex < |availableWeapons|) ==> r == DefaultWeaponState
      ensures 0 <= weaponIndex < |availableWeapons| ==>
        r == WeaponState(weaponIndex, availableWeapons[weaponIndex].currentAmmo, availableWeapons[weaponIndex].isReloading)
    {
      if 0 <= weaponIndex < |availableWeapons| then
        var weapon := availableWeapons[weaponIndex];
        WeaponState(weaponIndex, weapon.currentAmmo, weapon.isReloading)
      else DefaultWeaponState
    }
  }
}
