# Zombtoy core, modelled in Dafny

Zombtoy is a Unity survival shooter. The player fights waves of zombies.
A score manager keeps the run's score, high score and kill count, and backs
the last run up in `PlayerPrefs` so that the results scene can show it. The
results scene posts a new high score to a small score server, and the
leaderboard reads the scores back from that server. Two score servers
exist: an ASP.NET one over SQLite and an Express one over a text file. The
repository also carries three Python scripts that draw PlantUML diagrams
of its own C# code: class inheritance, game-event flow and a call graph.

This project models that core:

- **Game scripts.**
  - Player and enemy health.
  - Enemy regeneration and spawning.
  - The game-state machine and the game-over latch.
  - The score manager with its backup.
  - Weapon ammunition and the weapon list.
  - The component cache.
  - The results screen and the leaderboard client.
- **Score servers.** The two back ends.
- **Diagram scripts.** The parsing and emitting logic of the three scripts.

Each MonoBehaviour becomes a `class` whose fields its methods update. Pure
helpers become functions, and properties are stated as lemmas. Whatever the
engine supplies becomes a method parameter: the time, a random draw, a
lookup result, a request outcome, a storage failure. Signals raised on the
static `GameEvents` hub are recorded in a ghost trace, `raised` or
`notices`.

## Model

| member | source | states |
|---|---|---|
| Common.Wrap32 | Assets/Scripts/Managers/ScoreManager.cs:191 | C# unchecked `int` arithmetic: the result is a 32-bit value congruent to the exact one modulo 2^32, and equal to it when that fits |
| Prefs.PlayerPrefs.SetInt | Assets/Scripts/Managers/ScoreManager.cs:261-268 | the store maps the key to the value and is otherwise unchanged |
| Prefs.PlayerPrefs.DeleteKey | Assets/Scripts/Managers/ScoreManager.cs:199-222 | the key is gone and every other entry is kept; deleting an absent key changes nothing |
| Decimal.NatDigits | Assets/Scripts/Server/Leaderboard.cs:129 | `ToString` of a natural number gives digits only, with no leading zero |
| Decimal.DigitsOfNat | Assets/Scripts/Server/Leaderboard.cs:129 | the digits `ToString` writes read back as the number |
| Decimal.ParseOfDecimal | Assets/Scripts/Server/Leaderboard.cs:125-129 | `int.Parse(n.ToString()) == n` for every 32-bit `n` |
| Decimal.ParseEmptyFails | Assets/Scripts/Server/Leaderboard.cs:125 | `int.Parse` rejects the empty text and a lone sign with a format error |
| Decimal.ParseInRange | Assets/Scripts/Server/Leaderboard.cs:125 | a successful `int.Parse` yields a 32-bit value |
| Decimal.ParseRejectsNonNumericStart | Assets/Scripts/Server/Leaderboard.cs:125 | text that starts with a letter or other non-numeric character is a format error |
| Decimal.DecimalShape | Assets/Scripts/Server/Leaderboard.cs:129 | `n.ToString()` is an optional minus sign followed by digits, and ends in a digit |
| Sorting.SortFacts | Assets/Scripts/Server/Leaderboard.cs:127 | the sort used for `Array.Sort` and Python's `sorted` returns a sorted permutation of its input |
| Sorting.ReverseMultiset | Assets/Scripts/Server/Leaderboard.cs:128 | `Array.Reverse` keeps the multiset of elements |
| Sorting.SortStrings | DevTools/Diagrams/generate_class_dependency.py:43-46 | `sorted` on names: a permutation in code-point order |
| Text.Split | Assets/Scripts/Server/Leaderboard.cs:171 | splitting gives at least one piece |
| Text.SplitCount | Assets/Scripts/Server/Leaderboard.cs:171 | a split has one more piece than there are separators |
| Text.SplitPiecesFree | Assets/Scripts/Server/Leaderboard.cs:171 | no piece contains the separator |
| Text.JoinSplit | Assets/Scripts/Server/Leaderboard.cs:171 | joining the pieces with the separator gives the text back |
| Text.SplitJoin | Backend/ZombtoyBackend/Program.cs:77 | splitting a join of separator-free pieces gives the pieces back |
| Text.Contains | DevTools/Diagrams/test_diagrams.py:205-206 | `sub in s` holds iff `sub` occurs at some position of `s` |
| Text.TrimFacts | Backend/ZombtoyBackend/Program.cs:32 | a trim starts and ends outside the whitespace set, and is empty iff the text is all whitespace |
| Text.TrimIdentity | Backend/ZombtoyBackend/Program.cs:32 | a text that starts and ends outside the whitespace set is its own trim |
| Diagrams.SortedNames | DevTools/Diagrams/generate_class_dependency.py:43-46 | `sorted(names)` on a set: every name exactly once, in code-point order |
| Diagrams.InSomeOrder | DevTools/Diagrams/generate_class_dependency.py:47-54 | iterating a Python set or dict visits every element exactly once |
| Diagrams.Framed | DevTools/Diagrams/generate_event_flow.py:38-50 | a diagram opens with `@startuml`, then the title and skin lines, then the body, and closes with `@enduml` |
| PlayerHealth.ClampBounds | Assets/Scripts/Player/PlayerHealthRefactored.cs:400 | `Mathf.Clamp` lands within the bounds and keeps a value already inside them |
| PlayerHealth.HealPastIntMaxWraps | Assets/Scripts/Player/PlayerHealthRefactored.cs:380-381 | healing from 50 of 100 by `int.MaxValue` wraps the sum negative, and the cap at the maximum keeps the negative value |
| PlayerHealth.PlayerHealthRefactored.constructor | Assets/Scripts/Player/PlayerHealthRefactored.cs:88-93 | `Awake` through `InitializeHealth` (142-148) and `InitializeStamina` (150-154): full health and stamina, alive, nothing raised |
| PlayerHealth.PlayerHealthRefactored.TakeDamage | Assets/Scripts/Player/PlayerHealthRefactored.cs:336-373 | ignored when dead, invulnerable or for a non-positive amount; otherwise health becomes the 32-bit difference floored at 0 (for an `int` amount from a valid state, the plain difference), invulnerability starts, regeneration stops, the change is raised, and reaching 0 raises death; validity is kept for `int` amounts |
| PlayerHealth.PlayerHealthRefactored.EndInvulnerability | Assets/Scripts/Player/PlayerHealthRefactored.cs:479-484 | the end of the invulnerability window clears the flag and changes nothing else |
| PlayerHealth.PlayerHealthRefactored.Heal | Assets/Scripts/Player/PlayerHealthRefactored.cs:375-396 | ignored when dead, for a non-positive amount or at full health; otherwise health becomes the 32-bit sum capped at the maximum, which is a strict rise when the sum fits in an `int`, and the change is raised; validity is kept when the sum fits |
| PlayerHealth.PlayerHealthRefactored.SetHealth | Assets/Scripts/Player/PlayerHealthRefactored.cs:398-412 | the value is clamped into [0, max]; reaching 0 while alive kills, a positive value while dead revives to full health, otherwise only the health changes; the events are raised in order |
| PlayerHealth.PlayerHealthRefactored.AddMaxHealth | Assets/Scripts/Player/PlayerHealthRefactored.cs:414-422 | the maximum becomes the 32-bit sum with the amount (the exact sum when it fits) and the current health is lowered to it when above |
| PlayerHealth.PlayerHealthRefactored.RestoreStamina | Assets/Scripts/Player/PlayerHealthRefactored.cs:424-429 | stamina rises by the amount, capped at its maximum |
| PlayerHealth.PlayerHealthRefactored.Die | Assets/Scripts/Player/PlayerHealthRefactored.cs:431-454 | idempotent; the first call marks death, stops sprinting and regeneration and raises death once |
| PlayerHealth.PlayerHealthRefactored.Revive | Assets/Scripts/Player/PlayerHealthRefactored.cs:456-477 | a no-op while alive; otherwise back to full health and stamina, raising revive and the new health |
| EnemyHealth.EnemyHealth.constructor | Assets/Scripts/Enemy/EnemyHealth.cs:41-61 | health starts at the starting health, alive, and `EnemySpawned` is raised |
| EnemyHealth.EnemyHealth.SlowEffectDuration | Assets/Scripts/Enemy/EnemyHealth.cs:62-66 | stores the duration and returns it |
| EnemyHealth.EnemyHealth.TakeDamage | Assets/Scripts/Enemy/EnemyHealth.cs:117-135 | ignored once dead; otherwise the amount is taken off by 32-bit subtraction with no floor, and death follows exactly when health reaches 0 or below |
| EnemyHealth.EnemyHealth.Death | Assets/Scripts/Enemy/EnemyHealth.cs:143-159 | latches death; it happens once per enemy |
| EnemyHealth.EnemyHealth.StartSinking | Assets/Scripts/Enemy/EnemyHealth.cs:166-176 | raises `EnemyKilled` with this enemy's score value |
| EnemyHealth.EnemyHealth.OnDestroy | Assets/Scripts/Enemy/EnemyHealth.cs:178-182 | raises `EnemyDestroyed`; each enemy's trace then holds exactly one spawn and one destroy |
| EnemyRegen.EnemyRegen.constructor | Assets/Scripts/EnemyRegen.cs:12-16 | binds the enemy's health component and the regeneration amount |
| EnemyRegen.EnemyRegen.Regenerate | Assets/Scripts/EnemyRegen.cs:17-23 | a living enemy below its starting health gains the amount by 32-bit addition: exactly the amount, possibly overshooting, when the sum fits; otherwise nothing changes |
| EnemyManager.ZombieCount.constructor | Assets/Scripts/Managers/EnemyManager.cs:9 | the shared counter starts with the given count and cap |
| EnemyManager.EnemyManager.constructor | Assets/Scripts/Managers/EnemyManager.cs:11-19 | `Start`: the shortest spawn interval is 0.6 times the configured one, and the `InvokeRepeating` repeat rate is the configured interval |
| EnemyManager.EnemyManager.Spawn | Assets/Scripts/Managers/EnemyManager.cs:23-40 | nothing with a dead player or a count above the cap, and an out-of-range index with no spawn points; otherwise one enemy at the drawn point, the `int` count rises by one with 32-bit wrap-around and stays at most one above the cap, and the interval shrinks by 0.99 only for a non-giant spawner still at or above the floor, so it never drops below 0.99 times the floor; the repeat rate never changes |
| GameStateManager.EnterNotices | Assets/Scripts/Core/GameStateManager.cs:128-151 | entering `Playing` announces a game start, entering `GameOver` announces the end and raises the global `GameOver` |
| GameStateManager.TimeScaleOnEnter | Assets/Scripts/Core/GameStateManager.cs:128-151 | `Paused` freezes time, `Playing`, `GameOver` and `Loading` restore it to 1, `Menu` and `Victory` leave it |
| GameStateManager.GameStateManager.constructor | Assets/Scripts/Core/GameStateManager.cs:21 | the serialized initial state is `Menu` |
| GameStateManager.GameStateManager.Start | Assets/Scripts/Core/GameStateManager.cs:42-48 | subscribes, then enters `Playing` |
| GameStateManager.GameStateManager.ChangeState | Assets/Scripts/Core/GameStateManager.cs:97-113 | a change to the current state does nothing; otherwise the state is the new one, its entry actions run and listeners hear (previous, new) |
| GameStateManager.GameStateManager.HandlePlayerDeath | Assets/Scripts/Core/GameStateManager.cs:76-79 | the player's death ends the game: from any other state it enters `GameOver` with its time scale, global signal and notices; in `GameOver` nothing changes |
| GameStateManager.GameStateManager.HandleGamePaused | Assets/Scripts/Core/GameStateManager.cs:81-87 | only `Playing` moves to `Paused`; any other state is unchanged |
| GameStateManager.GameStateManager.HandleGameResumed | Assets/Scripts/Core/GameStateManager.cs:89-95 | only `Paused` moves to `Playing`; any other state is unchanged |
| GameStateManager.GameStateManager.PauseGame | Assets/Scripts/Core/GameStateManager.cs:153-160 | from `Playing` pauses and raises `GamePaused`, whose self-delivery is a no-op; otherwise nothing |
| GameStateManager.GameStateManager.ResumeGame | Assets/Scripts/Core/GameStateManager.cs:162-169 | from `Paused` resumes and raises `GameResumed`; otherwise nothing |
| GameStateManager.GameStateManager.StartGame | Assets/Scripts/Core/GameStateManager.cs:171-174 | ends in `Playing`: from any other state with time scale 1, `OnGameStarted` and the change notice; already `Playing`, nothing changes |
| GameStateManager.GameStateManager.EndGame | Assets/Scripts/Core/GameStateManager.cs:176-179 | ends in `GameOver`, raising the global game-over signal on the way in with time scale 1 and the change notice; already in `GameOver`, nothing changes |
| GameStateManager.GameStateManager.RestartGame | Assets/Scripts/Core/GameStateManager.cs:181-187 | always ends in `Playing`, through `Loading` |
| GameStateManager.GetCurrentState | Assets/Scripts/Core/GameStateManager.cs:189 | the instance's state, `Menu` without an instance |
| GameStateManager.GameStateManager.IsPlaying | Assets/Scripts/Core/GameStateManager.cs:28 | the state is `Playing` |
| GameStateManager.GameStateManager.IsPaused | Assets/Scripts/Core/GameStateManager.cs:29 | the state is `Paused` |
| GameStateManager.GameStateManager.IsGameOver | Assets/Scripts/Core/GameStateManager.cs:30 | the state is `GameOver` |
| GameStateManager.IsCurrentlyPlaying | Assets/Scripts/Core/GameStateManager.cs:190 | true iff an instance exists and is playing |
| GameStateManager.IsCurrentlyPaused | Assets/Scripts/Core/GameStateManager.cs:191 | true iff an instance exists and is paused |
| GameStateManager.Pause | Assets/Scripts/Core/GameStateManager.cs:192 | forwards to the instance when one exists: from `Playing` it ends `Paused` with time scale 0, the change notice and `GamePaused`; otherwise nothing changes |
| GameStateManager.Resume | Assets/Scripts/Core/GameStateManager.cs:193 | forwards to the instance when one exists: from `Paused` it ends `Playing` with time scale 1, `OnGameStarted`, the change notice and `GameResumed`; otherwise nothing changes |
| GameOverManager.GameOverManager.constructor | Assets/Scripts/Managers/GameOverManager.cs:15-21 | the latch starts open |
| GameOverManager.GameOverManager.Start | Assets/Scripts/Managers/GameOverManager.cs:23-44 | subscribes both handlers and leaves the latch alone |
| GameOverManager.GameOverManager.TriggerGameOver | Assets/Scripts/Managers/GameOverManager.cs:62-82 | only the first call of a round has effect: it latches, fires the animator trigger when there is an animator, and with a state manager moves it to `GameOver` with time scale 1, the game-over signal and the change notice (nothing more if it was there already); later calls change nothing |
| GameOverManager.GameOverManager.HandlePlayerDeath | Assets/Scripts/Managers/GameOverManager.cs:52-55 | routes to the same latch, with the same first-call effect on the animator and the state manager |
| GameOverManager.GameOverManager.HandleGameOver | Assets/Scripts/Managers/GameOverManager.cs:57-60 | routes to the same latch, with the same first-call effect on the animator and the state manager |
| GameOverManager.GameOverManager.Update | Assets/Scripts/Managers/GameOverManager.cs:84-90 | the latch closes iff it was closed already or the player's health is at most 0; closing it has the first-call effect on the animator and the state manager |
| GameOverManager.GameOverManager.ResetGameOver | Assets/Scripts/Managers/GameOverManager.cs:92-95 | reopens the latch, so the next trigger fires again |
| ScoreManager.Snapshot | Assets/Scripts/Managers/ScoreManager.cs:272-276 | the captured high score is the larger of score and high score, so it is never below the score |
| ScoreManager.WithBackup | Assets/Scripts/Managers/ScoreManager.cs:279-284 | the four backup keys hold the snapshot and every other key is unchanged |
| ScoreManager.WithoutBackup | Assets/Scripts/Managers/ScoreManager.cs:208-212 | exactly the four backup keys are removed |
| ScoreManager.GetLastRunStats | Assets/Scripts/Managers/ScoreManager.cs:290-320 | the finalized snapshot first; zeros when there is no instance and no backup |
| ScoreManager.HasFinalizedRun | Assets/Scripts/Managers/ScoreManager.cs:322-329 | true iff the instance finalized its run or the backup flag is exactly 1 |
| ScoreManager.GetScore | Assets/Scripts/Managers/ScoreManager.cs:332 | the instance's score, 0 without one |
| ScoreManager.GetHighScore | Assets/Scripts/Managers/ScoreManager.cs:333 | the instance's high score, 0 without one |
| ScoreManager.GetMonsterKills | Assets/Scripts/Managers/ScoreManager.cs:334 | the instance's kills, 0 without one |
| ScoreManager.GetIsHighScore | Assets/Scripts/Managers/ScoreManager.cs:335 | true iff an instance exists and its status is set |
| ScoreManager.FallbackIsForwarders | Assets/Scripts/Managers/ScoreManager.cs:290-320 | with no captured run, the last-run stats are exactly what the three forwarders report |
| ScoreManager.BackupRecoversSnapshot | Assets/Scripts/Managers/ScoreManager.cs:290-329 | once the backup is written, a missing or unfinalized instance still reads back exactly the captured stats and sees a finalized run |
| ScoreManager.InstanceAgreesWithBackup | Assets/Scripts/Managers/ScoreManager.cs:290-329 | a finalized run reads the same with or without the instance |
| ScoreManager.ClearedBackupReportsNoRun | Assets/Scripts/Managers/ScoreManager.cs:199-222 | after a reset clears the backup, no finalized run is reported and the stats fall back to the live values or zeros |
| ScoreManager.CapturedRunHighScoreBound | Assets/Scripts/Managers/ScoreManager.cs:270-320 | a captured run, read back, keeps its score and kills and a high score at least the score and the old high score |
| ScoreManager.ScoreManager.constructor | Assets/Scripts/Managers/ScoreManager.cs:25-51 | the field initialisers: everything zero or false |
| ScoreManager.ScoreManager.Awake | Assets/Scripts/Managers/ScoreManager.cs:58-86 | the high score is loaded (a negative one is reset to 0 in cheat mode) and cheat mode detected; outside the results scene the run is reset, the backup deleted, and the high-score flag, the events raised and the kept last run are exactly determined; in the results scene the flag is kept |
| ScoreManager.ScoreManager.UpdateHighScoreStatus | Assets/Scripts/Managers/ScoreManager.cs:230-246 | the status is "score at least the high score, with cheat mode on"; the high score only rises, only to a strictly higher score under that status, and the rise is announced |
| ScoreManager.ScoreManager.AddScore | Assets/Scripts/Managers/ScoreManager.cs:188-197 | the score grows by exactly the points (32-bit), the high-score status is updated, and the new score is announced |
| ScoreManager.ScoreManager.HandleEnemyKilled | Assets/Scripts/Managers/ScoreManager.cs:168-186 | a kill adds its score value and exactly one kill, with the high score, its flag and the events raised exactly as adding that score sets them; cheat mode is unchanged |
| ScoreManager.ScoreManager.ResetScore | Assets/Scripts/Managers/ScoreManager.cs:199-222 | score and kills become 0, the run is no longer finalized, the four backup keys are deleted, and the reset and the game start are announced |
| ScoreManager.ScoreManager.OnSceneLoaded | Assets/Scripts/Managers/ScoreManager.cs:105-120 | a game scene starts a fresh run without touching the store; every scene re-detects cheat mode |
| ScoreManager.ScoreManager.SaveHighScore | Assets/Scripts/Managers/ScoreManager.cs:261-268 | the stored high score becomes the larger of itself and the score, so it never decreases |
| ScoreManager.ScoreManager.CaptureRunStats | Assets/Scripts/Managers/ScoreManager.cs:270-288 | snapshots the run, marks it finalized and mirrors it into the backup keys |
| ScoreManager.ScoreManager.HandleGameOver | Assets/Scripts/Managers/ScoreManager.cs:154-159 | the game-over signal saves, then captures: the stored preferences are the old ones with the high score raised to the final score when that is higher and the run backed up, so the stored high score is the larger of the two; both read paths report the run; the flag, cheat mode and events raised are unchanged |
| WeaponSystem.BaseWeapon.constructor | Assets/Scripts/Weapons/WeaponSystem.cs:111-137 | `Awake`: a configured weapon starts with a full magazine and its reserve, an unconfigured one with none |
| WeaponSystem.BaseWeapon.InitializeWeapon | Assets/Scripts/Weapons/WeaponSystem.cs:130-137 | with data, the magazine becomes `magazineSize` and the reserve `totalAmmo`; without, nothing changes |
| WeaponSystem.BaseWeapon.SetWeaponData | Assets/Scripts/Weapons/WeaponSystem.cs:139-143 | swaps the data and re-initialises from it |
| WeaponSystem.BaseWeapon.WeaponName | Assets/Scripts/Weapons/WeaponSystem.cs:93 | the data's name, "Unknown" without data |
| WeaponSystem.BaseWeapon.Damage | Assets/Scripts/Weapons/WeaponSystem.cs:94 | the data's base damage, 0 without data |
| WeaponSystem.BaseWeapon.FireRate | Assets/Scripts/Weapons/WeaponSystem.cs:95 | the data's fire rate, 0.1 without data |
| WeaponSystem.BaseWeapon.MaxAmmo | Assets/Scripts/Weapons/WeaponSystem.cs:98 | the data's magazine size, 0 without data |
| WeaponSystem.BaseWeapon.CanFire | Assets/Scripts/Weapons/WeaponSystem.cs:100 | not reloading, a round in the magazine, and the cooldown since the last shot elapsed |
| WeaponSystem.BaseWeapon.CanFireLater | Assets/Scripts/Weapons/WeaponSystem.cs:100 | a weapon that may fire now may fire at any later time; one marked as reloading may fire at no time |
| WeaponSystem.BaseWeapon.Reload | Assets/Scripts/Weapons/WeaponSystem.cs:181-200 | nothing while reloading, with a full magazine or an empty reserve; otherwise the weapon is marked as reloading, and without data the reload sound lookup then faults, leaving it marked; no round moves yet |
| WeaponSystem.BaseWeapon.CompleteReload | Assets/Scripts/Weapons/WeaponSystem.cs:202-211 | moves `min(MaxAmmo - current, total)` rounds; from a sane state the sum is conserved, the magazine stays within its size, the reserve stays non-negative, and afterwards the magazine is full or the reserve empty |
| WeaponSystem.BaseWeapon.AddAmmo | Assets/Scripts/Weapons/WeaponSystem.cs:214-218 | only the reserve changes, by the amount (32-bit) |
| WeaponSystem.BaseWeapon.Fire | Assets/Scripts/Weapons/WeaponSystem.cs:145-177 | when `CanFire` (line 100) fails nothing changes; otherwise exactly one round leaves, the cooldown restarts, `WeaponFired` is raised, and a reload is requested only with an empty magazine, a reserve and a reloadable weapon |
| WeaponManager.IndexOf | Assets/Scripts/Weapons/WeaponManager.cs:243 | `List.IndexOf`: the first position of the element, -1 iff it is absent |
| WeaponManager.RemoveAtFacts | Assets/Scripts/Weapons/WeaponManager.cs:246 | removing a position of a duplicate-free list drops exactly that element and keeps the list duplicate-free |
| WeaponManager.AppendNewFacts | Assets/Scripts/Weapons/WeaponManager.cs:75-81 | adding only unlisted weapons keeps the list duplicate-free, keeps its prefix, and adds exactly the found weapons |
| WeaponManager.ActivationPlan | Assets/Scripts/Weapons/WeaponManager.cs:83-87 | one activation per weapon, active exactly for the current index |
| WeaponManager.NextPreviousInverse | Assets/Scripts/Weapons/WeaponManager.cs:212-224 | next and previous stay in range and undo each other |
| WeaponManager.WeaponManager.CurrentWeapon | Assets/Scripts/Weapons/WeaponManager.cs:25-26 | none iff the list is empty or the index is past its end; otherwise the weapon at the index |
| WeaponManager.WeaponManager.CanSwitchWeapons | Assets/Scripts/Weapons/WeaponManager.cs:29 | switching is allowed and the cooldown since the last switch has elapsed |
| WeaponManager.WeaponManager.CanSwitchLater | Assets/Scripts/Weapons/WeaponManager.cs:29 | a switch allowed now is allowed at any later time, and none is allowed while switching is disabled |
| WeaponManager.WeaponManager.constructor | Assets/Scripts/Weapons/WeaponManager.cs:11-22 | the serialized fields, with an empty list |
| WeaponManager.WeaponManager.InitializeWeapons | Assets/Scripts/Weapons/WeaponManager.cs:70-88 | adds each found weapon not yet listed, then activates only the selected slot |
| WeaponManager.WeaponManager.SetWeaponActive | Assets/Scripts/Weapons/WeaponManager.cs:269-279 | ignored for an index out of range |
| WeaponManager.WeaponManager.SwitchToWeapon | Assets/Scripts/Weapons/WeaponManager.cs:174-210 | a no-op when switching is disallowed or cooling down, the index is out of range or current; otherwise the old weapon is deactivated, the new one activated and announced, and the index is the target |
| WeaponManager.WeaponManager.SwitchToNextWeapon | Assets/Scripts/Weapons/WeaponManager.cs:212-216 | with no weapons the `%` faults and nothing changes; otherwise a switch to `(current + 1) % Count` with `SwitchToWeapon`'s full effect (deactivation, activation, the notice, the cooldown restart), or no change when it is refused |
| WeaponManager.WeaponManager.SwitchToPreviousWeapon | Assets/Scripts/Weapons/WeaponManager.cs:218-224 | a switch to `current - 1`, wrapping -1 to `Count - 1`, with `SwitchToWeapon`'s full effect (deactivation, activation, the notice, the cooldown restart), or no change when it is refused; with no weapons nothing happens |
| WeaponManager.WeaponManager.AddWeapon | Assets/Scripts/Weapons/WeaponManager.cs:226-239 | ignores null and listed weapons; otherwise appends and announces it, and when it is the only weapon and the index was elsewhere and switching is allowed, also activates it, restarts the cooldown and announces the switch from no weapon; otherwise nothing else changes |
| WeaponManager.WeaponManager.RemoveWeapon | Assets/Scripts/Weapons/WeaponManager.cs:241-257 | an absent weapon changes nothing; otherwise exactly that weapon is removed and the index is clamped into [0, max(0, Count - 1)] |
| WeaponManager.WeaponManager.HandlePlayerDeath | Assets/Scripts/Weapons/WeaponManager.cs:107-111 | switching is disabled, so no later switch can happen at any time |
| WeaponManager.WeaponManager.ReloadCurrentWeapon | Assets/Scripts/Weapons/WeaponManager.cs:259-262 | reloads the selected weapon, if any, and no other: unless no reload is needed the weapon is reloading; its data, last fire time and events are unchanged |
| WeaponManager.WeaponManager.AddAmmoToCurrentWeapon | Assets/Scripts/Weapons/WeaponManager.cs:264-267 | adds to the selected weapon's reserve, if any, and to no other; that weapon's reload flag, data, last fire time and events are unchanged |
| WeaponManager.WeaponManager.GetWeaponState | Assets/Scripts/Weapons/WeaponManager.cs:291-305 | the weapon's index, magazine and reload flag, or the default for an index out of range |
| ComponentCache.AsType | Assets/Scripts/Core/ComponentCache.cs:23 | `as T`: the component when it has the type, otherwise null |
| ComponentCache.ComponentCache.constructor | Assets/Scripts/Core/ComponentCache.cs:11-12 | both caches start empty |
| ComponentCache.ComponentCache.GetCachedComponent | Assets/Scripts/Core/ComponentCache.cs:17-33 | a hit returns the stored component without a lookup; a miss looks up once and stores only a non-null result, so a found component is cached |
| ComponentCache.ComponentCache.GetCachedComponentInChildren | Assets/Scripts/Core/ComponentCache.cs:38-64 | the key is the child name when given, else the type name; a hit needs no lookup; a miss searches the children or the named child and stores only a non-null result |
| ComponentCache.ComponentCache.PreloadComponents | Assets/Scripts/Core/ComponentCache.cs:86-95 | the cache and lookup trace become the six `GetCachedComponent` steps for Transform, Rigidbody, Collider, Renderer, Animator and AudioSource, in that order; the named cache is untouched |
| ComponentCache.ComponentCache.Awake | Assets/Scripts/Core/ComponentCache.cs:97-100 | a new component runs the preload |
| ComponentCache.ComponentCache.OnDestroy | Assets/Scripts/Core/ComponentCache.cs:102-105 | a destroyed component empties both caches |
| ComponentCache.StepsCache | Assets/Scripts/Core/ComponentCache.cs:86-95 | after a run of cache steps every earlier entry is still cached and every type whose lookup found a component is cached |
| ComponentCache.PreloadedRequestIsHit | Assets/Scripts/Core/ComponentCache.cs:86-100 | after the preload, a request for a preloaded engine type that the object has is a hit |
| ComponentCache.ComponentCache.ClearCache | Assets/Scripts/Core/ComponentCache.cs:69-73 | both caches become empty |
| ComponentCache.ComponentCache.RemoveFromCache | Assets/Scripts/Core/ComponentCache.cs:78-81 | only that type's entry goes; the named cache is untouched |
| ComponentCache.GlobalComponentCache.constructor | Assets/Scripts/Core/ComponentCache.cs:114 | no object is registered |
| ComponentCache.GlobalComponentCache.GetCachedComponent | Assets/Scripts/Core/ComponentCache.cs:116-129 | a known object reuses its cache; a new one registers its attached cache or a newly added one, which first runs its `Awake` preload; the answer is that cache's, whose new state is one `GetCachedComponent` step after its old state (after the preload's six steps for a newly added cache; a miss records the lookup and caches a non-null result); every other registered cache and an unused attached cache are unchanged |
| ComponentCache.GlobalComponentCache.ClearGlobalCache | Assets/Scripts/Core/ComponentCache.cs:131-134 | no object stays registered |
| ComponentCache.GlobalComponentCache.RemoveFromGlobalCache | Assets/Scripts/Core/ComponentCache.cs:136-139 | only that object's registration goes |
| Leaderboard.RequestPacket.Full | Assets/Scripts/Server/Leaderboard.cs:15-20 | keeps the url, data and content type given, which the getters (33-35) return |
| Leaderboard.RequestPacket.WithData | Assets/Scripts/Server/Leaderboard.cs:21-26 | the content type defaults to "application/json" |
| Leaderboard.RequestPacket.constructor | Assets/Scripts/Server/Leaderboard.cs:27-31 | no data, and the content type "applications/json" as spelled |
| Leaderboard.PostRequest | Assets/Scripts/Server/Leaderboard.cs:62-86 | the body on delivery; an HTTP failure is swallowed into null; any other exception escapes |
| Leaderboard.GetRequest | Assets/Scripts/Server/Leaderboard.cs:37-61 | the body on delivery; an HTTP failure becomes the "Error 404" text; any other exception escapes |
| Leaderboard.FormatScores | Assets/Scripts/Server/Leaderboard.cs:169-172 | one more entry than there are commas, none containing a comma, and joining them with "," gives the input back |
| Leaderboard.ParsedValues | Assets/Scripts/Server/Leaderboard.cs:123-126 | one value per entry, each the entry's `int.Parse` |
| Leaderboard.FirstFailure | Assets/Scripts/Server/Leaderboard.cs:123-126 | the first entry whose parse throws |
| Leaderboard.RankingFacts | Assets/Scripts/Server/Leaderboard.cs:127-128 | sort then reverse gives the values in non-increasing order, as a permutation |
| Leaderboard.ToDecimals | Assets/Scripts/Server/Leaderboard.cs:129 | `ToString` of each value |
| Leaderboard.RankedScoresSorted | Assets/Scripts/Server/Leaderboard.cs:117-130 | when every entry parses, the result has one decimal entry per input entry, holds the same values and lists them highest first |
| Leaderboard.RankedScoresError | Assets/Scripts/Server/Leaderboard.cs:131-135 | an entry that fails to parse makes the result a single error message |
| Leaderboard.EmptyResponseIsFormatError | Assets/Scripts/Server/Leaderboard.cs:125 | an empty response splits into one empty entry, which is a format error |
| Leaderboard.FailedFetchIsFormatError | Assets/Scripts/Server/Leaderboard.cs:58 | a failed fetch's "Error 404" text ranks as a single format-error message |
| Leaderboard.ReadsPostedScores | Assets/Scripts/Server/Leaderboard.cs:107-108 | comma-joined `ToString` values split back into those entries, and each parses to its value |
| Leaderboard.DecimalsParseBack | Assets/Scripts/Server/Leaderboard.cs:125 | 32-bit values written in decimal parse back to themselves |
| Leaderboard.ParsedValuesInRange | Assets/Scripts/Server/Leaderboard.cs:125 | parsed values are 32-bit |
| Leaderboard.SortAscending | Assets/Scripts/Server/Leaderboard.cs:127 | `Array.Sort` in place: the array becomes the ascending sort of its old contents |
| Leaderboard.ReverseInPlace | Assets/Scripts/Server/Leaderboard.cs:128 | `Array.Reverse` in place: the array becomes the reverse of its old contents |
| Leaderboard.Leaderboard.constructor | Assets/Scripts/Server/Leaderboard.cs:97-99 | the score server's url, with no scores yet |
| Leaderboard.Leaderboard.SortScoreArray | Assets/Scripts/Server/Leaderboard.cs:117-136 | the ranked entries, or a single error message; the int array holds the ranking when every entry parses |
| Leaderboard.ParseEntries | Assets/Scripts/Server/Leaderboard.cs:123-126 | succeeds exactly when every entry parses as an `int`; then the array holds the parsed values in entry order, otherwise the message is that of the first entry that fails |
| Leaderboard.DecimalStrings | Assets/Scripts/Server/Leaderboard.cs:129 | each array element written back as its decimal string, in order |
| Leaderboard.Leaderboard.Start | Assets/Scripts/Server/Leaderboard.cs:105-116 | the fetched text is split and ranked; a failed fetch shows a single format-error message |
| ResultStandalone.TryGetFromScoreManager | Assets/Scripts/UI/ResultStandalone.cs:62-93 | a finalized run wins; otherwise the live values, only when score or high score is positive |
| ResultStandalone.TryGetFromPlayerPrefs | Assets/Scripts/UI/ResultStandalone.cs:95-111 | the backup, only when its flag is exactly 1 and it holds a positive score or high score |
| ResultStandalone.SelectResults | Assets/Scripts/UI/ResultStandalone.cs:26-60 | the sources are tried in order; the last one shows the raw "Score" and "HighScore" with zero kills |
| ResultStandalone.BackupBranchUnreachable | Assets/Scripts/UI/ResultStandalone.cs:41-51 | the backup branch is never taken: its flag test already makes the first source succeed |
| ResultStandalone.ResultsShowCapturedRun | Assets/Scripts/UI/ResultStandalone.cs:26-59 | after a captured run, the results scene shows exactly that run and posts iff its score is positive and reached the high score |
| ResultStandalone.PostedValueIsRunScore | Assets/Scripts/UI/ResultStandalone.cs:35-38 | for a captured snapshot, a post happens iff the score is positive and at least the old high score, and the value posted is then the run's own score |
| ResultStandalone.PostedAfterAsWritten | Assets/Scripts/UI/ResultStandalone.cs:133-147 | as written: the flag is set unless an exception other than an HTTP failure escapes |
| ResultStandalone.PostedAfter | Assets/Scripts/UI/ResultStandalone.cs:133-147 | as intended: the flag is set only once a request is delivered |
| ResultStandalone.RefusedConnectionMarksPosted | Assets/Scripts/Server/Leaderboard.cs:80-85 | a refused connection sets the flag in the code as written and leaves it clear in the intended rule |
| ResultStandalone.ResultStandalone.constructor | Assets/Scripts/UI/ResultStandalone.cs:17-18 | the score server's url, nothing posted |
| ResultStandalone.ResultStandalone.DisplayData | Assets/Scripts/UI/ResultStandalone.cs:113-131 | each text field shows its value's `ToString` |
| ResultStandalone.ResultStandalone.PostScore | Assets/Scripts/UI/ResultStandalone.cs:133-147 | a no-op once posted; otherwise posts the value to `addScore` and sets the flag only after delivery |
| ResultStandalone.ResultStandalone.DisplayResults | Assets/Scripts/UI/ResultStandalone.cs:20-60 | shows the selected data and posts its high score iff not yet posted, the score is positive and reached the high score; the raw fallback never posts |
| Backend.ExtractScoreFacts | Backend/ZombtoyBackend/Program.cs:30-58 | a blank body is "empty body"; a body not starting with `{` is stored trimmed; malformed JSON is "invalid JSON"; a missing or blank score is "missing score"; an accepted score is non-empty and trimmed |
| Backend.PostedDecimalStoredVerbatim | Backend/ZombtoyBackend/Program.cs:51-54 | what the game posts, `n.ToString()`, is stored verbatim |
| Backend.Scores | Backend/ZombtoyBackend/Program.cs:76 | the score column, in row order |
| Backend.ScoreServer.constructor | Backend/ZombtoyBackend/Program.cs:19-23 | `EnsureCreated` on an empty database |
| Backend.ScoreServer.AddScore | Backend/ZombtoyBackend/Program.cs:28-70 | 400 with the reason for a body without a score and nothing stored; 422 on a storage failure and nothing stored; otherwise exactly one row is appended and acknowledged with its score |
| Backend.ScoreServer.GetAllScores | Backend/ZombtoyBackend/Program.cs:72-84 | the scores in insertion order joined by ","; empty text on failure |
| Backend.LeaderboardReadsStoredRows | Backend/ZombtoyBackend/Program.cs:76-78 | end to end: the leaderboard's split of the reply recovers the posted values in storage order |
| TsBackend.EscapeReadsBack | Assets/Scripts/Server/zombtoy-backend/index.ts:27 | `JSON.parse` reads back exactly the string `JSON.stringify` wrote, for any string |
| TsBackend.RecordReadsBack | Assets/Scripts/Server/zombtoy-backend/index.ts:24-27 | a stringified `{score}` record reads back as its score |
| TsBackend.DropLastTerminated | Assets/Scripts/Server/zombtoy-backend/index.ts:44 | dropping the last comma of comma-terminated pieces gives the comma-joined pieces |
| TsBackend.ElementsReadBack | Assets/Scripts/Server/zombtoy-backend/index.ts:44-45 | comma-joined records closed by a bracket parse to their scores |
| TsBackend.FileReadsBack | Assets/Scripts/Server/zombtoy-backend/index.ts:27-45 | `[` + the file without its last comma + `]` parses to the list of appended scores |
| TsBackend.ScoreServer.constructor | Assets/Scripts/Server/zombtoy-backend/index.ts:3 | no file yet |
| TsBackend.ScoreServer.AddScore | Assets/Scripts/Server/zombtoy-backend/index.ts:21-37 | appends the score's record and a comma and replies 200; a failed write replies 422 and leaves the file |
| TsBackend.ScoreServer.GetAllScores | Assets/Scripts/Server/zombtoy-backend/index.ts:38-55 | no reply on a read error; otherwise the appended scores joined by ",", with no trailing comma, in append order, for any strings |
| ClassDependency.StripAll | DevTools/Diagrams/generate_class_dependency.py:32 | every kept name is non-empty and stripped |
| ClassDependency.ParentNames | DevTools/Diagrams/generate_class_dependency.py:32 | the parent list split on ",", stripped, empty pieces dropped: no name is empty, padded or holds a comma |
| ClassDependency.ParentNamesOfList | DevTools/Diagrams/generate_class_dependency.py:32 | a comma-joined list of clean names reads back as those names |
| ClassDependency.ParseFilesFacts | DevTools/Diagrams/generate_class_dependency.py:16-38 | `parse` collects every declared interface and class, maps each class to the last file declaring it, and routes a parent to `implements` iff it was a known interface when its class was read |
| ClassDependency.Parse | DevTools/Diagrams/generate_class_dependency.py:16-38 | the loops compute the fold, with the same characterisation |
| ClassDependency.RouteAll | DevTools/Diagrams/generate_class_dependency.py:32-36 | the loop over one class's parents is the routing function |
| ClassDependency.AllKnownRouting | DevTools/Diagrams/generate_class_dependency.py:26-36 | with every interface known first, a parent is implemented iff some script declares it an interface, whatever the file order |
| ClassDependency.LaterInterfaceCountsAsBase | DevTools/Diagrams/generate_class_dependency.py:26-36 | as written, an interface declared in a later file is drawn as a base class |
| ClassDependency.LaterInterfaceImplementedWhenAllKnown | DevTools/Diagrams/generate_class_dependency.py:26-36 | with all interfaces known first, the same class implements it |
| ClassDependency.WeaponScriptsDeclarations | DevTools/Diagrams/test_diagrams.py:172-193 | the class-parsing test finds the interface and all three classes |
| ClassDependency.WeaponScriptsBaseWeapon | DevTools/Diagrams/test_diagrams.py:172-193 | `MonoBehaviour` is a base of `BaseWeapon` and `IWeapon` is implemented |
| ClassDependency.WeaponScriptsSubclasses | DevTools/Diagrams/test_diagrams.py:172-193 | `BaseWeapon` and the generic `Singleton<ScoreManager>` are bases |
| ClassDependency.CleanBase | DevTools/Diagrams/generate_class_dependency.py:50 | the base name up to its first `<`, without `<` |
| ClassDependency.CleanGeneric | DevTools/Diagrams/generate_class_dependency.py:50 | `B<A>` is drawn as `B`, a plain base as itself |
| ClassDependency.EmitPuml | DevTools/Diagrams/generate_class_dependency.py:41-56 | sorted interfaces, sorted classes, then one arrow per pair in the sets' iteration order, framed and joined with newlines |
| ClassDependency.DiagramCovers | DevTools/Diagrams/generate_class_dependency.py:41-56 | in any iteration order: exactly one line per interface, class and pair, between the markers |
| ClassDependency.GenericBaseDiagram | DevTools/Diagrams/test_diagrams.py:195-206 | the generic-base test: the arrow names `Singleton`, and the text never contains `Singleton<ScoreManager>` |
| EventFlow.ClassName | DevTools/Diagrams/generate_event_flow.py:25-26 | the first class name, falling back to the relative path |
| EventFlow.Pairs | DevTools/Diagrams/generate_event_flow.py:30-33 | the (event, class) pairs of one script's matches |
| EventFlow.CollectMeaning | DevTools/Diagrams/generate_event_flow.py:15-34 | an event is declared iff some script declares it; a class raises or subscribes to an event iff some script of that name does |
| EventFlow.AddPairs | DevTools/Diagrams/generate_event_flow.py:30-33 | one match loop adds exactly its pairs |
| EventFlow.AddNames | DevTools/Diagrams/generate_event_flow.py:28-29 | the declaration loop adds exactly the names |
| EventFlow.Collect | DevTools/Diagrams/generate_event_flow.py:15-34 | `collect` returns the declared events and the raise and subscribe relations characterised above |
| EventFlow.RaisesLines | DevTools/Diagrams/generate_event_flow.py:43-45 | one `producer --> event : raises` per pair |
| EventFlow.NotifiesLines | DevTools/Diagrams/generate_event_flow.py:47-49 | one `event --> consumer : notifies` per pair |
| EventFlow.EventLayout | DevTools/Diagrams/generate_event_flow.py:37-51 | the nodes, then the raise links, then the notify links, framed |
| EventFlow.EventDiagramCovers | DevTools/Diagrams/generate_event_flow.py:37-51 | in any iteration order: exactly one node per event and one link per pair, between the markers |
| EventFlow.AppendLinks | DevTools/Diagrams/generate_event_flow.py:43-49 | one loop appends one link per pair, in order |
| EventFlow.AppendEvents | DevTools/Diagrams/generate_event_flow.py:40-41 | one stereotyped node per event, in order |
| EventFlow.EmitPuml | DevTools/Diagrams/generate_event_flow.py:37-51 | sorted event nodes, then the links in iteration order, framed and joined with newlines |
| EventFlow.EventScriptsCollected | DevTools/Diagrams/test_diagrams.py:107-127 | the event-collection test: the declarations, raisers and subscribers it checks |
| EventFlow.EventPumlLines | DevTools/Diagrams/test_diagrams.py:129-141 | the event-diagram test: the markers, the node, the raise link and the notify link, in any order |
| CallGraph.ClassFilesMeaning | DevTools/Diagrams/generate_call_graph.py:17-22 | only scripts with a class are kept, under their first class name; the last one wins |
| CallGraph.OccurrencesPositive | DevTools/Diagrams/generate_call_graph.py:29 | a target is counted at least once iff it is called, and at most once per call site |
| CallGraph.RowOfMeaning | DevTools/Diagrams/generate_call_graph.py:26-29 | one caller's edges: each known other class it calls, weighted by its call sites |
| CallGraph.EdgesOverStep | DevTools/Diagrams/generate_call_graph.py:25-29 | the loop over callers adds one caller's row at a time |
| CallGraph.CallEdgesMeaning | DevTools/Diagrams/generate_call_graph.py:23-30 | an edge exists iff the target is a kept class other than the caller and is called; its weight is the number of call sites |
| CallGraph.CountCalls | DevTools/Diagrams/generate_call_graph.py:26-29 | the inner loop adds exactly one caller's row |
| CallGraph.KeepClassFiles | DevTools/Diagrams/generate_call_graph.py:17-22 | the first loop builds the kept scripts |
| CallGraph.Collect | DevTools/Diagrams/generate_call_graph.py:16-30 | `collect` returns the kept classes and exactly the weighted edges characterised above, in any dict order |
| CallGraph.LabelMeaning | DevTools/Diagrams/generate_call_graph.py:38 | no label below weight 2; otherwise " : " and digits that read back as the weight |
| CallGraph.EdgeLines | DevTools/Diagrams/generate_call_graph.py:37-39 | one arrow per edge |
| CallGraph.CallLayout | DevTools/Diagrams/generate_call_graph.py:33-41 | the class nodes, then the arrows, framed |
| CallGraph.CallDiagramCovers | DevTools/Diagrams/generate_call_graph.py:33-41 | in any iteration order: exactly one node per class and one labelled arrow per edge, between the markers |
| CallGraph.AppendClasses | DevTools/Diagrams/generate_call_graph.py:35-36 | one `class` line per name, in order |
| CallGraph.AppendEdges | DevTools/Diagrams/generate_call_graph.py:37-39 | one arrow per edge, in order |
| CallGraph.EmitPuml | DevTools/Diagrams/generate_call_graph.py:33-41 | sorted class nodes, then the arrows in dict order, framed and joined with newlines |
| CallGraph.CallScriptsCollected | DevTools/Diagrams/test_diagrams.py:239-254 | the call-collection test: three kept classes and one edge of weight 1 |

## Left out

- I/O is represented by parameters: HTTP requests, SQLite, `fs` and `PlayerPrefs` on disk. A request or storage call becomes an outcome parameter; the database is a sequence of rows and the score file a string.
- Timers and coroutines are represented by parameters: `Time.time` is a `now` parameter. `WaitForSeconds` and `InvokeRepeating` are not modelled; the reload and invulnerability coroutines are split into a start step and a completion step.
- Per-frame float dynamics are not modelled: stamina drain and regeneration, time-based health regeneration, lerps, movement and camera code. They depend on `Time.deltaTime` and floating point.
- Floating-point rounding is not modelled: spawn intervals and time scale are `real`.
- EnemyManager.EnemyManager.Spawn: the decaying `spawnTime` is modelled as the source writes it, but it never reaches the scheduler; `InvokeRepeating` keeps the rate it was given in `Start`, kept as `repeatRate`, so the decay does not make spawns more frequent, and the engine's timer itself is not modelled.
- Decimal.ParseInt: accepts the invariant culture's `-` and `+` signs and ASCII digits only; `int.Parse` follows the current culture, whose sign symbols may differ.
- Rendering, audio, animation, particles and UI text components are not modelled. `DisplayData` writes strings; the null-component warnings are logging only.
- The leaderboard's score board layout (`createScoreBoard`, `adjustScrollHeight`) and the unused coroutine request helpers are not modelled; they are UI only.
- Input polling (`HandleInput`, `HandleWeaponFiring` in `WeaponManager`) is not modelled; it reads the keyboard.
- `SetWeaponState` and `DoFire` are not modelled. The first has an empty body; the second is abstract, implemented by the raycast and projectile weapons.
- `StartNewGame`, `StartNewGameStatic` and `ResetScoreStatic` are not modelled separately: each only calls `ResetScore` (on the instance, when there is one). The getter forwarders are modelled as functions of the optional instance.
- The `Singleton` lifecycle (`FindObjectOfType`, `DontDestroyOnLoad`, the lock) is not modelled: `Instance` is an optional value.
- Event delivery to subscribers is not modelled. Raised signals are a ghost trace, and the handlers are called explicitly where the source's ordering matters.
- `ResultStandalone.ResultStandalone.PostScore`: the post is awaited inline; the `async void` interleaving with the rest of `Start` is not modelled.
- `Backend.ScoreServer.AddScore`: JSON deserialisation of `{"score": …}` is a parameter (malformed, or an object with an optional score), not a JSON parser.
- `TsBackend.ScoreServer.AddScore`: the body is taken to be text, as `express.text()` gives for the game client's `text/plain` request. For a request of another content type `req.body` is not a string, and the stored record (`{"score":{}}`) and the later `[object Object]` reading are not modelled.
- The JSON reader of `index.ts` is modelled only for the text the server itself writes: `{"score":"…"}` records. Other JSON inputs are not covered.
- A partial `appendFile` write is not modelled: an append succeeds whole or fails whole.
- `TsBackend.ScoreServer.GetAllScores`: a surrogate escape has no `char` in this model. Such text is never written by `JSON.stringify` for a `char` sequence, so the round trip is unaffected.
- The diagram scripts' regular-expression scans and `strip_code` are not modelled: each script is given as its list of matches. A file `load_and_strip` fails on reads as empty, which has no matches.
- The order in which Python iterates a set or a dict is left open. The emitted diagrams are proved for every iteration order, so the grouping of links by event or child in the output is not captured.
- `run_tests.py`, `generate_all.py` and the `main` functions of the generators only spawn processes and write files.
- `index.js` is not part of this model. It is an unfinished duplicate of `index.ts` whose `/addScore` handler is empty.
- `PlayerHealthProxy` is not part of this model. It depends on a `PlayerHealth` class that is not in the repository.
- The remaining scripts are not modelled: physics, pickups, camera, music, pause and the UI binders.

## Findings

| source | as written | input that shows it | evidently intended | confidence | as-written member | corrected member |
|---|---|---|---|---|---|---|
| Assets/Scripts/UI/ResultStandalone.cs:133-147 with Assets/Scripts/Server/Leaderboard.cs:80-85 | `postRequest` catches `HttpRequestException` and returns null, so `PostScore` sets `hasPosted` even when the server was unreachable | a refused connection: `HttpFailure("Connection refused")` | the high score counts as posted only once the request is delivered, so a failed post can be retried | not executed | ResultStandalone.PostedAfterAsWritten, ResultStandalone.RefusedConnectionMarksPosted | ResultStandalone.PostedAfter, ResultStandalone.ResultStandalone.PostScore |
| DevTools/Diagrams/generate_class_dependency.py:26-36 with Diagrams/common.py:23-24 | a parent is routed against the interfaces seen so far, and files come in file-system order, so an interface declared in a later file is drawn as a base class | `GunFirst`: `class Gun : IWeapon` in the first file, `interface IWeapon` in the second | a parent is an implemented interface iff some script declares it as one, whatever the file order | not executed | ClassDependency.LaterInterfaceCountsAsBase | ClassDependency.AllKnownRouting, ClassDependency.LaterInterfaceImplementedWhenAllKnown |
