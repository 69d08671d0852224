# FPTest weapon and character rules in Dafny

This project models the gameplay rules of a first-person-shooter template built
on a game engine: the weapon component's state machine and the character's
health and respawn logic. Everything the engine provides is an input or is left out.

- `FPTestCharacter.dfy`, module `FPTestCharacter`: the class `PlayerCharacter`
  with `Health`, `MaxHealth`, `HasRifle`, `Location` and the log of values
  `OnHealthChanged` was broadcast with. `Server_OnDamageTaken` is the method
  `ServerOnDamageTaken`. The function `TakeDamage` specifies it, and lemmas
  state its cases and what a series of hits does.
- `TPWeaponComponent.dfy`, module `TPWeaponComponent`: the class
  `WeaponComponent` with the fire mode (`ShootType`), the magazine
  (`CurrentAmmunition`, `MaxMagazine`), the automatic cooldown flag
  (`CanShoot`), the holder (`Character`), the network owner, a destroyed flag
  and an event log. The log stands for `OnAmmoChanged`, the `Server_FireTrace`
  request, the `All_*` multicasts, the empty-magazine sound and impulses.
  The fire entry points, `StartFireCharged`, `Reload`, `ToggleType` and
  `CooldownExpired` are tied to the pure function `Step`. `FireInternal` is
  tied to `Fired`, and `ServerFireTrace` to `ResolveHit`. Lemmas about those
  functions state the promised properties, including over any series of calls
  (`Run`). `AttachWeapon` and `DestroySelf` state their new state directly in
  their contracts, as do `SetHasRifle` and `GetHasRifle` on the character.
- `Options.dfy`: an `Option` type for engine lookups that may return null.

Engine services are inputs:
- whether the holder has a controller is the field `PlayerCharacter.HasController`;
- the line trace arrives as an `Option<HitResult>`;
- the game mode's spawn-point lookup arrives as an `Option<Vector>`;
- the automatic-fire cooldown timer's callback is the method `CooldownExpired`.

## Model

| member | source | states |
|---|---|---|
| `FPTestCharacter.TakeDamage` | Source/FPTest/FPTestCharacter.cpp:64-83 | the call is silent exactly when health drops below 0 with no spawn point; any broadcast value equals the final health and is never negative; a hit that leaves health >= 0 lowers it by exactly the damage, keeps the location and broadcasts the new health; health only rises by a respawn to MaxHealth at the spawn point; the character only moves by respawning; health <= MaxHealth is kept |
| `FPTestCharacter.ZeroHealthDoesNotRespawn` | Source/FPTest/FPTestCharacter.cpp:67-68 | reaching exactly 0 health is not death: health 0, no move, 0 is broadcast |
| `FPTestCharacter.NegativeHealthRespawns` | Source/FPTest/FPTestCharacter.cpp:68-80 | below 0 with a spawn point: health becomes MaxHealth, location becomes the spawn point, MaxHealth is broadcast |
| `FPTestCharacter.NoSpawnPointLeavesCharacterDown` | Source/FPTest/FPTestCharacter.cpp:72-75 | below 0 without a spawn point: health stays negative, location unchanged, nothing broadcast |
| `FPTestCharacter.HealthStaysInRangeWithSpawnPoints` | Source/FPTest/FPTestCharacter.cpp:64-83 | while spawn points exist, any series of hits keeps health in 0..MaxHealth and broadcasts once per hit, each value in 0..MaxHealth |
| `FPTestCharacter.PlayerCharacter.constructor` | Source/FPTest/FPTestCharacter.cpp:19-26 | a new character has no rifle and Health == MaxHealth |
| `FPTestCharacter.PlayerCharacter.ServerOnDamageTaken` | Source/FPTest/FPTestCharacter.cpp:64-83 | health, location and the broadcast log become what TakeDamage gives for the old health and location; rifle and controller unchanged |
| `FPTestCharacter.PlayerCharacter.SetHasRifle` | Source/FPTest/FPTestCharacter.cpp:131-134 | HasRifle becomes the argument; nothing else changes |
| `FPTestCharacter.PlayerCharacter.GetHasRifle` | Source/FPTest/FPTestCharacter.cpp:136-139 | returns HasRifle without changing anything |
| `FPTestCharacter.SetThenGetHasRifle` | Source/FPTest/FPTestCharacter.cpp:131-139 | GetHasRifle returns the last value passed to SetHasRifle |
| `TPWeaponComponent.Toggled` | Source/FPTest/TP_WeaponComponent.cpp:212-226 | a toggle always changes the mode |
| `TPWeaponComponent.ToggledTimesShift` | Source/FPTest/TP_WeaponComponent.cpp:212-226 | n + 3 toggles give the same mode as n toggles |
| `TPWeaponComponent.ToggleCyclePeriodThree` | Source/FPTest/TP_WeaponComponent.cpp:212-226 | n toggles restore the mode if and only if 3 divides n: the cycle has period exactly 3 |
| `TPWeaponComponent.ThreeTogglesAreIdentity` | Source/FPTest/TP_WeaponComponent.cpp:212-226 | three ToggleType calls leave mode, ammo, cooldown flag and magazine size unchanged and emit nothing |
| `TPWeaponComponent.NewWeaponFirstAutomaticShotFires` | Source/FPTest/TP_WeaponComponent.h:93-178 | a new weapon is in Single mode with a full 30-round magazine and a ready cooldown flag, so its first automatic shot is sent |
| `TPWeaponComponent.Fired` | Source/FPTest/TP_WeaponComponent.cpp:79-128 | without a controlled holder nothing happens; only ammo changes; a request is sent exactly when armed with ammo > 0, at most one, and exactly then one round is spent; an empty or negative magazine is clamped to 0 with the empty cue; a shot reports the new count, then sends the request with the given parameters; the magazine bound is kept |
| `TPWeaponComponent.Step` | Source/FPTest/TP_WeaponComponent.cpp:24-226 | no entry point changes MaxMagazine, and each keeps 0 <= ammo <= MaxMagazine |
| `TPWeaponComponent.RefusedFireIsNoOp` | Source/FPTest/TP_WeaponComponent.cpp:24-76 | a fire entry point in the wrong mode, or automatic fire while cooling down, changes nothing and emits nothing |
| `TPWeaponComponent.StepSendsShotExactlyWhen` | Source/FPTest/TP_WeaponComponent.cpp:24-127 | a request reaches the server exactly when the mode gate accepts, the holder has a controller and ammo > 0; it carries the mode's fixed parameters: Single (1.0, 2), Automatic (0.5, 1), Charged (5.0, 4) |
| `TPWeaponComponent.StartFireChargedOnlyCues` | Source/FPTest/TP_WeaponComponent.cpp:70-76 | StartFireCharged changes no state and emits the charge cue only in Charged mode |
| `TPWeaponComponent.AutomaticCooldownGatesSecondShot` | Source/FPTest/TP_WeaponComponent.cpp:32-58 | an accepted automatic shot clears CanShoot even when no round is fired; a second automatic shot before the cooldown expires changes nothing |
| `TPWeaponComponent.ReloadFillsAndIsIdempotent` | Source/FPTest/TP_WeaponComponent.cpp:201-210 | Reload sets ammo to MaxMagazine, broadcasts that value then the reload cue, and a second Reload gives the same state |
| `TPWeaponComponent.RunKeepsMagazineBounded` | Source/FPTest/TP_WeaponComponent.cpp:79-210 | 0 <= ammo <= MaxMagazine holds after any series of fire, reload, toggle and cooldown calls, armed or not |
| `TPWeaponComponent.SingleShotsDrainMagazine` | Source/FPTest/TP_WeaponComponent.cpp:98-127 | in Single mode n presses send min(n, ammo) requests and leave ammo - min(n, ammo) rounds |
| `TPWeaponComponent.FullMagazineScenario` | Source/FPTest/TP_WeaponComponent.cpp:98-210 | from a new weapon, 31 single shots send 30 requests and leave 0 rounds; a reload then gives 30 |
| `TPWeaponComponent.ResolveHit` | Source/FPTest/TP_WeaponComponent.cpp:148-164 | only a blocking hit on a valid component has an effect; a hit character takes the damage even if its component simulates physics; an impulse is applied exactly when the blocking, valid hit is on a simulating non-character body; the effect is exactly one of damage, impulse or nothing |
| `TPWeaponComponent.WeaponComponent.constructor` | Source/FPTest/TP_WeaponComponent.cpp:15-21 | a new weapon is in Single mode with CanShoot, MaxMagazine 30, and ammo set to MaxMagazine; it is unattached and its log is empty |
| `TPWeaponComponent.WeaponComponent.FireInternal` | Source/FPTest/TP_WeaponComponent.cpp:79-128 | the new state and the appended events are what Fired gives; holder, owner and destroyed flag unchanged; keeps the magazine bound |
| `TPWeaponComponent.WeaponComponent.FireSingle` | Source/FPTest/TP_WeaponComponent.cpp:24-30 | state and events follow Step for FireSingle |
| `TPWeaponComponent.WeaponComponent.FireAutomatic` | Source/FPTest/TP_WeaponComponent.cpp:32-59 | state and events follow Step for FireAutomatic |
| `TPWeaponComponent.WeaponComponent.CooldownExpired` | Source/FPTest/TP_WeaponComponent.cpp:47-51 | the timer callback sets CanShoot and changes nothing else |
| `TPWeaponComponent.WeaponComponent.FireCharged` | Source/FPTest/TP_WeaponComponent.cpp:62-68 | state and events follow Step for FireCharged |
| `TPWeaponComponent.WeaponComponent.StartFireCharged` | Source/FPTest/TP_WeaponComponent.cpp:70-76 | no state change; events follow Step for StartFireCharged |
| `TPWeaponComponent.WeaponComponent.Reload` | Source/FPTest/TP_WeaponComponent.cpp:201-210 | state and events follow Step for Reload; with MaxMagazine >= 0 the magazine bound holds afterwards |
| `TPWeaponComponent.WeaponComponent.ToggleType` | Source/FPTest/TP_WeaponComponent.cpp:212-226 | the mode advances along the cycle and nothing else changes |
| `TPWeaponComponent.WeaponComponent.DestroySelf` | Source/FPTest/TP_WeaponComponent.cpp:301-305 | the weapon is destroyed; nothing else changes |
| `TPWeaponComponent.WeaponComponent.AttachWeapon` | Source/FPTest/TP_WeaponComponent.cpp:246-275 | a null target changes nothing; otherwise the target becomes the owner; if it already has a rifle the weapon is destroyed and the holder is not assigned; otherwise the target becomes the holder and gets HasRifle |
| `TPWeaponComponent.WeaponComponent.ServerFireTrace` | Source/FPTest/TP_WeaponComponent.cpp:131-168 | the visual relay is emitted first; then exactly the effect ResolveHit picks: the hit character takes the damage as TakeDamage says and keeps its rifle flag and controller, or an impulse with the shot's modifier is logged, or nothing; the weapon's state is unchanged |
| `TPWeaponComponent.SecondPickupDestroysWeapon` | Source/FPTest/TP_WeaponComponent.cpp:246-275 | once one weapon is attached to a character, a second weapon attached to it destroys itself and is never attached |

## Left out

- Input binding and mapping contexts (`AttachWeapon` after the `SetHasRifle` call, `EndPlay`, `BeginPlay`, `SetupPlayerInputComponent`, `Move`, `Look`): engine input plumbing.
- Sounds, animation montages and debug drawing: they appear only as tags in the event log. The model emits the empty-magazine, reload and charge cues without checking whether a sound asset is set.
- Float vector maths: the muzzle offset, the trace's start and end points and the impulse's size and direction. Trace requests carry only the shot parameters, and an impulse carries only the impact modifier.
- The line trace, the cast of the hit actor, the spawn-point lookup and the `GetWorld()` checks: engine services. The world is assumed to exist. Trace results and spawn points are inputs. The unchecked game-mode dereference in `Server_OnDamageTaken` is read as the caller supplying the lookup's result.
- A controller that is not a player controller: `PlayerCharacter.HasController` stands for "has a player controller". For an AI controller, the cast to a player controller in `Fire_Internal` gives null, and the next line dereferences that null player controller. By then a round has already been spent and the new count broadcast. The model does not cover that case.
- Timers, RPC and multicast transport, replication (`GetLifetimeReplicatedProps`): the cooldown timer is the `CooldownExpired` method. RPCs and multicasts are appended to the log in call order. Client and server run in one place in the model.
- `TP_WeaponSpawnerComponent`, `FPTestGameMode` and the build target files: actor spawning, asset lookup and build configuration, with no state logic of their own.
- Integer widths: `Health` is an `int`, `Damage` a `nat` and the magazine an `int`. The mixed signed/unsigned `Health -= Damage` and 32-bit overflow are not modelled.
- `MaxHealth` is declared in a header that is not part of this model; it is a constructor parameter, taken as non-negative.
- Editor overrides of `MaxMagazine` are not modelled: a new weapon always has 30 rounds.
