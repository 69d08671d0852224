/**
 * The first-person character's health and respawn rules, and the flag that
 * records whether it already carries a rifle (Source/FPTest/FPTestCharacter.cpp).
 *
 * The game mode's spawn-point lookup is an engine service: it reaches the model
 * as an Option<Vector> (None when no PlayerStart is found). The OnHealthChanged
 * delegate is an append-only log of the values it was broadcast with.
 */
module FPTestCharacter {
  import opened Options

  /** A world position. The model only copies and compares positions. */
  datatype Vector = Vector(x: real, y: real, z: real)

  /** What one call of Server_OnDamageTaken leaves behind: the final health, the
      final location and the value broadcast through OnHealthChanged (None when
      the call returns before broadcasting). */
  datatype DamageResult = DamageResult(health: int, location: Vector, broadcast: Option<int>)

  /** Server_OnDamageTaken as a function of the character's health and location,
      its MaxHealth, the damage and the outcome of the spawn-point lookup. */
  function TakeDamage(health: int, location: Vector, maxHealth: nat, damage: nat, spawn: Option<Vector>): (r: DamageResult)
    // the call stays silent exactly when health drops below zero and there is nowhere to respawn
    ensures r.broadcast.None? <==> health - damage < 0 && spawn.None?
    // what is broadcast is the final health, and it is never negative
    ensures r.broadcast.Some? ==> r.broadcast.value == r.health && r.health >= 0
    // health only ever rises through a respawn at a spawn point, and then to exactly MaxHealth
    ensures r.health == health - damage || (spawn.Some? && r.health == maxHealth && r.location == spawn.value)
    // the character only moves through a respawn
    ensures r.location != location ==> spawn.Some? && r.location == spawn.value
    // a hit that leaves health at zero or above lowers it by exactly the damage, keeps the
    // character in place and broadcasts the new health
    ensures health - damage >= 0 ==> r == DamageResult(health - damage, location, Some(health - damage))
    // health never exceeds MaxHealth if it did not before
    ensures health <= maxHealth ==> r.health <= maxHealth
  {
    var h := health - damage;
    if h < 0 then
      match spawn
      case None => DamageResult(h, location, None)
      case Some(p) => DamageResult(maxHealth, p, Some(maxHealth))
    else
      DamageResult(h, location, Some(h))
  }

  /** Reaching exactly zero health is not death: the test is strictly below zero. */
  lemma ZeroHealthDoesNotRespawn(health: int, location: Vector, maxHealth: nat, damage: nat, spawn: Option<Vector>)
    requires health - damage == 0
    ensures TakeDamage(health, location, maxHealth, damage, spawn) == DamageResult(0, location, Some(0))
  {
  }

  /** Dropping below zero with a spawn point available restores MaxHealth at the spawn point. */
  lemma NegativeHealthRespawns(health: int, location: Vector, maxHealth: nat, damage: nat, spawn: Vector)
    requires health - damage < 0
    ensures TakeDamage(health, location, maxHealth, damage, Some(spawn)) == DamageResult(maxHealth, spawn, Some(maxHealth))
  {
  }

  /** Dropping below zero without a spawn point leaves the character negative, in place and silent. */
  lemma NoSpawnPointLeavesCharacterDown(health: int, location: Vector, maxHealth: nat, damage: nat)
    requires health - damage < 0
    ensures TakeDamage(health, location, maxHealth, damage, None) == DamageResult(health - damage, location, None)
  {
  }

  /** One damage event as the server sees it: the amount and the result of the spawn-point lookup. */
  datatype DamageEvent = DamageEvent(damage: nat, spawn: Option<Vector>)

  /** The health, location and broadcasts after a series of damage events. */
  function DamageRun(health: int, location: Vector, maxHealth: nat, events: seq<DamageEvent>): (r: (int, Vector, seq<int>))
    decreases |events|
  {
    if events == [] then (health, location, [])
    else
      var d := TakeDamage(health, location, maxHealth, events[0].damage, events[0].spawn);
      var rest := DamageRun(d.health, d.location, maxHealth, events[1..]);
      (rest.0, rest.1, (if d.broadcast.Some? then [d.broadcast.value] else []) + rest.2)
  }

  /** While every lookup finds a spawn point, a character that starts between 0 and
      MaxHealth stays there through any series of hits, and every hit is broadcast
      with a value in that range. */
  lemma {:induction false} HealthStaysInRangeWithSpawnPoints(health: int, location: Vector, maxHealth: nat, events: seq<DamageEvent>)
    requires 0 <= health <= maxHealth
    requires forall i :: 0 <= i < |events| ==> events[i].spawn.Some?
    ensures var r := DamageRun(health, location, maxHealth, events);
      0 <= r.0 <= maxHealth && |r.2| == |events| &&
      forall i :: 0 <= i < |r.2| ==> 0 <= r.2[i] <= maxHealth
    decreases |events|
  {
    if events != [] {
      var d := TakeDamage(health, location, maxHealth, events[0].damage, events[0].spawn);
      HealthStaysInRangeWithSpawnPoints(d.health, d.location, maxHealth, events[1..]);
    }
  }

  /** The character actor: the state Server_OnDamageTaken and SetHasRifle update in place. */
  class PlayerCharacter {
    /** Declared in a header outside this model; fixed for the character's lifetime. */
    const MaxHealth: nat
    var Health: int
    var HasRifle: bool
    var Location: Vector
    /** Whether a player controller possesses the character (managed by the engine). */
    var HasController: bool
    /** The values OnHealthChanged was broadcast with, oldest first. */
    var HealthBroadcasts: seq<int>

    /** A new character carries no rifle and starts at full health. */
    constructor (maxHealth: nat, location: Vector, hasController: bool)
      ensures MaxHealth == maxHealth && Health == MaxHealth && !HasRifle
      ensures Location == location && HasController == hasController && HealthBroadcasts == []
    {
      MaxHealth := maxHealth;
      HasRifle := false;
      Health := maxHealth;
      Location := location;
      HasController := hasController;
      HealthBroadcasts := [];
    }

    /** Applies damage on the server; on death respawns at the spawn point, if there is one. */
    method ServerOnDamageTaken(damage: nat, spawn: Option<Vector>)
      modifies this
      ensures var r := TakeDamage(old(Health), old(Location), MaxHealth, damage, spawn);
        Health == r.health && Location == r.location &&
        HealthBroadcasts == old(HealthBroadcasts) + (if r.broadcast.Some? then [r.broadcast.value] else [])
      ensures HasRifle == old(HasRifle) && HasController == old(HasController)
    {
      Health := Health - damage;
      if Health < 0 {
        if spawn.None? {
          return;
        }
        Health := MaxHealth;
        Location := spawn.value;
      }
      HealthBroadcasts := HealthBroadcasts + [Health];
    }

    method SetHasRifle(newHasRifle: bool)
      modifies this
      ensures HasRifle == newHasRifle
      ensures Health == old(Health) && Location == old(Location) && HasController == old(HasController)
      ensures HealthBroadcasts == old(HealthBroadcasts)
    {
      HasRifle := newHasRifle;
    }

    method GetHasRifle() returns (hasRifle: bool)
      ensures hasRifle == HasRifle
    {
      hasRifle := HasRifle;
    }
  }

  /** GetHasRifle reports the last value given to SetHasRifle. */
  method SetThenGetHasRifle(c: PlayerCharacter, b: bool) returns (got: bool)
    modifies c
    ensures got == b
  {
    c.SetHasRifle(b);
    got := c.GetHasRifle();
  }
}
