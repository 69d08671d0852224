/**
 * The weapon component's state machine (Source/FPTest/TP_WeaponComponent.h and
 * TP_WeaponComponent.cpp): the fire mode, the magazine, the automatic-fire
 * cooldown flag and the holder, with the three mode-gated fire entry points,
 * reload, the mode toggle, attaching to a character and the server's hit branch.
 *
 * Engine services are inputs: the holder's controller is PlayerCharacter.HasController,
 * the line trace arrives as an Option<HitResult>, the spawn-point lookup as an
 * Option<Vector>, and the cooldown timer's callback is the method CooldownExpired.
 * Delegate broadcasts, RPCs and multicast cues are appended to an event log.
 */
module TPWeaponComponent {
  import opened Options
  import opened FPTestCharacter

  /** EWeaponShootType. */
  datatype WeaponShootType = Single | Automatic | Charged

  /** The fixed (impact modifier, damage) pair a fire entry point hands to Fire_Internal. */
  datatype ShotParams = ShotParams(impactModifier: real, damage: nat)

  const SingleShot := ShotParams(1.0, 2)
  const AutomaticShot := ShotParams(0.5, 1)
  const ChargedShot := ShotParams(5.0, 4)

  const DefaultMaxMagazine := 30

  /** The shot parameters that belong to each fire mode. */
  function ShotParamsOf(t: WeaponShootType): ShotParams
  {
    match t
    case Single => SingleShot
    case Automatic => AutomaticShot
    case Charged => ChargedShot
  }

  /** What the weapon emits: delegate broadcasts, RPCs and cues, in order. */
  datatype WeaponEvent =
    | AmmoChanged(newAmmo: int)            // OnAmmoChanged.Broadcast
    | FireTraceRequest(params: ShotParams) // the client-to-server Server_FireTrace call
    | NoAmmoSound                          // the local empty-magazine cue
    | AllReload                            // reload cue multicast to every observer
    | AllStartCharging                     // charge cue multicast to every observer
    | AllFireVisual                        // tracer, sound and montage multicast to every observer
    | Impulse(impactModifier: real)        // impulse added to a simulating physics body

  /** The number of fire requests sent to the server in an event log. */
  function Shots(events: seq<WeaponEvent>): nat
  {
    if events == [] then 0
    else (if events[0].FireTraceRequest? then 1 else 0) + Shots(events[1..])
  }

  lemma {:induction false} ShotsAppend(a: seq<WeaponEvent>, b: seq<WeaponEvent>)
    ensures Shots(a + b) == Shots(a) + Shots(b)
  {
    if a == [] {
      assert a + b == b;
    } else {
      assert (a + b)[0] == a[0] && (a + b)[1..] == a[1..] + b;
      ShotsAppend(a[1..], b);
    }
  }

  /** ToggleType's cycle Single -> Automatic -> Charged -> Single. */
  function Toggled(t: WeaponShootType): (r: WeaponShootType)
    ensures r != t
  {
    match t
    case Single => Automatic
    case Automatic => Charged
    case Charged => Single
  }

  /** The mode after n toggles. */
  function ToggledTimes(t: WeaponShootType, n: nat): WeaponShootType
    decreases n
  {
    if n == 0 then t else ToggledTimes(Toggled(t), n - 1)
  }

  lemma {:induction false} ToggledTimesShift(t: WeaponShootType, n: nat)
    ensures ToggledTimes(t, n + 3) == ToggledTimes(t, n)
  {
    calc {
      ToggledTimes(t, n + 3);
      ToggledTimes(Toggled(t), n + 2);
      ToggledTimes(Toggled(Toggled(t)), n + 1);
      ToggledTimes(Toggled(Toggled(Toggled(t))), n);
      { assert Toggled(Toggled(Toggled(t))) == t; }
      ToggledTimes(t, n);
    }
  }

  /** The mode cycle has period exactly three: n toggles restore the mode iff 3 divides n. */
  lemma {:induction false} ToggleCyclePeriodThree(t: WeaponShootType, n: nat)
    ensures ToggledTimes(t, n) == t <==> n % 3 == 0
    decreases n
  {
    if n >= 3 {
      ToggledTimesShift(t, n - 3);
      ToggleCyclePeriodThree(t, n - 3);
    } else if n == 2 {
      assert ToggledTimes(t, 2) == Toggled(Toggled(t));
    } else if n == 1 {
      assert ToggledTimes(t, 1) == Toggled(t);
    }
  }

  /** The component's state apart from its holder. */
  datatype WeaponState = WeaponState(shootType: WeaponShootType, ammo: int, maxMagazine: int, canShoot: bool)

  /** The magazine invariant 0 <= CurrentAmmunition <= MaxMagazine. */
  predicate MagazineBounded(s: WeaponState)
  {
    0 <= s.ammo <= s.maxMagazine
  }

  /** The state of a freshly constructed weapon: Single mode, full magazine, cooldown ready. */
  const NewWeaponState := WeaponState(Single, DefaultMaxMagazine, DefaultMaxMagazine, true)

  /** A new weapon is full and within bounds, and because the cooldown flag starts ready, its
      first automatic shot (after toggling from Single to Automatic) goes to the server. */
  lemma NewWeaponFirstAutomaticShotFires()
    ensures MagazineBounded(NewWeaponState) && NewWeaponState.ammo == NewWeaponState.maxMagazine == 30
    ensures NewWeaponState.shootType == Single && NewWeaponState.canShoot
    ensures Shots(Step(Step(NewWeaponState, true, PressToggleType).state, true, PressFireAutomatic).events) == 1
  {
  }

  /** A new state and the events emitted on the way to it. */
  datatype Outcome = Outcome(state: WeaponState, events: seq<WeaponEvent>)

  /** Fire_Internal: `armed` says that the weapon has a holder and the holder a controller. */
  function Fired(s: WeaponState, armed: bool, p: ShotParams): (r: Outcome)
    // only the magazine ever changes
    ensures r.state == s.(ammo := r.state.ammo)
    // without a controlled holder nothing happens at all
    ensures !armed ==> r == Outcome(s, [])
    // a fire request goes to the server exactly when armed with a round in the magazine, and at most one
    ensures Shots(r.events) == if armed && s.ammo > 0 then 1 else 0
    // a round is spent exactly when a request goes to the server
    ensures r.state.ammo == s.ammo - 1 <==> armed && s.ammo > 0
    // an empty (or negative) magazine is clamped to exactly zero
    ensures armed && s.ammo <= 0 ==> r.state.ammo == 0 && r.events == [NoAmmoSound]
    // a shot first reports the new count, then sends the request with the given parameters
    ensures armed && s.ammo > 0 ==> r.events == [AmmoChanged(r.state.ammo), FireTraceRequest(p)]
    ensures MagazineBounded(s) ==> MagazineBounded(r.state)
  {
    if !armed then Outcome(s, [])
    else if s.ammo <= 0 then Outcome(s.(ammo := 0), [NoAmmoSound])
    else
      var events := [AmmoChanged(s.ammo - 1), FireTraceRequest(p)];
      assert events[1..] == [FireTraceRequest(p)] && events[1..][1..] == [];
      assert Shots(events[1..]) == 1;
      assert Shots(events) == 1;
      Outcome(s.(ammo := s.ammo - 1), events)
  }

  /** The component's entry points that do not involve another actor. */
  datatype Command =
    | PressFireSingle | PressFireAutomatic | PressFireCharged | PressStartFireCharged
    | PressReload | PressToggleType | CooldownTimerFired

  /** Whether the mode gate (and, for automatic fire, the cooldown) lets a fire command through. */
  predicate Accepts(s: WeaponState, c: Command)
  {
    || (c == PressFireSingle && s.shootType == Single)
    || (c == PressFireAutomatic && s.shootType == Automatic && s.canShoot)
    || (c == PressFireCharged && s.shootType == Charged)
  }

  /** One entry point applied to a state. */
  function Step(s: WeaponState, armed: bool, c: Command): (r: Outcome)
    ensures r.state.maxMagazine == s.maxMagazine
    ensures MagazineBounded(s) ==> MagazineBounded(r.state)
  {
    match c
    case PressFireSingle =>
      if s.shootType == Single then Fired(s, armed, SingleShot) else Outcome(s, [])
    case PressFireAutomatic =>
      if s.shootType == Automatic && s.canShoot then Fired(s.(canShoot := false), armed, AutomaticShot)
      else Outcome(s, [])
    case PressFireCharged =>
      if s.shootType == Charged then Fired(s, armed, ChargedShot) else Outcome(s, [])
    case PressStartFireCharged =>
      if s.shootType == Charged then Outcome(s, [AllStartCharging]) else Outcome(s, [])
    case PressReload =>
      Outcome(s.(ammo := s.maxMagazine), [AmmoChanged(s.maxMagazine), AllReload])
    case PressToggleType =>
      Outcome(s.(shootType := Toggled(s.shootType)), [])
    case CooldownTimerFired =>
      Outcome(s.(canShoot := true), [])
  }

  /** A fire command that the mode gate refuses changes nothing and emits nothing. */
  lemma RefusedFireIsNoOp(s: WeaponState, armed: bool, c: Command)
    requires c == PressFireSingle || c == PressFireAutomatic || c == PressFireCharged || c == PressStartFireCharged
    requires !(s.shootType == Charged && c == PressStartFireCharged) && !Accepts(s, c)
    ensures Step(s, armed, c) == Outcome(s, [])
  {
  }

  /** A request reaches the server exactly when the mode gate accepts, there is a controlled
      holder and a round in the magazine, and it carries the current mode's parameters. */
  lemma StepSendsShotExactlyWhen(s: WeaponState, armed: bool, c: Command)
    ensures Shots(Step(s, armed, c).events) == if Accepts(s, c) && armed && s.ammo > 0 then 1 else 0
    ensures forall e | e in Step(s, armed, c).events && e.FireTraceRequest? :: e.params == ShotParamsOf(s.shootType)
  {
    match c
    case PressStartFireCharged =>
      assert Shots([AllStartCharging]) == 0 by { assert [AllStartCharging][1..] == []; }
    case PressReload =>
      var events := [AmmoChanged(s.maxMagazine), AllReload];
      assert Shots(events) == 0 by {
        assert [AllReload][1..] == [];
        assert Shots([AllReload]) == 0;
        assert events[1..] == [AllReload];
      }
    case _ =>
  }

  /** StartFireCharged only emits the charge cue, and only in Charged mode. */
  lemma StartFireChargedOnlyCues(s: WeaponState, armed: bool)
    ensures Step(s, armed, PressStartFireCharged) == Outcome(s, if s.shootType == Charged then [AllStartCharging] else [])
  {
  }

  /** An accepted automatic shot spends the cooldown even if no round is fired, and a second
      automatic shot before the cooldown expires changes nothing. */
  lemma AutomaticCooldownGatesSecondShot(s: WeaponState, armed1: bool, armed2: bool)
    requires s.shootType == Automatic && s.canShoot
    ensures var first := Step(s, armed1, PressFireAutomatic);
      !first.state.canShoot && Step(first.state, armed2, PressFireAutomatic) == Outcome(first.state, [])
  {
  }

  /** Reload fills the magazine, reports the full count and cues every observer; doing it twice is doing it once. */
  lemma ReloadFillsAndIsIdempotent(s: WeaponState, armed1: bool, armed2: bool)
    ensures Step(s, armed1, PressReload).state.ammo == s.maxMagazine
    ensures Step(s, armed1, PressReload).events == [AmmoChanged(s.maxMagazine), AllReload]
    ensures Step(Step(s, armed1, PressReload).state, armed2, PressReload).state == Step(s, armed1, PressReload).state
  {
  }

  /** A pressed entry point, together with whether the weapon was held by a controlled character at that moment. */
  datatype Request = Request(command: Command, armed: bool)

  /** The state and the events after a series of requests. */
  function Run(s: WeaponState, rs: seq<Request>): Outcome
    decreases |rs|
  {
    if rs == [] then Outcome(s, [])
    else
      var o := Step(s, rs[0].armed, rs[0].command);
      var rest := Run(o.state, rs[1..]);
      Outcome(rest.state, o.events + rest.events)
  }

  /** 0 <= CurrentAmmunition <= MaxMagazine holds across any series of fire, reload, toggle and cooldown calls. */
  lemma {:induction false} RunKeepsMagazineBounded(s: WeaponState, rs: seq<Request>)
    requires MagazineBounded(s)
    ensures MagazineBounded(Run(s, rs).state)
    decreases |rs|
  {
    if rs != [] {
      RunKeepsMagazineBounded(Step(s, rs[0].armed, rs[0].command).state, rs[1..]);
    }
  }

  /** Three toggles are the identity on the whole state and emit nothing. */
  lemma ThreeTogglesAreIdentity(s: WeaponState, a1: bool, a2: bool, a3: bool)
    ensures Run(s, [Request(PressToggleType, a1), Request(PressToggleType, a2), Request(PressToggleType, a3)]) == Outcome(s, [])
  {
    var rs := [Request(PressToggleType, a1), Request(PressToggleType, a2), Request(PressToggleType, a3)];
    var s1 := Step(s, a1, PressToggleType).state;
    var s2 := Step(s1, a2, PressToggleType).state;
    assert rs[1..] == [Request(PressToggleType, a2), Request(PressToggleType, a3)];
    assert rs[1..][1..] == [Request(PressToggleType, a3)];
    assert rs[1..][1..][1..] == [];
    assert Run(s2, rs[1..][1..]) == Outcome(Step(s2, a3, PressToggleType).state, []);
    assert Run(s1, rs[1..]) == Outcome(Step(s2, a3, PressToggleType).state, []);
    assert Step(s2, a3, PressToggleType).state == s;
  }

  /** n presses of the same command by a controlled holder. */
  function Presses(c: Command, n: nat): (r: seq<Request>)
    ensures |r| == n
  {
    if n == 0 then [] else [Request(c, true)] + Presses(c, n - 1)
  }

  /** In Single mode, n presses fire min(n, ammo) rounds and leave the magazine at ammo - min(n, ammo). */
  lemma {:induction false} SingleShotsDrainMagazine(s: WeaponState, n: nat)
    requires s.shootType == Single && s.ammo >= 0
    ensures var fired := if n <= s.ammo then n else s.ammo;
      Run(s, Presses(PressFireSingle, n)).state == s.(ammo := s.ammo - fired) &&
      Shots(Run(s, Presses(PressFireSingle, n)).events) == fired
    decreases n
  {
    if n > 0 {
      var rs := Presses(PressFireSingle, n);
      assert rs[0] == Request(PressFireSingle, true) && rs[1..] == Presses(PressFireSingle, n - 1);
      var o := Step(s, true, PressFireSingle);
      SingleShotsDrainMagazine(o.state, n - 1);
      ShotsAppend(o.events, Run(o.state, rs[1..]).events);
    }
  }

  /** With a full 30-round magazine, 31 presses fire 30 shots and leave the magazine at 0; a reload refills it to 30. */
  lemma FullMagazineScenario()
    ensures Run(NewWeaponState, Presses(PressFireSingle, 31)).state.ammo == 0
    ensures Shots(Run(NewWeaponState, Presses(PressFireSingle, 31)).events) == 30
    ensures Step(Run(NewWeaponState, Presses(PressFireSingle, 31)).state, true, PressReload).state.ammo == 30
  {
    SingleShotsDrainMagazine(NewWeaponState, 31);
  }

  /** A line-trace result: whether it blocked, whether its component is still valid, the
      character it hit (None when the cast to the character class fails) and whether the
      component simulates physics. */
  datatype HitResult = HitResult(blockingHit: bool, componentValid: bool, character: Option<PlayerCharacter>, simulatingPhysics: bool)

  /** The one effect a shot has on the server. */
  datatype HitEffect = DamageCharacter(target: PlayerCharacter) | ApplyImpulse | NoEffect

  /** The hit branch of Server_FireTrace; `trace` is None when the line trace found nothing. */
  function ResolveHit(trace: Option<HitResult>): (r: HitEffect)
    // only a blocking hit on a valid component has an effect
    ensures (trace.None? || !trace.value.blockingHit || !trace.value.componentValid) ==> r == NoEffect
    // a character takes the damage, even when its component also simulates physics
    ensures r.DamageCharacter? <==> trace.Some? && trace.value.blockingHit && trace.value.componentValid && trace.value.character.Some?
    ensures r.DamageCharacter? ==> r.target == trace.value.character.value
    // an impulse only goes to a simulating body that is not a character
    ensures r.ApplyImpulse? <==> trace.Some? && trace.value.blockingHit && trace.value.componentValid &&
                                 trace.value.character.None? && trace.value.simulatingPhysics
  {
    match trace
    case None => NoEffect
    case Some(hit) =>
      if !hit.blockingHit || !hit.componentValid then NoEffect
      else if hit.character.Some? then DamageCharacter(hit.character.value)
      else if hit.simulatingPhysics then ApplyImpulse
      else NoEffect
  }

  /** The characters a shot may change: the one it damages, if any. */
  function DamagedBy(trace: Option<HitResult>): set<PlayerCharacter>
  {
    match ResolveHit(trace)
    case DamageCharacter(target) => {target}
    case _ => {}
  }

  /** UTP_WeaponComponent: the component's own fields, and the event log standing for its
      broadcasts, RPCs and cues. */
  class WeaponComponent {
    const MaxMagazine: int
    var CurrentAmmunition: int
    var ShootType: WeaponShootType
    var CanShoot: bool
    /** The character the weapon is attached to. */
    var Character: PlayerCharacter?
    /** The network owner that AttachWeapon hands the weapon's actor to. */
    var Owner: PlayerCharacter?
    /** Set once DestroySelf has destroyed the weapon's actor. */
    var Destroyed: bool
    var Events: seq<WeaponEvent>

    function State(): WeaponState
      reads this
    {
      WeaponState(ShootType, CurrentAmmunition, MaxMagazine, CanShoot)
    }

    /** The weapon has a holder and the holder has a controller. */
    predicate Armed()
      reads this, Character
    {
      Character != null && Character.HasController
    }

    /** A new weapon: Single mode, a full magazine of 30, cooldown ready, not attached. */
    constructor ()
      ensures State() == NewWeaponState && MagazineBounded(State())
      ensures Character == null && Owner == null && !Destroyed && Events == []
    {
      MaxMagazine := DefaultMaxMagazine;
      CurrentAmmunition := DefaultMaxMagazine;
      ShootType := Single;
      CanShoot := true;
      Character := null;
      Owner := null;
      Destroyed := false;
      Events := [];
    }

    method FireInternal(p: ShotParams)
      modifies this
      ensures State() == Fired(old(State()), old(Armed()), p).state
      ensures Events == old(Events) + Fired(old(State()), old(Armed()), p).events
      ensures Character == old(Character) && Owner == old(Owner) && Destroyed == old(Destroyed)
      ensures MagazineBounded(old(State())) ==> MagazineBounded(State())
    {
      if Character == null || !Character.HasController {
        return;
      }
      if CurrentAmmunition <= 0 {
        CurrentAmmunition := 0;
        Events := Events + [NoAmmoSound];
        return;
      }
      CurrentAmmunition := CurrentAmmunition - 1;
      Events := Events + [AmmoChanged(CurrentAmmunition)];
      Events := Events + [FireTraceRequest(p)];
    }

    method FireSingle()
      modifies this
      ensures State() == Step(old(State()), old(Armed()), PressFireSingle).state
      ensures Events == old(Events) + Step(old(State()), old(Armed()), PressFireSingle).events
      ensures Character == old(Character) && Owner == old(Owner) && Destroyed == old(Destroyed)
    {
      if ShootType != Single {
        return;
      }
      FireInternal(SingleShot);
    }

    method FireAutomatic()
      modifies this
      ensures State() == Step(old(State()), old(Armed()), PressFireAutomatic).state
      ensures Events == old(Events) + Step(old(State()), old(Armed()), PressFireAutomatic).events
      ensures Character == old(Character) && Owner == old(Owner) && Destroyed == old(Destroyed)
    {
      if ShootType != Automatic || !CanShoot {
        return;
      }
      CanShoot := false;
      FireInternal(AutomaticShot);
    }

    /** The cooldown timer's callback. */
    method CooldownExpired()
      modifies this
      ensures State() == Step(old(State()), old(Armed()), CooldownTimerFired).state
      ensures Events == old(Events)
      ensures Character == old(Character) && Owner == old(Owner) && Destroyed == old(Destroyed)
    {
      CanShoot := true;
    }

    method FireCharged()
      modifies this
      ensures State() == Step(old(State()), old(Armed()), PressFireCharged).state
      ensures Events == old(Events) + Step(old(State()), old(Armed()), PressFireCharged).events
      ensures Character == old(Character) && Owner == old(Owner) && Destroyed == old(Destroyed)
    {
      if ShootType != Charged {
        return;
      }
      FireInternal(ChargedShot);
    }

    method StartFireCharged()
      modifies this
      ensures State() == old(State())
      ensures Events == old(Events) + Step(old(State()), old(Armed()), PressStartFireCharged).events
      ensures Character == old(Character) && Owner == old(Owner) && Destroyed == old(Destroyed)
    {
      if ShootType != Charged {
        return;
      }
      Events := Events + [AllStartCharging];
    }

    method Reload()
      modifies this
      ensures State() == Step(old(State()), old(Armed()), PressReload).state
      ensures Events == old(Events) + Step(old(State()), old(Armed()), PressReload).events
      ensures Character == old(Character) && Owner == old(Owner) && Destroyed == old(Destroyed)
      ensures MaxMagazine >= 0 ==> MagazineBounded(State())
    {
      CurrentAmmunition := MaxMagazine;
      Events := Events + [AmmoChanged(CurrentAmmunition)];
      Events := Events + [AllReload];
    }

    method ToggleType()
      modifies this
      ensures State() == Step(old(State()), old(Armed()), PressToggleType).state
      ensures Events == old(Events)
      ensures Character == old(Character) && Owner == old(Owner) && Destroyed == old(Destroyed)
    {
      match ShootType
      case Single => ShootType := Automatic;
      case Automatic => ShootType := Charged;
      case Charged => ShootType := Single;
    }

    method DestroySelf()
      modifies this
      ensures Destroyed
      ensures State() == old(State()) && Events == old(Events)
      ensures Character == old(Character) && Owner == old(Owner)
    {
      Destroyed := true;
    }

    /** Attaches the weapon to a character, or destroys it if the character already has a rifle. */
    method AttachWeapon(target: PlayerCharacter?)
      modifies this, if target == null then {} else {target}
      ensures target == null ==> unchanged(this)
      ensures target != null ==> Owner == target
      ensures target != null && old(target.HasRifle) ==>
        Destroyed && Character == old(Character) && unchanged(target)
      ensures target != null && !old(target.HasRifle) ==>
        Character == target && target.HasRifle && Destroyed == old(Destroyed)
      ensures target != null ==>
        target.Health == old(target.Health) && target.Location == old(target.Location) &&
        target.HasController == old(target.HasController) && target.HealthBroadcasts == old(target.HealthBroadcasts)
      ensures State() == old(State()) && Events == old(Events)
    {
      if target == null {
        return;
      }
      Owner := target;
      var hasRifle := target.GetHasRifle();
      if hasRifle {
        DestroySelf();
        return;
      }
      Character := target;
      target.SetHasRifle(true);
    }

    /** The server side of a shot: relay the visual to every observer, then apply the hit's one effect. */
    method ServerFireTrace(p: ShotParams, trace: Option<HitResult>, spawn: Option<Vector>) returns (effect: HitEffect)
      modifies this, DamagedBy(trace)
      ensures effect == ResolveHit(trace)
      ensures Events == old(Events) + [AllFireVisual] + (if effect.ApplyImpulse? then [Impulse(p.impactModifier)] else [])
      ensures effect.DamageCharacter? ==>
        var c := effect.target;
        var r := TakeDamage(old(c.Health), old(c.Location), c.MaxHealth, p.damage, spawn);
        c.Health == r.health && c.Location == r.location &&
        c.HealthBroadcasts == old(c.HealthBroadcasts) + (if r.broadcast.Some? then [r.broadcast.value] else [])
      ensures effect.DamageCharacter? ==>
        effect.target.HasRifle == old(effect.target.HasRifle) &&
        effect.target.HasController == old(effect.target.HasController)
      ensures State() == old(State())
      ensures Character == old(Character) && Owner == old(Owner) && Destroyed == old(Destroyed)
    {
      Events := Events + [AllFireVisual];
      effect := ResolveHit(trace);
      match effect
      case DamageCharacter(c) =>
        c.ServerOnDamageTaken(p.damage, spawn);
      case ApplyImpulse =>
        Events := Events + [Impulse(p.impactModifier)];
      case NoEffect =>
    }
  }

  /** A character that picked up one weapon makes any second weapon destroy itself. */
  method SecondPickupDestroysWeapon(c: PlayerCharacter, first: WeaponComponent, second: WeaponComponent)
    requires !c.HasRifle && first != second
    modifies c, first, second
    ensures first.Character == c && c.HasRifle
    ensures second.Destroyed && second.Character == old(second.Character)
  {
    first.AttachWeapon(c);
    second.AttachWeapon(c);
  }
}
