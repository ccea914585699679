/** js/scenes/Game5.js: the weapon registry and trajectory preview over a flat
    ground collider, without destructible terrain. */
module Game5Scene {
  import opened Wrappers
  import opened Turns
  import Aim
  import opened Weapons
  import opened Damage
  import opened Ballistics

  /** gameState.turnTime: seconds per turn. */
  const TurnTime := 60

  class Game {
    /** scale.width and scale.height, read once by create(). */
    const gameWidth: real
    const gameHeight: real
    const turnTime: int
    const rosters: seq<seq<nat>>
    const characterHealth: array<int>

    var rotation: Rotation
    var phase: Phase
    var timeRemaining: int
    var weapons: seq<Weapon>
    var selectedWeapon: nat
    var aimAngle: int
    var aimPower: int
    /** Number of live repeating 1 s turn timers. */
    var turnTimers: nat
    /** Whether fireWeapon's delayedCall(3000, endTurn) is still to come. */
    var endTurnPending: bool

    /** Everything that holds in every state, except how many timers are live. */
    ghost predicate Coherent()
      reads this, characterHealth
    {
      && RostersOk(rosters, characterHealth.Length)
      && Settled(rosters, rotation)
      && 1 <= timeRemaining <= turnTime
      && 0 < |weapons| && selectedWeapon < |weapons|
      && (forall i :: 0 <= i < |weapons| ==> Sound(weapons[i]))
      && Aim.MinAngle <= aimAngle <= Aim.MaxAngle
      && Aim.MinPower <= aimPower <= Aim.MaxPower
      && HealthOk(characterHealth[..])
    }

    /** No timer before the first turn and exactly one afterwards; an end of
        turn is pending exactly while a shot is in flight. */
    ghost predicate Valid()
      reads this, characterHealth
    {
      && Coherent()
      && turnTimers == (if phase == Waiting then 0 else 1)
      && endTurnPending == (phase == Firing)
    }

    /** What startTurn leaves behind, given the x position of every character. */
    ghost predicate TurnStarted(xs: seq<real>)
      reads this
    {
      && InRange(rosters, rotation) && Active(rosters, rotation) < |xs|
      && phase == Moving && timeRemaining == turnTime
      && aimPower == Aim.StartPower
      && aimAngle == Aim.FacingAngle(xs[Active(rosters, rotation)], gameWidth)
      && turnTimers == 1 && !endTurnPending
    }

    /** The scene's constructor together with the sizes create() reads. */
    constructor (width: real, height: real)
      ensures Valid() && phase == Waiting
      ensures gameWidth == width && gameHeight == height
      ensures rosters == SceneRosters && rotation == Start(rosters)
      ensures fresh(characterHealth) && characterHealth[..] == [100, 100, 100]
      ensures weapons == Catalog() && selectedWeapon == 0
      ensures turnTime == TurnTime && timeRemaining == TurnTime
      ensures aimAngle == 0 && aimPower == Aim.StartPower
    {
      gameWidth, gameHeight := width, height;
      turnTime := TurnTime;
      rosters := SceneRosters;
      rotation := Start(SceneRosters);
      characterHealth := new int[3][100, 100, 100];
      phase := Waiting;
      timeRemaining := TurnTime;
      weapons := Catalog();
      selectedWeapon := 0;
      aimAngle, aimPower := 0, Aim.StartPower;
      turnTimers, endTurnPending := 0, false;
    }

    /** startTurn: moving phase, full clock, power 50, aim towards the middle, a new timer. */
    method StartTurn(xs: seq<real>)
      requires Coherent() && turnTimers == 0 && !endTurnPending
      requires |xs| == characterHealth.Length
      modifies this`phase, this`timeRemaining, this`aimPower, this`aimAngle, this`turnTimers
      ensures Valid() && TurnStarted(xs)
    {
      var character := Active(rosters, rotation);
      phase := Moving;
      timeRemaining := turnTime;
      aimPower := Aim.StartPower;
      aimAngle := if xs[character] < gameWidth / 2.0 then 45 else 135;
      turnTimers := turnTimers + 1;
    }

    /** nextTurn: the next slot of the current player, or the next player. */
    method NextTurn(xs: seq<real>)
      requires Coherent() && turnTimers == 0 && !endTurnPending
      requires |xs| == characterHealth.Length
      modifies this`rotation, this`phase, this`timeRemaining, this`aimPower, this`aimAngle, this`turnTimers
      ensures Valid() && TurnStarted(xs)
      ensures rotation == Advance(rosters, old(rotation))
    {
      var p := rotation.player;
      var next := rotation.cursors[p] + 1;
      if next >= |rosters[p]| {
        rotation := Rotation((p + 1) % |rosters|, rotation.cursors[p := 0]);
      } else {
        rotation := Rotation(p, rotation.cursors[p := next]);
      }
      StartTurn(xs);
    }

    /** endTurn: cancel the turn timer, then nextTurn. */
    method EndTurn(xs: seq<real>)
      requires Coherent() && turnTimers <= 1 && !endTurnPending
      requires |xs| == characterHealth.Length
      modifies this`rotation, this`phase, this`timeRemaining, this`aimPower, this`aimAngle, this`turnTimers
      ensures Valid() && TurnStarted(xs)
      ensures rotation == Advance(rosters, old(rotation))
    {
      if turnTimers > 0 {
        turnTimers := turnTimers - 1;
      }
      NextTurn(xs);
    }

    /** updateTimer: counts down only while moving or aiming; at 0 the turn ends. */
    method UpdateTimer(xs: seq<real>)
      requires Valid() && |xs| == characterHealth.Length
      modifies this`rotation, this`phase, this`timeRemaining, this`aimPower, this`aimAngle, this`turnTimers
      ensures Valid()
      ensures old(phase) != Moving && old(phase) != Aiming ==> unchanged(this)
      ensures (old(phase) == Moving || old(phase) == Aiming) && old(timeRemaining) > 1 ==>
        && timeRemaining == old(timeRemaining) - 1
        && phase == old(phase) && rotation == old(rotation)
        && aimAngle == old(aimAngle) && aimPower == old(aimPower) && turnTimers == old(turnTimers)
      ensures (old(phase) == Moving || old(phase) == Aiming) && old(timeRemaining) <= 1 ==>
        rotation == Advance(rosters, old(rotation)) && TurnStarted(xs)
    {
      if phase == Moving || phase == Aiming {
        timeRemaining := timeRemaining - 1;
        if timeRemaining <= 0 {
          timeRemaining := 1;
          EndTurn(xs);
        }
      }
    }

    /** fireWeapon's delayedCall(3000, endTurn) comes due. */
    method DelayedEndTurn(xs: seq<real>)
      requires Valid() && endTurnPending
      requires |xs| == characterHealth.Length
      modifies this`rotation, this`phase, this`timeRemaining, this`aimPower, this`aimAngle, this`turnTimers, this`endTurnPending
      ensures Valid() && TurnStarted(xs)
      ensures rotation == Advance(rosters, old(rotation))
    {
      endTurnPending := false;
      EndTurn(xs);
    }

    /** The space bar: from moving it starts aiming, from aiming it fires. */
    method Spacebar() returns (fired: bool)
      requires Valid()
      modifies this`phase, this`weapons, this`endTurnPending
      ensures Valid()
      ensures old(phase) == Moving ==> phase == Aiming && weapons == old(weapons) && !fired
      ensures old(phase) == Aiming ==>
        var w := old(weapons[selectedWeapon]);
        && fired == (w.ammo > 0)
        && (fired ==> phase == Firing && TryFire(w) == Some(weapons[selectedWeapon])
                      && weapons == old(weapons)[selectedWeapon := weapons[selectedWeapon]])
        && (!fired ==> phase == Aiming && weapons == old(weapons))
      ensures old(phase) != Moving && old(phase) != Aiming ==> unchanged(this) && !fired
    {
      fired := false;
      if phase == Moving {
        phase := Aiming;
      } else if phase == Aiming {
        fired := FireWeapon();
      }
    }

    /** fireWeapon: gated on the selected weapon's ammunition. */
    method FireWeapon() returns (fired: bool)
      requires Valid() && phase == Aiming
      modifies this`weapons, this`phase, this`endTurnPending
      ensures Valid()
      ensures var w := old(weapons[selectedWeapon]);
        && fired == (w.ammo > 0)
        && (fired ==> && phase == Firing && endTurnPending
                      && TryFire(w) == Some(weapons[selectedWeapon])
                      && weapons == old(weapons)[selectedWeapon := weapons[selectedWeapon]])
        && (!fired ==> phase == Aiming && !endTurnPending && weapons == old(weapons))
    {
      var weapon := weapons[selectedWeapon];
      if weapon.ammo <= 0 {
        return false;
      }
      weapons := weapons[selectedWeapon := weapon.(ammo := weapon.ammo - 1)];
      phase := Firing;
      endTurnPending := true;
      fired := true;
    }

    /** switchWeapon: the next weapon, cyclically; ammunition untouched. */
    method SwitchWeapon()
      requires Valid()
      modifies this`selectedWeapon
      ensures Valid()
      ensures selectedWeapon == NextSelection(old(selectedWeapon), |weapons|)
    {
      selectedWeapon := (selectedWeapon + 1) % |weapons|;
    }

    /** The Enter and W keys: switch weapons while aiming. */
    method SwitchKey()
      requires Valid()
      modifies this`selectedWeapon
      ensures Valid()
      ensures old(phase) == Aiming ==> selectedWeapon == NextSelection(old(selectedWeapon), |weapons|)
      ensures old(phase) != Aiming ==> selectedWeapon == old(selectedWeapon)
    {
      if phase == Aiming {
        SwitchWeapon();
      }
    }

    /** adjustAim(amount), clamped to [0, 180]. */
    method AdjustAim(amount: int)
      requires Valid()
      modifies this`aimAngle
      ensures Valid()
      ensures aimAngle == Aim.AdjustAim(old(aimAngle), amount)
    {
      aimAngle := Aim.Clamp(aimAngle + amount, Aim.MinAngle, Aim.MaxAngle);
    }

    /** adjustPower(amount), clamped to [10, 100]. */
    method AdjustPower(amount: int)
      requires Valid()
      modifies this`aimPower
      ensures Valid()
      ensures aimPower == Aim.AdjustPower(old(aimPower), amount)
    {
      aimPower := Aim.Clamp(aimPower + amount, Aim.MinPower, Aim.MaxPower);
    }

    /** An arrow key: adjusts the aim while aiming (moving pushes the character, not modelled). */
    method ArrowKey(key: Aim.Arrow)
      requires Valid()
      modifies this`aimAngle, this`aimPower
      ensures Valid()
      ensures old(phase) == Aiming ==> (aimAngle, aimPower) == Aim.AimKey(old(aimAngle), old(aimPower), key)
      ensures old(phase) != Aiming ==> aimAngle == old(aimAngle) && aimPower == old(aimPower)
    {
      if phase == Aiming {
        match key
        case Left => AdjustAim(-Aim.AngleStep);
        case Right => AdjustAim(Aim.AngleStep);
        case Up => AdjustPower(Aim.PowerStep);
        case Down => AdjustPower(-Aim.PowerStep);
      }
    }

    /** calculateTrajectory, given the cosine and sine of the angle: samples of
        a launch with the selected weapon until one leaves the flat field. */
    method CalculateTrajectory(startX: real, startY: real, cosAngle: real, sinAngle: real, power: int, steps: int)
      returns (points: seq<Point>)
      requires selectedWeapon < |weapons|
      ensures steps <= 0 ==> points == []
      ensures steps > 0 ==> 1 <= |points| <= steps
      ensures forall k :: 0 <= k < |points| ==>
        points[k] == Sample(startX, startY, Launch(cosAngle, sinAngle, LaunchSpeed(power, weapons[selectedWeapon])).0, Launch(cosAngle, sinAngle, LaunchSpeed(power, weapons[selectedWeapon])).1, k)
      ensures forall k :: 1 <= k < |points| ==> !OffFlatField(points[k], gameWidth, gameHeight)
      ensures 0 < |points| < steps ==>
        OffFlatField(Sample(startX, startY, Launch(cosAngle, sinAngle, LaunchSpeed(power, weapons[selectedWeapon])).0, Launch(cosAngle, sinAngle, LaunchSpeed(power, weapons[selectedWeapon])).1, |points|), gameWidth, gameHeight)
    {
      var velocity := Launch(cosAngle, sinAngle, LaunchSpeed(power, weapons[selectedWeapon]));
      points := FlatTrajectory(startX, startY, velocity.0, velocity.1, steps, gameWidth, gameHeight);
    }

    /** updateTrajectory while aiming: the preview of the current aim from the
        active character at (x, y), 25 samples at most. It always has a first
        point (where the line starts) and a last one (where the dot is drawn). */
    method UpdateTrajectory(x: real, y: real, cosAngle: real, sinAngle: real) returns (points: seq<Point>)
      requires selectedWeapon < |weapons|
      ensures 1 <= |points| <= PreviewSteps
      ensures points[0] == Point(x, y)
      ensures forall k :: 0 <= k < |points| ==>
        points[k] == Sample(x, y, Launch(cosAngle, sinAngle, LaunchSpeed(aimPower, weapons[selectedWeapon])).0, Launch(cosAngle, sinAngle, LaunchSpeed(aimPower, weapons[selectedWeapon])).1, k)
    {
      points := CalculateTrajectory(x, y, cosAngle, sinAngle, aimPower, PreviewSteps);
      StartsAtLaunch(x, y, Launch(cosAngle, sinAngle, LaunchSpeed(aimPower, weapons[selectedWeapon])).0, Launch(cosAngle, sinAngle, LaunchSpeed(aimPower, weapons[selectedWeapon])).1);
    }

    /** createExplosion(x, y, weapon): area damage around the impact;
        distances[c] is character c's distance from it. */
    method CreateExplosion(weapon: Weapon, distances: seq<real>)
      requires Valid() && Sound(weapon)
      requires |distances| == characterHealth.Length && forall c :: 0 <= c < |distances| ==> distances[c] >= 0.0
      modifies characterHealth
      ensures Valid()
      ensures characterHealth[..] == AfterBlastAll(old(characterHealth[..]), distances, weapon.explosionRadius as real, weapon.damage)
    {
      BlastKeepsHealth(characterHealth[..], distances, weapon.explosionRadius as real, weapon.damage);
      ApplyAreaDamage(characterHealth, distances, weapon.explosionRadius as real, weapon.damage);
    }

    /** The projectile hits the ground: it explodes. */
    method GroundHit(weapon: Weapon, distances: seq<real>)
      requires Valid() && Sound(weapon)
      requires |distances| == characterHealth.Length && forall c :: 0 <= c < |distances| ==> distances[c] >= 0.0
      modifies characterHealth
      ensures Valid()
      ensures characterHealth[..] == AfterBlastAll(old(characterHealth[..]), distances, weapon.explosionRadius as real, weapon.damage)
    {
      CreateExplosion(weapon, distances);
    }

    /** The projectile hits character `index`: the explosion, then the weapon's
        full damage to that character once more. */
    method CharacterHit(weapon: Weapon, index: int, distances: seq<real>)
      requires Valid() && Sound(weapon)
      requires |distances| == characterHealth.Length && forall c :: 0 <= c < |distances| ==> distances[c] >= 0.0
      modifies characterHealth
      ensures Valid()
      ensures var blasted := AfterBlastAll(old(characterHealth[..]), distances, weapon.explosionRadius as real, weapon.damage);
        && (0 <= index < characterHealth.Length ==> characterHealth[..] == blasted[index := Hurt(blasted[index], weapon.damage)])
        && (!(0 <= index < characterHealth.Length) ==> characterHealth[..] == blasted)
    {
      CreateExplosion(weapon, distances);
      ApplyDamageToCharacter(characterHealth, index, weapon.damage);
    }
  }
}
