/** animal-artillery/js/scenes/Game4.js: aiming and firing without a weapon
    registry; every shot explodes with radius 60 and damage 30, and the
    preview is drawn for a slower launch than the one actually fired. */
module Game4Scene {
  import opened Turns
  import Aim
  import opened Damage
  import opened Ballistics

  /** gameState.turnTime: seconds per turn. */
  const TurnTime := 60
  /** The fixed explosion of this scene. */
  const ExplosionRadius := 60
  const ExplosionDamage := 30
  /** Damage of a direct hit on a character. */
  const HitDamage := 30

  /** Launch speed the preview assumes: power * 4. */
  function PreviewSpeed(power: int): real {
    (power as real) * 4.0
  }

  /** Launch speed createProjectile gives the projectile: power * 6. */
  function ShotSpeed(power: int): real {
    (power as real) * 6.0
  }

  /** The fired projectile travels 1.5 times as fast as the preview assumes, so
      at every sample time its horizontal distance from the launch point is
      1.5 times the previewed one. */
  lemma {:induction false} PreviewUnderstatesShot(x0: real, y0: real, cosAngle: real, sinAngle: real, power: int, i: nat)
    ensures ShotSpeed(power) == 1.5 * PreviewSpeed(power)
    ensures var preview, shot := Launch(cosAngle, sinAngle, PreviewSpeed(power)), Launch(cosAngle, sinAngle, ShotSpeed(power));
      Sample(x0, y0, shot.0, shot.1, i).x - x0 == 1.5 * (Sample(x0, y0, preview.0, preview.1, i).x - x0)
  {
    var t := TimeStep * (i as real);
    var p := power as real;
    assert cosAngle * (p * 6.0) * t == 1.5 * (cosAngle * (p * 4.0) * t);
  }

  class Game {
    const gameWidth: real
    const gameHeight: real
    const turnTime: int
    const rosters: seq<seq<nat>>
    const characterHealth: array<int>

    var rotation: Rotation
    var phase: Phase
    var timeRemaining: int
    var aimAngle: int
    var aimPower: int
    /** 1 when the active character aims to the right, -1 to the left. */
    var aimDirection: int
    /** Number of live repeating 1 s turn timers. */
    var turnTimers: nat
    /** Whether fireWeapon's delayedCall(3000, endTurn) is still to come. */
    var endTurnPending: bool

    /** Everything that holds in every state, except how many timers are live. */
    ghost predicate Coherent()
      reads this, characterHealth
    {
      && RostersOk(rosters, characterHealth.Length)
      && Settled(rosters, rotation)
      && 1 <= timeRemaining <= turnTime
      && Aim.MinAngle <= aimAngle <= Aim.MaxAngle
      && Aim.MinPower <= aimPower <= Aim.MaxPower
      && (aimDirection == 1 || aimDirection == -1)
      && HealthOk(characterHealth[..])
    }

    /** No timer before the first turn and exactly one afterwards; an end of
        turn is pending exactly while a shot is in flight. */
    ghost predicate Valid()
      reads this, characterHealth
    {
      && Coherent()
      && turnTimers == (if phase == Waiting then 0 else 1)
      && endTurnPending == (phase == Firing)
    }

    /** What startTurn leaves behind: the direction faces the middle of the
        screen and the angle follows the direction. */
    ghost predicate TurnStarted(xs: seq<real>)
      reads this
    {
      && InRange(rosters, rotation) && Active(rosters, rotation) < |xs|
      && phase == Moving && timeRemaining == turnTime
      && aimPower == Aim.StartPower
      && (aimDirection == 1 <==> xs[Active(rosters, rotation)] < gameWidth / 2.0)
      && (aimDirection == 1 || aimDirection == -1)
      && aimAngle == (if aimDirection == 1 then 45 else 135)
      && turnTimers == 1 && !endTurnPending
    }

    constructor (width: real, height: real)
      ensures Valid() && phase == Waiting
      ensures gameWidth == width && gameHeight == height
      ensures rosters == SceneRosters && rotation == Start(rosters)
      ensures fresh(characterHealth) && characterHealth[..] == [100, 100, 100]
      ensures turnTime == TurnTime && timeRemaining == TurnTime
      ensures aimAngle == 0 && aimPower == Aim.StartPower && aimDirection == 1
    {
      gameWidth, gameHeight := width, height;
      turnTime := TurnTime;
      rosters := SceneRosters;
      rotation := Start(SceneRosters);
      characterHealth := new int[3][100, 100, 100];
      phase := Waiting;
      timeRemaining := TurnTime;
      aimAngle, aimPower, aimDirection := 0, Aim.StartPower, 1;
      turnTimers, endTurnPending := 0, false;
    }

    /** startTurn: moving phase, full clock, power 50, direction and angle
        towards the middle of the screen, a new timer. */
    method StartTurn(xs: seq<real>)
      requires Coherent() && turnTimers == 0 && !endTurnPending
      requires |xs| == characterHealth.Length
      modifies this`phase, this`timeRemaining, this`aimPower, this`aimAngle, this`aimDirection, this`turnTimers
      ensures Valid() && TurnStarted(xs)
    {
      var character := Active(rosters, rotation);
      phase := Moving;
      timeRemaining := turnTime;
      aimPower := Aim.StartPower;
      aimDirection := if xs[character] < gameWidth / 2.0 then 1 else -1;
      aimAngle := if aimDirection == 1 then 45 else 135;
      turnTimers := turnTimers + 1;
    }

    /** nextTurn: the next slot of the current player, or the next player. */
    method NextTurn(xs: seq<real>)
      requires Coherent() && turnTimers == 0 && !endTurnPending
      requires |xs| == characterHealth.Length
      modifies this`rotation, this`phase, this`timeRemaining, this`aimPower, this`aimAngle, this`aimDirection, this`turnTimers
      ensures Valid() && TurnStarted(xs)
      ensures rotation == Advance(rosters, old(rotation))
    {
      var p := rotation.player;
      var next := rotation.cursors[p] + 1;
      if next >= |rosters[p]| {
        rotation := Rotation((p + 1) % |rosters|, rotation.cursors[p := 0]);
      } else {
        rotation := Rotation(p, rotation.cursors[p := next]);
      }
      StartTurn(xs);
    }

    /** endTurn: cancel the turn timer, then nextTurn. */
    method EndTurn(xs: seq<real>)
      requires Coherent() && turnTimers <= 1 && !endTurnPending
      requires |xs| == characterHealth.Length
      modifies this`rotation, this`phase, this`timeRemaining, this`aimPower, this`aimAngle, this`aimDirection, this`turnTimers
      ensures Valid() && TurnStarted(xs)
      ensures rotation == Advance(rosters, old(rotation))
    {
      if turnTimers > 0 {
        turnTimers := turnTimers - 1;
      }
      NextTurn(xs);
    }

    /** updateTimer: counts down only while moving or aiming; at 0 the turn ends. */
    method UpdateTimer(xs: seq<real>)
      requires Valid() && |xs| == characterHealth.Length
      modifies this`rotation, this`phase, this`timeRemaining, this`aimPower, this`aimAngle, this`aimDirection, this`turnTimers
      ensures Valid()
      ensures old(phase) != Moving && old(phase) != Aiming ==> unchanged(this)
      ensures (old(phase) == Moving || old(phase) == Aiming) && old(timeRemaining) > 1 ==>
        && timeRemaining == old(timeRemaining) - 1
        && phase == old(phase) && rotation == old(rotation)
        && aimAngle == old(aimAngle) && aimPower == old(aimPower) && aimDirection == old(aimDirection)
        && turnTimers == old(turnTimers)
      ensures (old(phase) == Moving || old(phase) == Aiming) && old(timeRemaining) <= 1 ==>
        rotation == Advance(rosters, old(rotation)) && TurnStarted(xs)
    {
      if phase == Moving || phase == Aiming {
        timeRemaining := timeRemaining - 1;
        if timeRemaining <= 0 {
          timeRemaining := 1;
          EndTurn(xs);
        }
      }
    }

    /** fireWeapon's delayedCall(3000, endTurn) comes due. */
    method DelayedEndTurn(xs: seq<real>)
      requires Valid() && endTurnPending
      requires |xs| == characterHealth.Length
      modifies this`rotation, this`phase, this`timeRemaining, this`aimPower, this`aimAngle, this`aimDirection, this`turnTimers, this`endTurnPending
      ensures Valid() && TurnStarted(xs)
      ensures rotation == Advance(rosters, old(rotation))
    {
      endTurnPending := false;
      EndTurn(xs);
    }

    /** The space bar: from moving it starts aiming, from aiming it fires. */
    method Spacebar()
      requires Valid()
      modifies this`phase, this`endTurnPending
      ensures Valid()
      ensures old(phase) == Moving ==> phase == Aiming
      ensures old(phase) == Aiming ==> phase == Firing && endTurnPending
      ensures old(phase) != Moving && old(phase) != Aiming ==> unchanged(this)
    {
      if phase == Moving {
        phase := Aiming;
      } else if phase == Aiming {
        FireWeapon();
      }
    }

    /** fireWeapon: no ammunition here, so every press fires. */
    method FireWeapon()
      requires Valid() && phase == Aiming
      modifies this`phase, this`endTurnPending
      ensures Valid() && phase == Firing && endTurnPending
    {
      phase := Firing;
      endTurnPending := true;
    }

    /** adjustAim(amount), clamped to [0, 180]. */
    method AdjustAim(amount: int)
      requires Valid()
      modifies this`aimAngle
      ensures Valid()
      ensures aimAngle == Aim.AdjustAim(old(aimAngle), amount)
    {
      aimAngle := Aim.Clamp(aimAngle + amount, Aim.MinAngle, Aim.MaxAngle);
    }

    /** adjustPower(amount), clamped to [10, 100]. */
    method AdjustPower(amount: int)
      requires Valid()
      modifies this`aimPower
      ensures Valid()
      ensures aimPower == Aim.AdjustPower(old(aimPower), amount)
    {
      aimPower := Aim.Clamp(aimPower + amount, Aim.MinPower, Aim.MaxPower);
    }

    /** An arrow key: adjusts the aim while aiming (moving pushes the character, not modelled). */
    method ArrowKey(key: Aim.Arrow)
      requires Valid()
      modifies this`aimAngle, this`aimPower
      ensures Valid()
      ensures old(phase) == Aiming ==> (aimAngle, aimPower) == Aim.AimKey(old(aimAngle), old(aimPower), key)
      ensures old(phase) != Aiming ==> aimAngle == old(aimAngle) && aimPower == old(aimPower)
    {
      if phase == Aiming {
        match key
        case Left => AdjustAim(-Aim.AngleStep);
        case Right => AdjustAim(Aim.AngleStep);
        case Up => AdjustPower(Aim.PowerStep);
        case Down => AdjustPower(-Aim.PowerStep);
      }
    }

    /** calculateTrajectory, given the cosine and sine of the angle: samples
        of a launch at the preview speed power * 4 until one leaves the flat field. */
    method CalculateTrajectory(startX: real, startY: real, cosAngle: real, sinAngle: real, power: int, steps: int)
      returns (points: seq<Point>)
      ensures steps <= 0 ==> points == []
      ensures steps > 0 ==> 1 <= |points| <= steps
      ensures forall k :: 0 <= k < |points| ==>
        points[k] == Sample(startX, startY, Launch(cosAngle, sinAngle, PreviewSpeed(power)).0, Launch(cosAngle, sinAngle, PreviewSpeed(power)).1, k)
      ensures forall k :: 1 <= k < |points| ==> !OffFlatField(points[k], gameWidth, gameHeight)
      ensures 0 < |points| < steps ==>
        OffFlatField(Sample(startX, startY, Launch(cosAngle, sinAngle, PreviewSpeed(power)).0, Launch(cosAngle, sinAngle, PreviewSpeed(power)).1, |points|), gameWidth, gameHeight)
    {
      var velocity := Launch(cosAngle, sinAngle, PreviewSpeed(power));
      points := FlatTrajectory(startX, startY, velocity.0, velocity.1, steps, gameWidth, gameHeight);
    }

    /** updateTrajectory while aiming: the preview of the current aim from the
        active character at (x, y), 25 samples at most. It always has a first
        point (where the line starts) and a last one (where the dot is drawn). */
    method UpdateTrajectory(x: real, y: real, cosAngle: real, sinAngle: real) returns (points: seq<Point>)
      ensures 1 <= |points| <= PreviewSteps
      ensures points[0] == Point(x, y)
      ensures forall k :: 0 <= k < |points| ==>
        points[k] == Sample(x, y, Launch(cosAngle, sinAngle, PreviewSpeed(aimPower)).0, Launch(cosAngle, sinAngle, PreviewSpeed(aimPower)).1, k)
    {
      points := CalculateTrajectory(x, y, cosAngle, sinAngle, aimPower, PreviewSteps);
      StartsAtLaunch(x, y, Launch(cosAngle, sinAngle, PreviewSpeed(aimPower)).0, Launch(cosAngle, sinAngle, PreviewSpeed(aimPower)).1);
    }

    /** createExplosion(x, y): area damage of radius 60 and damage 30 around
        the impact; distances[c] is character c's distance from it. */
    method CreateExplosion(distances: seq<real>)
      requires Valid()
      requires |distances| == characterHealth.Length && forall c :: 0 <= c < |distances| ==> distances[c] >= 0.0
      modifies characterHealth
      ensures Valid()
      ensures characterHealth[..] == AfterBlastAll(old(characterHealth[..]), distances, ExplosionRadius as real, ExplosionDamage)
    {
      BlastKeepsHealth(characterHealth[..], distances, ExplosionRadius as real, ExplosionDamage);
      ApplyAreaDamage(characterHealth, distances, ExplosionRadius as real, ExplosionDamage);
    }

    /** The projectile hits character `index`: the explosion, then 30 more damage to that character. */
    method CharacterHit(index: int, distances: seq<real>)
      requires Valid()
      requires |distances| == characterHealth.Length && forall c :: 0 <= c < |distances| ==> distances[c] >= 0.0
      modifies characterHealth
      ensures Valid()
      ensures var blasted := AfterBlastAll(old(characterHealth[..]), distances, ExplosionRadius as real, ExplosionDamage);
        && (0 <= index < characterHealth.Length ==> characterHealth[..] == blasted[index := Hurt(blasted[index], HitDamage)])
        && (!(0 <= index < characterHealth.Length) ==> characterHealth[..] == blasted)
    {
      CreateExplosion(distances);
      ApplyDamageToCharacter(characterHealth, index, HitDamage);
    }
  }
}
