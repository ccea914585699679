/** js/scenes/Game.js: the complete battle scene, with the weapon registry,
    destructible terrain and the trajectory preview that stops at the terrain. */
module GameScene {
  import opened Wrappers
  import opened Turns
  import Aim
  import opened Weapons
  import opened Damage
  import opened Ballistics
  import opened Terrain

  /** gameState.turnTime: seconds per turn. */
  const TurnTime := 60

  class Game {
    /** scale.width and scale.height, read once by create(). */
    const gameWidth: nat
    const gameHeight: int
    const turnTime: int
    /** players[p].characters for every player. */
    const rosters: seq<seq<nat>>
    const characterHealth: array<int>
    /** terrainData[x][y]: is the pixel (x, gameHeight - 200 + y) solid. */
    const terrainData: array2<bool>

    /** currentPlayer and every players[p].activeCharacter. */
    var rotation: Rotation
    var phase: Phase
    var timeRemaining: int
    var weapons: seq<Weapon>
    var selectedWeapon: nat
    var aimAngle: int
    var aimPower: int
    /** Number of live repeating 1 s turn timers (time.addEvent with loop: true). */
    var turnTimers: nat
    /** Whether the 3000 ms delayedCall to endTurn issued by fireWeapon is still to come. */
    var endTurnPending: bool

    /** Everything that holds in every state, except how many timers are live. */
    ghost predicate Coherent()
      reads this, characterHealth
    {
      && RostersOk(rosters, characterHealth.Length)
      && Settled(rosters, rotation)
      && 1 <= timeRemaining <= turnTime
      && 0 < |weapons| && selectedWeapon < |weapons|
      && (forall i :: 0 <= i < |weapons| ==> Sound(weapons[i]))
      && Aim.MinAngle <= aimAngle <= Aim.MaxAngle
      && Aim.MinPower <= aimPower <= Aim.MaxPower
      && HealthOk(characterHealth[..])
      && terrainData.Length0 == gameWidth && terrainData.Length1 == TerrainHeight
    }

    /** Before the first turn no timer runs; afterwards exactly one does, and
        an end of turn is pending exactly while a shot is in flight. */
    ghost predicate Valid()
      reads this, characterHealth
    {
      && Coherent()
      && turnTimers == (if phase == Waiting then 0 else 1)
      && endTurnPending == (phase == Firing)
    }

    /** What startTurn leaves behind, given the x position of every character. */
    ghost predicate TurnStarted(xs: seq<real>)
      reads this
    {
      && InRange(rosters, rotation) && Active(rosters, rotation) < |xs|
      && phase == Moving && timeRemaining == turnTime
      && aimPower == Aim.StartPower
      && aimAngle == Aim.FacingAngle(xs[Active(rosters, rotation)], gameWidth as real)
      && turnTimers == 1 && !endTurnPending
    }

    /** First screen row covered by the terrain grid. */
    function TerrainTop(): int {
      gameHeight - TerrainHeight
    }

    /** The scene's constructor together with the sizes and the terrain grid
        that create() sets up before it starts the first turn. */
    constructor (width: nat, height: int, grid: array2<bool>)
      requires grid.Length0 == width && grid.Length1 == TerrainHeight
      ensures Valid() && phase == Waiting
      ensures gameWidth == width && gameHeight == height && terrainData == grid
      ensures rosters == SceneRosters && rotation == Start(rosters)
      ensures fresh(characterHealth) && characterHealth[..] == [100, 100, 100]
      ensures weapons == Catalog() && selectedWeapon == 0
      ensures turnTime == TurnTime && timeRemaining == TurnTime
      ensures aimAngle == 0 && aimPower == Aim.StartPower
    {
      gameWidth, gameHeight, terrainData := width, height, grid;
      turnTime := TurnTime;
      rosters := SceneRosters;
      rotation := Start(SceneRosters);
      characterHealth := new int[3][100, 100, 100];
      phase := Waiting;
      timeRemaining := TurnTime;
      weapons := Catalog();
      selectedWeapon := 0;
      aimAngle, aimPower := 0, Aim.StartPower;
      turnTimers, endTurnPending := 0, false;
    }

    /** startTurn: back to the moving phase with a full clock, power 50, the
        aim facing the middle of the screen and a new repeating timer. */
    method StartTurn(xs: seq<real>)
      requires Coherent() && turnTimers == 0 && !endTurnPending
      requires |xs| == characterHealth.Length
      modifies this`phase, this`timeRemaining, this`aimPower, this`aimAngle, this`turnTimers
      ensures Valid() && TurnStarted(xs)
    {
      var character := Active(rosters, rotation);
      phase := Moving;
      timeRemaining := turnTime;
      aimPower := Aim.StartPower;
      aimAngle := if xs[character] < gameWidth as real / 2.0 then 45 else 135;
      turnTimers := turnTimers + 1;
    }

    /** nextTurn: the next slot of the current player, or the first slot of
        the next player once the current one has had all its characters. */
    method NextTurn(xs: seq<real>)
      requires Coherent() && turnTimers == 0 && !endTurnPending
      requires |xs| == characterHealth.Length
      modifies this`rotation, this`phase, this`timeRemaining, this`aimPower, this`aimAngle, this`turnTimers
      ensures Valid() && TurnStarted(xs)
      ensures rotation == Advance(rosters, old(rotation))
    {
      var p := rotation.player;
      var next := rotation.cursors[p] + 1;
      if next >= |rosters[p]| {
        rotation := Rotation((p + 1) % |rosters|, rotation.cursors[p := 0]);
      } else {
        rotation := Rotation(p, rotation.cursors[p := next]);
      }
      StartTurn(xs);
    }

    /** endTurn: cancel the turn timer, then nextTurn. */
    method EndTurn(xs: seq<real>)
      requires Coherent() && turnTimers <= 1 && !endTurnPending
      requires |xs| == characterHealth.Length
      modifies this`rotation, this`phase, this`timeRemaining, this`aimPower, this`aimAngle, this`turnTimers
      ensures Valid() && TurnStarted(xs)
      ensures rotation == Advance(rosters, old(rotation))
    {
      if turnTimers > 0 {
        turnTimers := turnTimers - 1;
      }
      NextTurn(xs);
    }

    /** updateTimer, run by the repeating 1 s timer: only while moving or
        aiming, one second off the clock; at 0 the turn ends. */
    method UpdateTimer(xs: seq<real>)
      requires Valid() && |xs| == characterHealth.Length
      modifies this`rotation, this`phase, this`timeRemaining, this`aimPower, this`aimAngle, this`turnTimers
      ensures Valid()
      ensures old(phase) != Moving && old(phase) != Aiming ==> unchanged(this)
      ensures (old(phase) == Moving || old(phase) == Aiming) && old(timeRemaining) > 1 ==>
        && timeRemaining == old(timeRemaining) - 1
        && phase == old(phase) && rotation == old(rotation)
        && aimAngle == old(aimAngle) && aimPower == old(aimPower) && turnTimers == old(turnTimers)
      ensures (old(phase) == Moving || old(phase) == Aiming) && old(timeRemaining) <= 1 ==>
        rotation == Advance(rosters, old(rotation)) && TurnStarted(xs)
    {
      if phase == Moving || phase == Aiming {
        timeRemaining := timeRemaining - 1;
        if timeRemaining <= 0 {
          timeRemaining := 1;
          EndTurn(xs);
        }
      }
    }

    /** The delayedCall(3000, endTurn) that fireWeapon scheduled comes due. */
    method DelayedEndTurn(xs: seq<real>)
      requires Valid() && endTurnPending
      requires |xs| == characterHealth.Length
      modifies this`rotation, this`phase, this`timeRemaining, this`aimPower, this`aimAngle, this`turnTimers, this`endTurnPending
      ensures Valid() && TurnStarted(xs)
      ensures rotation == Advance(rosters, old(rotation))
    {
      endTurnPending := false;
      EndTurn(xs);
    }

    /** The space bar: from moving it starts the aiming phase, from aiming it fires. */
    method Spacebar() returns (fired: bool)
      requires Valid()
      modifies this`phase, this`weapons, this`endTurnPending
      ensures Valid()
      ensures old(phase) == Moving ==> phase == Aiming && weapons == old(weapons) && !fired
      ensures old(phase) == Aiming ==>
        var w := old(weapons[selectedWeapon]);
        && fired == (w.ammo > 0)
        && (fired ==> phase == Firing && TryFire(w) == Some(weapons[selectedWeapon])
                      && weapons == old(weapons)[selectedWeapon := weapons[selectedWeapon]])
        && (!fired ==> phase == Aiming && weapons == old(weapons))
      ensures old(phase) != Moving && old(phase) != Aiming ==> unchanged(this) && !fired
    {
      fired := false;
      if phase == Moving {
        phase := Aiming;
      } else if phase == Aiming {
        fired := FireWeapon();
      }
    }

    /** fireWeapon: with the selected weapon empty nothing happens; otherwise
        that weapon loses one round, the phase becomes 'firing' and the end of
        the turn is scheduled. */
    method FireWeapon() returns (fired: bool)
      requires Valid() && phase == Aiming
      modifies this`weapons, this`phase, this`endTurnPending
      ensures Valid()
      ensures var w := old(weapons[selectedWeapon]);
        && fired == (w.ammo > 0)
        && (fired ==> && phase == Firing && endTurnPending
                      && TryFire(w) == Some(weapons[selectedWeapon])
                      && weapons == old(weapons)[selectedWeapon := weapons[selectedWeapon]])
        && (!fired ==> phase == Aiming && !endTurnPending && weapons == old(weapons))
    {
      var weapon := weapons[selectedWeapon];
      if weapon.ammo <= 0 {
        return false;
      }
      weapons := weapons[selectedWeapon := weapon.(ammo := weapon.ammo - 1)];
      phase := Firing;
      endTurnPending := true;
      fired := true;
    }

    /** switchWeapon: select the next weapon, cyclically; no ammunition changes. */
    method SwitchWeapon()
      requires Valid()
      modifies this`selectedWeapon
      ensures Valid()
      ensures selectedWeapon == NextSelection(old(selectedWeapon), |weapons|)
    {
      selectedWeapon := (selectedWeapon + 1) % |weapons|;
    }

    /** The Enter and W keys: switch weapons, but only while aiming. */
    method SwitchKey()
      requires Valid()
      modifies this`selectedWeapon
      ensures Valid()
      ensures old(phase) == Aiming ==> selectedWeapon == NextSelection(old(selectedWeapon), |weapons|)
      ensures old(phase) != Aiming ==> selectedWeapon == old(selectedWeapon)
    {
      if phase == Aiming {
        SwitchWeapon();
      }
    }

    /** adjustAim(amount): turn the aim, clamped to [0, 180]. */
    method AdjustAim(amount: int)
      requires Valid()
      modifies this`aimAngle
      ensures Valid()
      ensures aimAngle == Aim.AdjustAim(old(aimAngle), amount)
    {
      aimAngle := Aim.Clamp(aimAngle + amount, Aim.MinAngle, Aim.MaxAngle);
    }

    /** adjustPower(amount): change the power, clamped to [10, 100]. */
    method AdjustPower(amount: int)
      requires Valid()
      modifies this`aimPower
      ensures Valid()
      ensures aimPower == Aim.AdjustPower(old(aimPower), amount)
    {
      aimPower := Aim.Clamp(aimPower + amount, Aim.MinPower, Aim.MaxPower);
    }

    /** An arrow key: while moving it only pushes the character (physics, not
        modelled); while aiming it adjusts the aim. */
    method ArrowKey(key: Aim.Arrow)
      requires Valid()
      modifies this`aimAngle, this`aimPower
      ensures Valid()
      ensures old(phase) == Aiming ==> (aimAngle, aimPower) == Aim.AimKey(old(aimAngle), old(aimPower), key)
      ensures old(phase) != Aiming ==> aimAngle == old(aimAngle) && aimPower == old(aimPower)
    {
      if phase == Aiming {
        match key
        case Left => AdjustAim(-Aim.AngleStep);
        case Right => AdjustAim(Aim.AngleStep);
        case Up => AdjustPower(Aim.PowerStep);
        case Down => AdjustPower(-Aim.PowerStep);
      }
    }

    /** isSolid(x, y): false off the grid, otherwise the grid cell under the point. */
    predicate IsSolid(x: real, y: real)
      reads terrainData
      requires terrainData.Length1 == TerrainHeight
    {
      if x < 0.0 || x >= terrainData.Length0 as real || y < TerrainTop() as real || y >= gameHeight as real then false
      else terrainData[x.Floor, (y - TerrainTop() as real).Floor]
    }

    /** Every point of a pixel square answers with that pixel's cell, and no point off the grid is solid. */
    lemma PixelSolid(i: int, j: int, x: real, y: real)
      requires terrainData.Length1 == TerrainHeight
      requires i as real <= x < i as real + 1.0 && (TerrainTop() + j) as real <= y < (TerrainTop() + j) as real + 1.0
      ensures !(0 <= i < terrainData.Length0 && 0 <= j < TerrainHeight) ==> !IsSolid(x, y)
      ensures 0 <= i < terrainData.Length0 && 0 <= j < TerrainHeight ==> IsSolid(x, y) == terrainData[i, j]
    {
      var top := TerrainTop() as real;
      assert (y - top) - j as real >= 0.0 && (y - top) - j as real < 1.0;
      if 0 <= i < terrainData.Length0 && 0 <= j < TerrainHeight {
        assert x.Floor == i;
        assert (y - top).Floor == j;
      }
    }

    /** Does the blast of the given centre and radius reach grid cell (i, j). */
    predicate Blasted(centerX: int, centerY: int, radius: int, i: int, j: int) {
      InBlast(centerX, centerY, radius, i, TerrainTop() + j)
    }

    /** The inner loop of destroyTerrain, over the rows of column x that the
        blast square covers. */
    method DestroyColumn(x: int, centerX: int, centerY: int, radius: int) returns (destroyedAny: bool)
      requires terrainData.Length1 == TerrainHeight && 0 <= x < terrainData.Length0
      modifies terrainData
      ensures forall i, j :: 0 <= i < terrainData.Length0 && 0 <= j < TerrainHeight ==>
        terrainData[i, j] == (old(terrainData[i, j]) && !(i == x && Blasted(centerX, centerY, radius, i, j)))
      ensures destroyedAny <==>
        exists j :: 0 <= j < TerrainHeight && old(terrainData[x, j]) && Blasted(centerX, centerY, radius, x, j)
    {
      destroyedAny := false;
      var startY := TerrainTop();
      var y0 := if centerY - startY - radius > 0 then centerY - startY - radius else 0;
      var y1 := if TerrainHeight - 1 < centerY - startY + radius then TerrainHeight - 1 else centerY - startY + radius;
      forall j | 0 <= j < TerrainHeight && Blasted(centerX, centerY, radius, x, j)
        ensures y0 <= j <= y1
      {
        DiscInBox(centerX, centerY, radius, x, startY + j);
      }
      var y := y0;
      while y <= y1
        invariant y0 <= y && (y <= y1 + 1 || y == y0)
        invariant forall i, j :: 0 <= i < terrainData.Length0 && 0 <= j < TerrainHeight ==>
          terrainData[i, j] == (old(terrainData[i, j]) && !(i == x && j < y && Blasted(centerX, centerY, radius, i, j)))
        invariant destroyedAny <==>
          exists j :: 0 <= j < y && j < TerrainHeight && old(terrainData[x, j]) && Blasted(centerX, centerY, radius, x, j)
      {
        if InBlast(centerX, centerY, radius, x, startY + y) && terrainData[x, y] {
          terrainData[x, y] := false;
          destroyedAny := true;
        }
        y := y + 1;
      }
    }

    /** destroyTerrain(cx, cy, r): clear every solid cell within distance r of
        the centre; the answer says whether any cell was cleared. */
    method DestroyTerrain(centerX: int, centerY: int, radius: int) returns (destroyedAny: bool)
      requires terrainData.Length1 == TerrainHeight
      modifies terrainData
      ensures forall i, j :: 0 <= i < terrainData.Length0 && 0 <= j < TerrainHeight ==>
        terrainData[i, j] == (old(terrainData[i, j]) && !Blasted(centerX, centerY, radius, i, j))
      ensures destroyedAny <==>
        exists i, j :: 0 <= i < terrainData.Length0 && 0 <= j < TerrainHeight && old(terrainData[i, j]) && Blasted(centerX, centerY, radius, i, j)
      ensures forall x: real, y: real :: IsSolid(x, y) ==> old(IsSolid(x, y))
    {
      destroyedAny := false;
      var x0 := if centerX - radius > 0 then centerX - radius else 0;
      var x1 := if terrainData.Length0 - 1 < centerX + radius then terrainData.Length0 - 1 else centerX + radius;
      forall i, j | 0 <= i < terrainData.Length0 && 0 <= j < TerrainHeight && Blasted(centerX, centerY, radius, i, j)
        ensures x0 <= i <= x1
      {
        DiscInBox(centerX, centerY, radius, i, TerrainTop() + j);
      }
      var x := x0;
      while x <= x1
        invariant x0 <= x && (x <= x1 + 1 || x == x0)
        invariant forall i, j :: 0 <= i < terrainData.Length0 && 0 <= j < TerrainHeight ==>
          terrainData[i, j] == (old(terrainData[i, j]) && !(i < x && Blasted(centerX, centerY, radius, i, j)))
        invariant destroyedAny <==>
          exists i, j :: 0 <= i < x && i < terrainData.Length0 && 0 <= j < TerrainHeight && old(terrainData[i, j]) && Blasted(centerX, centerY, radius, i, j)
      {
        var column := DestroyColumn(x, centerX, centerY, radius);
        destroyedAny := destroyedAny || column;
        x := x + 1;
      }
    }

    /** Destruction is idempotent: the same explosion a second time finds
        nothing left to clear and leaves the grid as the first one did. */
    method DestroyTwice(centerX: int, centerY: int, radius: int) returns (first: bool, second: bool)
      requires terrainData.Length1 == TerrainHeight
      modifies terrainData
      ensures !second
      ensures forall i, j :: 0 <= i < terrainData.Length0 && 0 <= j < TerrainHeight ==>
        terrainData[i, j] == (old(terrainData[i, j]) && !Blasted(centerX, centerY, radius, i, j))
    {
      first := DestroyTerrain(centerX, centerY, radius);
      second := DestroyTerrain(centerX, centerY, radius);
    }

    /** A sample of the preview ends it: solid terrain, below the bottom edge or off either side. */
    predicate Blocked(p: Point)
      reads terrainData
      requires terrainData.Length1 == TerrainHeight
    {
      IsSolid(p.x, p.y) || p.y > gameHeight as real || p.x < 0.0 || p.x > gameWidth as real
    }

    /** The sampling loop of calculateTrajectory for launch velocity (vx, vy):
        the launch point and then each 0.08 s sample, stopping before the
        first one that is blocked. */
    method TrajectoryPoints(startX: real, startY: real, vx: real, vy: real, steps: int)
      returns (points: seq<Point>)
      requires terrainData.Length1 == TerrainHeight
      ensures steps <= 0 ==> points == []
      ensures steps > 0 ==> 1 <= |points| <= steps
      ensures forall k :: 0 <= k < |points| ==> points[k] == Sample(startX, startY, vx, vy, k)
      ensures forall k :: 1 <= k < |points| ==> !Blocked(points[k])
      ensures 0 < |points| < steps ==> Blocked(Sample(startX, startY, vx, vy, |points|))
    {
      points := [];
      var x, y, t := startX, startY, 0.0;
      var i := 0;
      while i < steps
        invariant 0 <= i && (steps > 0 ==> i <= steps) && (steps <= 0 ==> i == 0)
        invariant |points| == i
        invariant t == TimeStep * (i as real)
        invariant Point(x, y) == Sample(startX, startY, vx, vy, i)
        invariant forall k :: 0 <= k < i ==> points[k] == Sample(startX, startY, vx, vy, k)
        invariant forall k :: 1 <= k <= i ==> !Blocked(Sample(startX, startY, vx, vy, k))
      {
        points := points + [Point(x, y)];
        NextSample(startX, startY, vx, vy, i, t);
        t := t + TimeStep;
        x := startX + vx * t;
        y := startY + vy * t + 0.5 * Gravity * t * t;
        assert Point(x, y) == Sample(startX, startY, vx, vy, i + 1);
        if IsSolid(x, y) || y > gameHeight as real || x < 0.0 || x > gameWidth as real {
          assert Blocked(Point(x, y));
          break;
        }
        i := i + 1;
      }
    }

    /** calculateTrajectory(startX, startY, angle, power, steps), given the
        cosine and sine of the angle: the samples of a launch with the
        selected weapon. */
    method CalculateTrajectory(startX: real, startY: real, cosAngle: real, sinAngle: real, power: int, steps: int)
      returns (points: seq<Point>)
      requires terrainData.Length1 == TerrainHeight && selectedWeapon < |weapons|
      ensures steps <= 0 ==> points == []
      ensures steps > 0 ==> 1 <= |points| <= steps
      ensures forall k :: 0 <= k < |points| ==>
        points[k] == Sample(startX, startY, Launch(cosAngle, sinAngle, LaunchSpeed(power, weapons[selectedWeapon])).0, Launch(cosAngle, sinAngle, LaunchSpeed(power, weapons[selectedWeapon])).1, k)
      ensures forall k :: 1 <= k < |points| ==> !Blocked(points[k])
      ensures 0 < |points| < steps ==>
        Blocked(Sample(startX, startY, Launch(cosAngle, sinAngle, LaunchSpeed(power, weapons[selectedWeapon])).0, Launch(cosAngle, sinAngle, LaunchSpeed(power, weapons[selectedWeapon])).1, |points|))
    {
      var velocity := Launch(cosAngle, sinAngle, LaunchSpeed(power, weapons[selectedWeapon]));
      points := TrajectoryPoints(startX, startY, velocity.0, velocity.1, steps);
    }

    /** updateTrajectory while aiming: the preview of the current aim from the
        active character at (x, y), 25 samples at most. It always has a first
        point (where the line starts) and a last one (where the dot is drawn). */
    method UpdateTrajectory(x: real, y: real, cosAngle: real, sinAngle: real) returns (points: seq<Point>)
      requires terrainData.Length1 == TerrainHeight && selectedWeapon < |weapons|
      ensures 1 <= |points| <= PreviewSteps
      ensures points[0] == Point(x, y)
      ensures forall k :: 0 <= k < |points| ==>
        points[k] == Sample(x, y, Launch(cosAngle, sinAngle, LaunchSpeed(aimPower, weapons[selectedWeapon])).0, Launch(cosAngle, sinAngle, LaunchSpeed(aimPower, weapons[selectedWeapon])).1, k)
    {
      points := CalculateTrajectory(x, y, cosAngle, sinAngle, aimPower, PreviewSteps);
      StartsAtLaunch(x, y, Launch(cosAngle, sinAngle, LaunchSpeed(aimPower, weapons[selectedWeapon])).0, Launch(cosAngle, sinAngle, LaunchSpeed(aimPower, weapons[selectedWeapon])).1);
    }

    /** createExplosion(x, y, weapon): carve the terrain, then deal area damage
        to every character; distances[c] is character c's distance from (x, y). */
    method CreateExplosion(x: int, y: int, weapon: Weapon, distances: seq<real>) returns (terrainDestroyed: bool)
      requires Valid() && Sound(weapon)
      requires |distances| == characterHealth.Length && forall c :: 0 <= c < |distances| ==> distances[c] >= 0.0
      modifies terrainData, characterHealth
      ensures Valid()
      ensures forall i, j :: 0 <= i < terrainData.Length0 && 0 <= j < TerrainHeight ==>
        terrainData[i, j] == (old(terrainData[i, j]) && !Blasted(x, y, weapon.explosionRadius, i, j))
      ensures terrainDestroyed <==>
        exists i, j :: 0 <= i < terrainData.Length0 && 0 <= j < TerrainHeight && old(terrainData[i, j]) && Blasted(x, y, weapon.explosionRadius, i, j)
      ensures characterHealth[..] == AfterBlastAll(old(characterHealth[..]), distances, weapon.explosionRadius as real, weapon.damage)
    {
      terrainDestroyed := DestroyTerrain(x, y, weapon.explosionRadius);
      BlastKeepsHealth(characterHealth[..], distances, weapon.explosionRadius as real, weapon.damage);
      ApplyAreaDamage(characterHealth, distances, weapon.explosionRadius as real, weapon.damage);
    }

    /** The projectile overlaps the terrain body at (x, y): it explodes only
        if that point is solid. */
    method TerrainOverlap(x: int, y: int, weapon: Weapon, distances: seq<real>) returns (exploded: bool)
      requires Valid() && Sound(weapon)
      requires |distances| == characterHealth.Length && forall c :: 0 <= c < |distances| ==> distances[c] >= 0.0
      modifies terrainData, characterHealth
      ensures Valid()
      ensures exploded == old(IsSolid(x as real, y as real))
      ensures !exploded ==> characterHealth[..] == old(characterHealth[..])
      ensures !exploded ==> forall i, j :: 0 <= i < terrainData.Length0 && 0 <= j < TerrainHeight ==> terrainData[i, j] == old(terrainData[i, j])
      ensures exploded ==> characterHealth[..] == AfterBlastAll(old(characterHealth[..]), distances, weapon.explosionRadius as real, weapon.damage)
      ensures exploded ==> forall i, j :: 0 <= i < terrainData.Length0 && 0 <= j < TerrainHeight ==>
        terrainData[i, j] == (old(terrainData[i, j]) && !Blasted(x, y, weapon.explosionRadius, i, j))
    {
      exploded := IsSolid(x as real, y as real);
      if exploded {
        var _ := CreateExplosion(x, y, weapon, distances);
      }
    }

    /** The projectile hits character `index` at (x, y): the explosion, then
        the weapon's full damage to that character once more. */
    method CharacterHit(x: int, y: int, weapon: Weapon, index: int, distances: seq<real>)
      requires Valid() && Sound(weapon)
      requires |distances| == characterHealth.Length && forall c :: 0 <= c < |distances| ==> distances[c] >= 0.0
      modifies terrainData, characterHealth
      ensures Valid()
      ensures var blasted := AfterBlastAll(old(characterHealth[..]), distances, weapon.explosionRadius as real, weapon.damage);
        && (0 <= index < characterHealth.Length ==> characterHealth[..] == blasted[index := Hurt(blasted[index], weapon.damage)])
        && (!(0 <= index < characterHealth.Length) ==> characterHealth[..] == blasted)
      ensures forall i, j :: 0 <= i < terrainData.Length0 && 0 <= j < TerrainHeight ==>
        terrainData[i, j] == (old(terrainData[i, j]) && !Blasted(x, y, weapon.explosionRadius, i, j))
    {
      var _ := CreateExplosion(x, y, weapon, distances);
      ApplyDamageToCharacter(characterHealth, index, weapon.damage);
    }
  }
}
