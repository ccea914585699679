# Animal Artillery battle kernel in Dafny

Animal Artillery is a turn-based artillery game played in a browser. Two
players take turns; player 1 owns the cat and the dog, player 2 the duck.

Each turn has a clock. The active character first moves. The space bar then
switches to aiming. Arrow keys set the angle (0 to 180 degrees, steps of 3) and
the power (10 to 100, steps of 5). A second press of the space bar fires. The
projectile's flight is previewed as a sampled parabola. Where it lands it
explodes: nearby characters lose health in proportion to their closeness, a
character hit directly loses the weapon's damage on top, and in the
destructible-terrain scene the blast carves a disc out of the ground grid.

The repository keeps five generations of the battle scene. Each one is
modelled here as its own class:

| Dafny module | scene | what it adds |
|---|---|---|
| `Game2Scene` | js/scenes/Game2.js | turns of 30 s; only moving; the clock is also driven by every frame |
| `Game3Scene` | animal-artillery/js/scenes/Game3.js | turns of 30 s; only moving; health is shown but never changes |
| `Game4Scene` | animal-artillery/js/scenes/Game4.js | 60 s turns; aiming and firing one fixed shot (radius 60, damage 30); the preview assumes speed power·4, the shot flies at power·6 |
| `Game5Scene` | js/scenes/Game5.js | a registry of three weapons with ammunition, and weapon switching |
| `GameScene` | js/scenes/Game.js | Game5's weapons plus a destructible terrain grid that stops trajectories and is carved by explosions |

Six modules hold the logic the scenes share:

- `Turns`: the phase and the round-robin rotation over players and their character slots.
- `Aim`: clamping of angle and power, and the arrow keys.
- `Weapons`: the catalogue, spending ammunition, and cycling the selection.
- `Damage`: area damage with linear fall-off, direct hits, and the health array.
- `Ballistics`: the sampled parabola with gravity 300 and time step 0.08.
- `Terrain`: the circular blast test.

A scene's state is a `class Game` whose methods update its fields in place:

- `rotation`, `phase` and `timeRemaining`;
- `aimAngle` and `aimPower`;
- `weapons` and `selectedWeapon`;
- the `characterHealth` array and the `terrainData` grid.

`Valid()` is the invariant every event handler keeps. It covers:

- the rotation is in range;
- the clock is within 1..turnTime;
- the aim is within its limits;
- the weapons are sound and the selection is in range;
- every health value is in 0..100;
- exactly one turn timer is live once play has started;
- an end of turn is scheduled exactly while a shot is in flight.

The engine supplies some inputs, and these are parameters here:

- the characters' x positions (`xs`);
- each character's distance from an explosion (`distances`);
- the cosine and sine of the aim angle.

Timer callbacks and key presses are the methods themselves: `UpdateTimer`,
`DelayedEndTurn`, `Spacebar`, `ArrowKey`, `SwitchKey` and `Update`.

## Model

| member | source | states |
|---|---|---|
| Turns.Active | js/scenes/Game.js:390-393 | the character on turn is one of the current player's own characters |
| Turns.Advance | js/scenes/Game.js:804-812 | nextTurn keeps every cursor inside its roster, leaves the other players' cursors alone, and either keeps the player or passes to the next one cyclically |
| Turns.Steps | js/scenes/Game.js:804-812 | any number of consecutive nextTurn calls keeps the rotation in range |
| Turns.StaysWithPlayer | js/scenes/Game.js:804-812 | while the current player has slots left, each turn moves that player's cursor on by exactly one and keeps the turn with the player |
| Turns.HandsOver | js/scenes/Game.js:804-812 | after the remaining slots of the current player have had their turn, that player's cursor is back on 0 and the next player is on turn |
| Turns.RoundPrefix | js/scenes/Game.js:804-812 | after all slots of players 0..j-1 have played from the start, player j mod n is on turn with every cursor on 0 |
| Turns.TurnOrder | js/scenes/Game.js:11-22 | counted from the start of a match, slot i of player p is on turn at turn number (slots of earlier players) + i |
| Turns.FullRound | js/scenes/Game.js:11-22 | after one turn per slot the rotation is back at the start of the match |
| Turns.SceneRotation | js/scenes/Game.js:11-22 | with rosters [cat, dog] and [duck], the turns go cat, dog, duck, and then back to cat |
| Aim.Clamp | js/scenes/Game.js:477-485 | Phaser.Math.Clamp returns a value within the bounds, and leaves a value that is already within them unchanged |
| Aim.ClampNearest | js/scenes/Game.js:477-485 | the clamped value is at least as close to the input as every other value within the bounds |
| Aim.AdjustAim | js/scenes/Game.js:477-480 | the new angle lies in [0, 180], and is angle + amount whenever that is in range |
| Aim.AdjustPower | js/scenes/Game.js:482-485 | the new power lies in [10, 100], and is power + amount whenever that is in range |
| Aim.AimKey | js/scenes/Game.js:630-644 | left/right change only the angle (by -3/+3, clamped); up/down change only the power (by +5/-5, clamped) |
| Aim.AimKeysInRange | js/scenes/Game.js:630-644 | any sequence of arrow keys keeps angle and power within their limits |
| Aim.AimKeysSaturate | js/scenes/Game.js:630-644 | 60 presses of left from 45 stop at angle 0, and 20 presses of up from 50 stop at power 100 |
| Aim.FacingAngle | js/scenes/Game.js:401-403 | the starting angle is 45 or 135, and it is 45 exactly when the character stands left of the middle |
| Weapons.Catalog | js/scenes/Game.js:24-51 | three weapons, each with non-negative damage, a positive radius and speed, and positive ammunition |
| Weapons.TryFire | js/scenes/Game.js:487-495 | firing fails exactly when ammo <= 0; otherwise ammo drops by one, stays >= 0, and nothing else about the weapon changes |
| Weapons.VolleyShots | js/scenes/Game.js:487-495 | n fire attempts with one weapon shoot min(n, ammo) times and leave ammo - shots >= 0 rounds |
| Weapons.NextSelection | js/scenes/Game.js:465-466 | the next selection is in range: one more than the current one, or 0 after the last weapon |
| Weapons.CycleAhead | js/scenes/Game.js:465-466 | k switches from a selection with k weapons still after it land k places further on |
| Weapons.CycleVisitsAll | js/scenes/Game.js:465-466 | pressing switch count times returns to the start, and on the way every weapon is selected exactly once in cyclic order |
| Damage.Hurt | js/scenes/Game.js:541-544 | health after damage is never negative: it is health - amount when that is >= 0, and exactly 0 when the damage exceeds the health; it never rises for a non-negative amount |
| Damage.HurtTwice | js/scenes/Game.js:541-544 | two hits in a row are one hit of the summed damage |
| Damage.FalloffEnds | js/scenes/Game.js:559-573 | area damage is the full damage at the centre and 0 at the edge of the radius |
| Damage.FalloffMonotone | js/scenes/Game.js:559-573 | within the radius, area damage lies between 0 and the full damage, and never grows with distance |
| Damage.BlastBounds | js/scenes/Game.js:559-573 | a character beyond the radius is untouched; inside it, health never rises, never drops below 0, and drops by at most the weapon's damage |
| Damage.CloserHurtsMore | js/scenes/Game.js:559-573 | a character closer to the blast ends with no more health than one further away |
| Damage.ApplyAreaDamage | js/scenes/Game.js:559-573 | the health array becomes the element-wise area damage of its old contents |
| Damage.ApplyDamageToCharacter | js/scenes/Game.js:541-557 | a hit on a known character lowers only that entry, as Hurt does; an unknown character (index -1) changes nothing |
| Damage.BlastKeepsHealth | js/scenes/Game.js:559-573 | an area blast keeps every health in 0..100 and never raises one |
| Damage.DirectHit | js/scenes/Game.js:534-538 | a hit character at any distance d from the explosion (centred on the projectile) loses the fall-off damage at d and then the weapon's damage: at least the damage and at most twice it, clamped at 0; exactly twice when d = 0 |
| Damage.BazookaExamples | js/scenes/Game.js:24-33 | with the bazooka (40, radius 80) against 100 health: a hit with projectile and character touching (26 px apart) leaves 33, and one centred on the character would leave 20; the area damage alone leaves 60 at the centre, 80 at distance 40, and 100 at 80 and beyond |
| Ballistics.UniformSteps | js/scenes/Game.js:373-379 | consecutive preview points are equally spaced in x, and their y second difference is gravity times the time step squared |
| Ballistics.StartsAtLaunch | js/scenes/Game.js:373-375 | the first preview point is the launch point |
| Ballistics.FlatTrajectory | js/scenes/Game5.js:163-192 | the preview holds, in order, the samples of the parabola (at most `steps` of them) up to the first that leaves the field; it stops early only at such a sample |
| Terrain.DiscInBox | js/scenes/Game.js:137-140 | every cell the blast reaches lies inside the square the loops scan, so the scan misses no cell |
| GameScene.Game.constructor | js/scenes/Game.js:2-64 | the initial state: waiting, health [100, 100, 100], the weapon catalogue with Bazooka selected, power 50, player 0 slot 0 |
| GameScene.Game.StartTurn | js/scenes/Game.js:390-415 | the moving phase with a full clock, power 50, the angle facing the middle, and one live timer |
| GameScene.Game.NextTurn | js/scenes/Game.js:804-812 | the rotation becomes Advance of the old one, and the next turn has started |
| GameScene.Game.EndTurn | js/scenes/Game.js:796-802 | cancels the timer and moves to the next turn, still with exactly one timer live |
| GameScene.Game.UpdateTimer | js/scenes/Game.js:830-839 | in waiting/firing nothing changes; while moving/aiming the clock drops by one, or at zero the turn passes on |
| GameScene.Game.DelayedEndTurn | js/scenes/Game.js:502-504 | the end of turn scheduled by a shot passes the turn on |
| GameScene.Game.Spacebar | js/scenes/Game.js:608-614 | moving becomes aiming; aiming fires exactly when the selected weapon has ammunition; other phases ignore the key |
| GameScene.Game.FireWeapon | js/scenes/Game.js:487-505 | with ammunition left, only the selected weapon loses one round, the phase becomes firing and an end of turn is scheduled; without, nothing changes |
| GameScene.Game.SwitchWeapon | js/scenes/Game.js:465-475 | the selection advances cyclically |
| GameScene.Game.SwitchKey | js/scenes/Game.js:617-627 | Enter/W switch weapons while aiming and do nothing otherwise |
| GameScene.Game.AdjustAim | js/scenes/Game.js:477-480 | the angle becomes the clamped sum, and stays in [0, 180] |
| GameScene.Game.AdjustPower | js/scenes/Game.js:482-485 | the power becomes the clamped sum, and stays in [10, 100] |
| GameScene.Game.ArrowKey | js/scenes/Game.js:630-644 | while aiming an arrow key acts as AimKey; otherwise the aim is unchanged |
| GameScene.Game.PixelSolid | js/scenes/Game.js:156-168 | isSolid answers with the grid cell of the pixel containing the point, and false off the grid |
| GameScene.Game.DestroyColumn | js/scenes/Game.js:138-144 | one column: exactly its solid cells inside the blast are cleared, and the result says whether any was |
| GameScene.Game.DestroyTerrain | js/scenes/Game.js:132-153 | exactly the solid cells inside the blast disc are cleared; the result is true iff there was one; no point becomes solid |
| GameScene.Game.DestroyTwice | js/scenes/Game.js:132-153 | a second identical blast destroys nothing, so carving is idempotent |
| GameScene.Game.TrajectoryPoints | js/scenes/Game.js:371-386 | the preview points are the parabola's samples up to the first one blocked by solid terrain or the screen edges |
| GameScene.Game.CalculateTrajectory | js/scenes/Game.js:357-387 | the same, for a launch at power·6·projectileSpeed of the selected weapon |
| GameScene.Game.UpdateTrajectory | js/scenes/Game.js:430-462 | the drawn preview for the current aim has between 1 and 25 points, starts at the character, and follows the selected weapon's parabola, so its first and last points always exist |
| GameScene.Game.CreateExplosion | js/scenes/Game.js:285-309 | the blast disc is carved out of the terrain, and the health array receives the weapon's area damage |
| GameScene.Game.TerrainOverlap | js/scenes/Game.js:526-531 | the projectile explodes exactly when its point is solid; otherwise terrain and health are untouched |
| GameScene.Game.CharacterHit | js/scenes/Game.js:534-538 | the explosion, then the weapon's damage once more on the character hit |
| Game5Scene.Game.constructor | js/scenes/Game5.js:2-60 | the initial state, as in the terrain scene but without terrain |
| Game5Scene.Game.StartTurn | js/scenes/Game5.js:85-111 | the moving phase with a full clock, power 50, the angle facing the middle, and one live timer |
| Game5Scene.Game.NextTurn | js/scenes/Game5.js:497-505 | the rotation becomes Advance of the old one, and the next turn has started |
| Game5Scene.Game.EndTurn | js/scenes/Game5.js:489-495 | cancels the timer and moves to the next turn |
| Game5Scene.Game.UpdateTimer | js/scenes/Game5.js:531-540 | the clock drops by one while moving or aiming, and at zero the turn passes on |
| Game5Scene.Game.DelayedEndTurn | js/scenes/Game5.js:235-237 | the end of turn scheduled by a shot passes the turn on |
| Game5Scene.Game.Spacebar | js/scenes/Game5.js:358-364 | moving becomes aiming; aiming fires exactly when the selected weapon has ammunition |
| Game5Scene.Game.FireWeapon | js/scenes/Game5.js:218-238 | with ammunition left, only the selected weapon loses one round and the phase becomes firing; without, nothing changes |
| Game5Scene.Game.SwitchWeapon | js/scenes/Game5.js:195-206 | the selection advances cyclically |
| Game5Scene.Game.SwitchKey | js/scenes/Game5.js:366-377 | Enter/W switch weapons only while aiming |
| Game5Scene.Game.AdjustAim | js/scenes/Game5.js:208-211 | the angle becomes the clamped sum |
| Game5Scene.Game.AdjustPower | js/scenes/Game5.js:213-216 | the power becomes the clamped sum |
| Game5Scene.Game.ArrowKey | js/scenes/Game5.js:379-394 | while aiming an arrow key acts as AimKey; otherwise the aim is unchanged |
| Game5Scene.Game.CalculateTrajectory | js/scenes/Game5.js:163-192 | the preview is the parabola of a launch at power·6·projectileSpeed, cut at the first sample off the field |
| Game5Scene.Game.UpdateTrajectory | js/scenes/Game5.js:126-161 | the drawn preview has between 1 and 25 points, starts at the character, and follows the selected weapon's parabola |
| Game5Scene.Game.CreateExplosion | js/scenes/Game5.js:275-288 | the health array receives the weapon's area damage |
| Game5Scene.Game.GroundHit | js/scenes/Game5.js:260-263 | hitting the ground is one explosion |
| Game5Scene.Game.CharacterHit | js/scenes/Game5.js:266-270 | the explosion, then the weapon's damage once more on the character hit |
| Game4Scene.PreviewUnderstatesShot | animal-artillery/js/scenes/Game4.js:143 | the shot flies 1.5 times as fast as the preview assumes, so each fired sample lies 1.5 times as far out horizontally as the previewed one |
| Game4Scene.Game.constructor | animal-artillery/js/scenes/Game4.js:2-31 | the initial state: waiting, health [100, 100, 100], power 50 |
| Game4Scene.Game.StartTurn | animal-artillery/js/scenes/Game4.js:56-83 | the moving phase, a full clock and power 50; the direction is 1 exactly when the character is left of the middle, and the angle is 45 for direction 1, otherwise 135 |
| Game4Scene.Game.NextTurn | animal-artillery/js/scenes/Game4.js:378-386 | the rotation becomes Advance of the old one, and the next turn has started |
| Game4Scene.Game.EndTurn | animal-artillery/js/scenes/Game4.js:370-376 | cancels the timer and moves to the next turn |
| Game4Scene.Game.UpdateTimer | animal-artillery/js/scenes/Game4.js:412-421 | the clock drops by one while moving or aiming, and at zero the turn passes on |
| Game4Scene.Game.DelayedEndTurn | animal-artillery/js/scenes/Game4.js:188 | the end of turn scheduled by a shot passes the turn on |
| Game4Scene.Game.Spacebar | animal-artillery/js/scenes/Game4.js:307-313 | moving becomes aiming; aiming always fires |
| Game4Scene.Game.FireWeapon | animal-artillery/js/scenes/Game4.js:180-189 | every shot is fired: the phase becomes firing and an end of turn is scheduled |
| Game4Scene.Game.AdjustAim | animal-artillery/js/scenes/Game4.js:168-172 | the angle becomes the clamped sum |
| Game4Scene.Game.AdjustPower | animal-artillery/js/scenes/Game4.js:174-177 | the power becomes the clamped sum |
| Game4Scene.Game.ArrowKey | animal-artillery/js/scenes/Game4.js:316-331 | while aiming an arrow key acts as AimKey; otherwise the aim is unchanged |
| Game4Scene.Game.CalculateTrajectory | animal-artillery/js/scenes/Game4.js:134-165 | the preview is the parabola of a launch at power·4, cut at the first sample off the field |
| Game4Scene.Game.UpdateTrajectory | animal-artillery/js/scenes/Game4.js:99-132 | the drawn preview has between 1 and 25 points, starts at the character, and follows the power·4 parabola |
| Game4Scene.Game.CreateExplosion | animal-artillery/js/scenes/Game4.js:224-237 | the health array receives area damage with radius 60 and damage 30 |
| Game4Scene.Game.CharacterHit | animal-artillery/js/scenes/Game4.js:219-257 | the explosion, then 30 more damage on the character hit |
| Game3Scene.Game.constructor | animal-artillery/js/scenes/Game3.js:2-25 | the initial state: waiting, 30 s clock, health [100, 100, 100] |
| Game3Scene.Game.StartTurn | animal-artillery/js/scenes/Game3.js:53-71 | the moving phase with a full clock and one live timer |
| Game3Scene.Game.NextTurn | animal-artillery/js/scenes/Game3.js:84-95 | the rotation becomes Advance of the old one, and the next turn has started |
| Game3Scene.Game.EndTurn | animal-artillery/js/scenes/Game3.js:73-82 | cancels the timer and moves to the next turn |
| Game3Scene.Game.UpdateTimer | animal-artillery/js/scenes/Game3.js:115-125 | the clock drops by one only while moving; at zero the turn passes on and the next turn starts moving with a full clock and one live timer |
| Game3Scene.Game.Spacebar | animal-artillery/js/scenes/Game3.js:150-154 | while moving the space bar ends the turn and the next one starts moving with a full clock and one live timer; otherwise nothing changes |
| Game2Scene.Game.constructor | js/scenes/Game2.js:2-25 | the initial state: waiting, 30 s clock, player 0 slot 0 |
| Game2Scene.Game.StartTurn | js/scenes/Game2.js:61-84 | the moving phase with a full clock and one live timer |
| Game2Scene.Game.NextTurn | js/scenes/Game2.js:101-115 | the rotation becomes Advance of the old one, and the next turn has started |
| Game2Scene.Game.EndTurn | js/scenes/Game2.js:86-99 | cancels the timer and moves to the next turn |
| Game2Scene.Game.UpdateTimer | js/scenes/Game2.js:136-148 | while moving the clock drops by one; at zero the turn passes on and the next turn starts moving with a full clock and one live timer; while waiting nothing changes |
| Game2Scene.Game.Update | js/scenes/Game2.js:53-58 | every frame while moving also costs a second of the clock, and at zero starts the next turn, moving with a full clock and one live timer |
| Game2Scene.Game.Spacebar | js/scenes/Game2.js:176-180 | while moving the space bar ends the turn and the next one starts moving with a full clock and one live timer; while waiting nothing changes |

## Left out

- Rendering, tweens, particles, highlights, text and colours are not modelled. Neither are the weapon `color` and `description` fields. None of them affects the game state.
- Physics is not modelled: character movement (`moveActiveCharacter`), gravity on characters, bounce, world bounds, `handleTerrainCollision` and `applyExplosionForce`. Phaser's physics engine computes these, and they are not part of this model. The engine's positions enter only as inputs: the x positions `xs` and the explosion distances `distances`.
- `Math.cos`/`Math.sin` of the angle are inputs `cosAngle`/`sinAngle`. Floating-point arithmetic is modelled with exact reals.
- `createTerrain`, `drawTerrain` and `findSafePositions` are not modelled. The terrain grid is an arbitrary grid of width × 200 cells given to the constructor.
- GameScene.Game.CreateExplosion: takes an integer centre, and so do GameScene.Game.TerrainOverlap and GameScene.Game.CharacterHit, which call it. In the game the projectile's position is usually fractional. `destroyTerrain` then loops over fractional x (js/scenes/Game.js:137-141). Once `centerX - radius > 0`, the first cell inside the disc reads `this.terrainData[x]` at a fractional index, which is `undefined`, and indexing it throws a TypeError. The throw aborts `createExplosion` before `applyAreaDamage`, and the collider callback before `projectile.destroy()`, so no damage is dealt and the projectile lives on. The model does not capture that failure; it carves and damages as if the centre were a whole pixel.
- Damage.Falloff: requires a positive radius. Every weapon has one; with a radius of 0 the game would divide by zero and produce NaN.
- The projectile is not modelled as an object with a lifetime, and nothing prevents a collision after its turn has ended. The weapon whose shot explodes is passed explicitly to `CreateExplosion` and its callers.
- The per-frame `update` that calls updateTrajectory while aiming (js/scenes/Game.js:84-88) is not modelled, because it only redraws; updateTrajectory itself is modelled as `UpdateTrajectory`. Game2's per-frame `update` is modelled, because it changes the clock.
- `resize`, `create`, the UI builders, animal-artillery/js/scenes/Game1.js, js/main.js and js/scenes/Boot.js are not part of this model.
- None of the scenes ends the game when a character reaches 0 health, so no game-over logic is modelled.
- A timer callback that fires after its timer was removed cannot happen in the model. `turnTimers` counts live timers, and `Valid` keeps exactly one alive during play.
