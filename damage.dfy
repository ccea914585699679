/** Combat resolution shared by the scenes with health: linear area damage
    around an explosion and the direct hit of a character, with health never
    going below 0 (Math.max(0, health - damage)). */
module Damage {

  /** Math.max(0, health - amount). */
  function Hurt(health: int, amount: int): (h: int)
    ensures h >= 0
    ensures amount >= 0 ==> h <= health || health < 0
    ensures health - amount >= 0 ==> h == health - amount
    ensures health - amount < 0 ==> h == 0
  {
    if health - amount > 0 then health - amount else 0
  }

  /** Two hits in a row cost what one hit of the combined damage costs. */
  lemma HurtTwice(health: int, a: int, b: int)
    requires health >= 0 && a >= 0 && b >= 0
    ensures Hurt(Hurt(health, a), b) == Hurt(health, a + b)
  {
  }

  /** Math.floor(damage * (1 - distance / radius)): the damage dealt at a
      given distance from the centre of an explosion. */
  function Falloff(damage: int, radius: real, distance: real): (amount: int)
    requires radius > 0.0
  {
    ((damage as real) * (1.0 - distance / radius)).Floor
  }

  /** At the centre the full damage is dealt, on the rim none. */
  lemma FalloffEnds(damage: int, radius: real)
    requires radius > 0.0
    ensures Falloff(damage, radius, 0.0) == damage
    ensures Falloff(damage, radius, radius) == 0
  {
    assert 0.0 / radius == 0.0;
    assert radius / radius == 1.0;
  }

  lemma FloorMonotone(a: real, b: real)
    requires a <= b
    ensures a.Floor <= b.Floor
  {
  }

  /** Dividing by a positive radius keeps the order of distances. */
  lemma ShareMonotone(near: real, far: real, radius: real)
    requires radius > 0.0 && 0.0 <= near <= far <= radius
    ensures 0.0 <= near / radius <= far / radius <= 1.0
  {
    var a, b := near / radius, far / radius;
    assert a * radius == near;
    assert b * radius == far;
    assert (b - a) * radius == far - near;
    assert (1.0 - b) * radius == radius - far;
    SignOfFactor(a, radius);
    SignOfFactor(b - a, radius);
    SignOfFactor(1.0 - b, radius);
  }

  /** A product with a positive factor has the sign of the other factor. */
  lemma SignOfFactor(x: real, r: real)
    requires r > 0.0 && x * r >= 0.0
    ensures x >= 0.0
  {
  }

  /** Scaling by a non-negative damage keeps the order of factors. */
  lemma ScaleMonotone(d: real, x: real, y: real)
    requires d >= 0.0 && x <= y
    ensures d * x <= d * y
  {
    assert d * y - d * x == d * (y - x);
  }

  /** Within the blast the damage lies between 0 and the weapon's damage, and
      it never grows as the distance grows. */
  lemma {:induction false} FalloffMonotone(damage: int, radius: real, near: real, far: real)
    requires radius > 0.0 && damage >= 0
    requires 0.0 <= near <= far <= radius
    ensures 0 <= Falloff(damage, radius, far) <= Falloff(damage, radius, near) <= damage
  {
    var D := damage as real;
    ShareMonotone(near, far, radius);
    var fNear := 1.0 - near / radius;
    var fFar := 1.0 - far / radius;
    ScaleMonotone(D, 0.0, fFar);
    ScaleMonotone(D, fFar, fNear);
    ScaleMonotone(D, fNear, 1.0);
    FloorMonotone(0.0, D * fFar);
    FloorMonotone(D * fFar, D * fNear);
    FloorMonotone(D * fNear, D * 1.0);
  }

  /** One character's health after an explosion of the given radius and
      damage, at the given distance from its centre (distance <= radius is
      inside the blast, as in applyAreaDamage). */
  function AfterBlast(health: int, distance: real, radius: real, damage: int): (h: int)
    requires radius > 0.0
  {
    if distance <= radius then Hurt(health, Falloff(damage, radius, distance)) else health
  }

  /** What an explosion can do to one character: outside the radius nothing,
      inside at most the weapon's damage and never below 0. */
  lemma {:induction false} BlastBounds(health: int, distance: real, radius: real, damage: int)
    requires radius > 0.0 && damage >= 0 && health >= 0 && distance >= 0.0
    ensures distance > radius ==> AfterBlast(health, distance, radius, damage) == health
    ensures 0 <= AfterBlast(health, distance, radius, damage) <= health
    ensures health - damage <= AfterBlast(health, distance, radius, damage)
  {
    if distance <= radius {
      FalloffMonotone(damage, radius, distance, distance);
    }
  }

  /** Standing nearer to the explosion never leaves a character healthier. */
  lemma {:induction false} CloserHurtsMore(health: int, near: real, far: real, radius: real, damage: int)
    requires radius > 0.0 && damage >= 0 && health >= 0
    requires 0.0 <= near <= far
    ensures AfterBlast(health, near, radius, damage) <= AfterBlast(health, far, radius, damage)
  {
    if far <= radius {
      FalloffMonotone(damage, radius, near, far);
    } else if near <= radius {
      FalloffMonotone(damage, radius, near, near);
    }
  }

  /** Every character's health after applyAreaDamage, given each one's distance from the centre. */
  function AfterBlastAll(healths: seq<int>, distances: seq<real>, radius: real, damage: int): (hs: seq<int>)
    requires radius > 0.0
    requires |distances| == |healths|
    ensures |hs| == |healths|
  {
    seq(|healths|, i requires 0 <= i < |healths| => AfterBlast(healths[i], distances[i], radius, damage))
  }

  /** Health a character keeps between 0 and 100. */
  predicate HealthOk(healths: seq<int>) {
    forall i :: 0 <= i < |healths| ==> 0 <= healths[i] <= 100
  }

  /** applyAreaDamage: for each character in turn, if its distance is within
      the radius its health drops by the fallen-off damage, clamped at 0. */
  method ApplyAreaDamage(health: array<int>, distances: seq<real>, radius: real, damage: int)
    requires radius > 0.0
    requires |distances| == health.Length
    modifies health
    ensures health[..] == AfterBlastAll(old(health[..]), distances, radius, damage)
  {
    var index := 0;
    while index < health.Length
      invariant 0 <= index <= health.Length
      invariant forall i :: 0 <= i < index ==> health[i] == AfterBlast(old(health[i]), distances[i], radius, damage)
      invariant forall i :: index <= i < health.Length ==> health[i] == old(health[i])
    {
      if distances[index] <= radius {
        var actualDamage := Falloff(damage, radius, distances[index]);
        health[index] := Hurt(health[index], actualDamage);
      }
      index := index + 1;
    }
  }

  /** applyDamageToCharacter: the full damage to the character that was hit
      (getCharacterIndex answers -1 for anything that is not a character). */
  method ApplyDamageToCharacter(health: array<int>, index: int, damage: int)
    modifies health
    ensures 0 <= index < health.Length ==> health[..] == old(health[..])[index := Hurt(old(health[index]), damage)]
    ensures !(0 <= index < health.Length) ==> health[..] == old(health[..])
  {
    if 0 <= index < health.Length {
      health[index] := Hurt(health[index], damage);
    }
  }

  /** An explosion keeps every health within [0, 100] and raises none. */
  lemma {:induction false} BlastKeepsHealth(healths: seq<int>, distances: seq<real>, radius: real, damage: int)
    requires radius > 0.0 && damage >= 0
    requires |distances| == |healths|
    requires forall i :: 0 <= i < |distances| ==> distances[i] >= 0.0
    requires HealthOk(healths)
    ensures var after := AfterBlastAll(healths, distances, radius, damage);
      HealthOk(after) && forall i :: 0 <= i < |healths| ==> after[i] <= healths[i]
  {
    var after := AfterBlastAll(healths, distances, radius, damage);
    forall i | 0 <= i < |healths|
      ensures 0 <= after[i] <= healths[i]
    {
      BlastBounds(healths[i], distances[i], radius, damage);
    }
  }

  /** A character hit directly takes the explosion's area damage and then the
      weapon's damage again. The explosion is centred on the projectile, so the
      character's distance d from it is whatever the engine reports at contact
      (at least the two radii apart). Whatever d is, the hit costs at least the
      weapon's damage and at most twice that; at d = 0 it costs exactly twice. */
  lemma {:induction false} DirectHit(health: int, distance: real, radius: real, damage: int)
    requires radius > 0.0 && damage >= 0 && health >= 0 && distance >= 0.0
    ensures Hurt(health, 2 * damage) <= Hurt(AfterBlast(health, distance, radius, damage), damage) <= Hurt(health, damage)
    ensures distance == 0.0 ==> Hurt(AfterBlast(health, distance, radius, damage), damage) == Hurt(health, 2 * damage)
  {
    var after := AfterBlast(health, distance, radius, damage);
    BlastBounds(health, distance, radius, damage);
    HurtMonotone(after, health, damage);
    HurtMonotone(health - damage, after, damage);
    HurtTwice(health, damage, damage);
    if distance == 0.0 {
      FalloffEnds(damage, radius);
    }
  }

  /** More health before a hit never means less after it. */
  lemma HurtMonotone(a: int, b: int, amount: int)
    requires a <= b
    ensures Hurt(a, amount) <= Hurt(b, amount)
  {
  }

  /** The Bazooka (damage 40, radius 80) against full health. In the terrain
      scene a projectile (radius 6) touching a character (radius 20) explodes
      26 px from its centre: area damage 27, then 40, leaving 33. The area
      damage alone leaves 60 at the centre, 80 at half the radius, and all
      100 on the rim and beyond. An explosion centred on the character itself
      would leave 20 after the hit. */
  lemma BazookaExamples()
    ensures Hurt(AfterBlast(100, 26.0, 80.0, 40), 40) == 33
    ensures Hurt(AfterBlast(100, 0.0, 80.0, 40), 40) == 20
    ensures AfterBlast(100, 0.0, 80.0, 40) == 60
    ensures AfterBlast(100, 40.0, 80.0, 40) == 80
    ensures AfterBlast(100, 80.0, 80.0, 40) == 100
    ensures AfterBlast(100, 80.5, 80.0, 40) == 100
  {
    DirectHit(100, 0.0, 80.0, 40);
    assert Falloff(40, 80.0, 26.0) == 27 by {
      assert 1.0 - 26.0 / 80.0 == 0.675;
      assert (40 as real) * 0.675 == 27.0;
    }
    FalloffEnds(40, 80.0);
    assert Falloff(40, 80.0, 40.0) == 20 by {
      assert 40.0 / 80.0 == 0.5;
      assert (40 as real) * (1.0 - 0.5) == 20.0;
    }
  }
}
