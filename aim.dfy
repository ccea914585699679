/** The aim controls of the artillery scenes: aimAngle and aimPower are
    changed only through Phaser.Math.Clamp, and startTurn points the active
    character at the middle of the screen. */
module Aim {

  const MinAngle := 0
  const MaxAngle := 180
  const MinPower := 10
  const MaxPower := 100
  /** aimPower at the start of every turn. */
  const StartPower := 50
  /** The arrow keys turn the aim by 3 degrees and change the power by 5. */
  const AngleStep := 3
  const PowerStep := 5

  /** The arrow keys of createCursorKeys. */
  datatype Arrow = Left | Right | Up | Down

  /** Phaser.Math.Clamp(v, lo, hi), that is Math.max(lo, Math.min(hi, v)). */
  function Clamp(v: int, lo: int, hi: int): (r: int)
    ensures lo <= hi ==> lo <= r <= hi
    ensures lo <= v <= hi ==> r == v
  {
    if v > hi then (if lo > hi then lo else hi) else if v < lo then lo else v
  }

  /** Clamping picks the value of [lo, hi] closest to v, and a second clamp changes nothing. */
  lemma ClampNearest(v: int, lo: int, hi: int, w: int)
    requires lo <= w <= hi
    ensures var r := Clamp(v, lo, hi);
      && (if r <= v then v - r else r - v) <= (if w <= v then v - w else w - v)
      && Clamp(r, lo, hi) == r
  {
  }

  /** adjustAim(amount): the new angle, always within [0, 180]. */
  function AdjustAim(angle: int, amount: int): (a: int)
    ensures MinAngle <= a <= MaxAngle
    ensures MinAngle <= angle + amount <= MaxAngle ==> a == angle + amount
  {
    Clamp(angle + amount, MinAngle, MaxAngle)
  }

  /** adjustPower(amount): the new power, always within [10, 100]. */
  function AdjustPower(power: int, amount: int): (p: int)
    ensures MinPower <= p <= MaxPower
    ensures MinPower <= power + amount <= MaxPower ==> p == power + amount
  {
    Clamp(power + amount, MinPower, MaxPower)
  }

  /** What an arrow key does to (aimAngle, aimPower) in the aiming phase:
      left and right turn by -3 / +3, up and down change the power by +5 / -5. */
  function AimKey(angle: int, power: int, key: Arrow): (aim: (int, int))
    ensures (key == Left || key == Right) ==> MinAngle <= aim.0 <= MaxAngle && aim.1 == power
    ensures (key == Up || key == Down) ==> aim.0 == angle && MinPower <= aim.1 <= MaxPower
    ensures key == Left ==> aim.0 == Clamp(angle - AngleStep, MinAngle, MaxAngle)
    ensures key == Right ==> aim.0 == Clamp(angle + AngleStep, MinAngle, MaxAngle)
    ensures key == Up ==> aim.1 == Clamp(power + PowerStep, MinPower, MaxPower)
    ensures key == Down ==> aim.1 == Clamp(power - PowerStep, MinPower, MaxPower)
  {
    match key
    case Left => (AdjustAim(angle, -AngleStep), power)
    case Right => (AdjustAim(angle, AngleStep), power)
    case Up => (angle, AdjustPower(power, PowerStep))
    case Down => (angle, AdjustPower(power, -PowerStep))
  }

  /** The aim after a whole sequence of arrow keys pressed while aiming. */
  function AimKeys(angle: int, power: int, keys: seq<Arrow>): (aim: (int, int))
    decreases |keys|
  {
    if keys == [] then (angle, power)
    else var next := AimKey(angle, power, keys[0]); AimKeys(next.0, next.1, keys[1..])
  }

  /** However many keys are pressed, an aim that starts in range stays in range. */
  lemma {:induction false} AimKeysInRange(angle: int, power: int, keys: seq<Arrow>)
    requires MinAngle <= angle <= MaxAngle && MinPower <= power <= MaxPower
    ensures var aim := AimKeys(angle, power, keys);
      MinAngle <= aim.0 <= MaxAngle && MinPower <= aim.1 <= MaxPower
    decreases |keys|
  {
    if keys != [] {
      var next := AimKey(angle, power, keys[0]);
      AimKeysInRange(next.0, next.1, keys[1..]);
    }
  }

  /** Sixty presses of the left key from 45 degrees stop at the lower bound 0,
      and twenty presses of up from 50 stop at the upper bound 100. */
  lemma AimKeysSaturate()
    ensures AimKeys(45, 50, seq(60, _ => Left)) == (0, 50)
    ensures AimKeys(45, 50, seq(20, _ => Up)) == (45, 100)
  {
    LeftKeysFloor(45, 50, 60);
    UpKeysCeiling(45, 50, 20);
  }

  lemma {:induction false} LeftKeysFloor(angle: int, power: int, n: nat)
    requires MinAngle <= angle <= MaxAngle && MinPower <= power <= MaxPower
    requires angle <= AngleStep * n
    ensures AimKeys(angle, power, seq(n, _ => Left)) == (0, power)
    decreases n
  {
    var keys := seq(n, _ => Left);
    if n == 0 {
    } else {
      assert keys[0] == Left && keys[1..] == seq(n - 1, _ => Left);
      var next := AimKey(angle, power, Left);
      if angle >= AngleStep {
        LeftKeysFloor(angle - AngleStep, power, n - 1);
      } else {
        assert next == (0, power);
        ZeroStays(power, n - 1);
      }
    }
  }

  lemma {:induction false} ZeroStays(power: int, n: nat)
    requires MinPower <= power <= MaxPower
    ensures AimKeys(0, power, seq(n, _ => Left)) == (0, power)
    decreases n
  {
    if n > 0 {
      var keys := seq(n, _ => Left);
      assert keys[0] == Left && keys[1..] == seq(n - 1, _ => Left);
      ZeroStays(power, n - 1);
    }
  }

  lemma {:induction false} UpKeysCeiling(angle: int, power: int, n: nat)
    requires MinAngle <= angle <= MaxAngle && MinPower <= power <= MaxPower
    requires MaxPower - power <= PowerStep * n
    ensures AimKeys(angle, power, seq(n, _ => Up)) == (angle, MaxPower)
    decreases n
  {
    var keys := seq(n, _ => Up);
    if n == 0 {
    } else {
      assert keys[0] == Up && keys[1..] == seq(n - 1, _ => Up);
      UpKeysCeiling(angle, AdjustPower(power, PowerStep), n - 1);
    }
  }

  /** startTurn's aimAngle: 45 (up and to the right) when the active character
      stands in the left half of the screen, otherwise 135. */
  function FacingAngle(x: real, width: real): (a: int)
    ensures a == 45 || a == 135
    ensures a == 45 <==> x < width / 2.0
  {
    if x < width / 2.0 then 45 else 135
  }
}
