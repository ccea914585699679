/** The weapon registry of the later scenes: a fixed list of weapons, each
    with its own ammunition counter, and the index of the selected one. */
module Weapons {
  import opened Wrappers
  import Turns

  /** One entry of gameState.weapons (colour and description are display-only). */
  datatype Weapon = Weapon(name: string, damage: int, explosionRadius: int, projectileSpeed: real, ammo: int)

  /** A weapon whose explosion can be resolved: it hurts rather than heals, its
      blast has a positive radius and its ammunition is not negative. */
  predicate Sound(w: Weapon) {
    w.damage >= 0 && w.explosionRadius > 0 && w.projectileSpeed > 0.0 && w.ammo >= 0
  }

  /** The registry a match starts with: Bazooka, Grenade and Sniper. */
  function Catalog(): (ws: seq<Weapon>)
    ensures |ws| == 3
    ensures forall i :: 0 <= i < |ws| ==> Sound(ws[i]) && ws[i].ammo > 0
  {
    [ Weapon("Bazooka", 40, 80, 1.0, 3),
      Weapon("Grenade", 30, 60, 0.8, 2),
      Weapon("Sniper", 60, 30, 2.0, 1) ]
  }

  /** Launch speed of a shot with this weapon: power * 6 * projectileSpeed. */
  function LaunchSpeed(power: int, w: Weapon): real {
    (power as real) * 6.0 * w.projectileSpeed
  }

  /** The ammunition gate of fireWeapon: an empty weapon refuses to fire; any
      other fires and comes back with exactly one round less and nothing else changed. */
  function TryFire(w: Weapon): (r: Option<Weapon>)
    ensures r.None? <==> w.ammo <= 0
    ensures r.Some? ==> r.value.ammo == w.ammo - 1 && r.value.ammo >= 0
    ensures r.Some? ==> r.value.(ammo := w.ammo) == w
  {
    if w.ammo <= 0 then None else Some(w.(ammo := w.ammo - 1))
  }

  /** n fire attempts in a row with the same weapon: the number of shots that
      left the barrel and the weapon afterwards. */
  function Volley(w: Weapon, n: nat): (r: (nat, Weapon))
    decreases n
  {
    if n == 0 then (0, w)
    else match TryFire(w)
      case None => Volley(w, n - 1)
      case Some(w') => var (k, last) := Volley(w', n - 1); (k + 1, last)
  }

  /** n attempts on a weapon with K rounds succeed min(n, K) times, take exactly
      that many rounds and never drive the ammunition below 0. */
  lemma {:induction false} VolleyShots(w: Weapon, n: nat)
    requires w.ammo >= 0
    ensures var (shots, after) := Volley(w, n);
      && shots == (if n <= w.ammo then n else w.ammo)
      && after == w.(ammo := w.ammo - shots)
      && after.ammo >= 0
    decreases n
  {
    if n > 0 {
      if w.ammo > 0 {
        VolleyShots(w.(ammo := w.ammo - 1), n - 1);
      } else {
        VolleyShots(w, n - 1);
      }
    }
  }

  /** switchWeapon: the index after selected, wrapping to 0 after the last weapon. */
  function NextSelection(selected: nat, count: nat): (next: nat)
    requires 0 < count
    ensures next < count
    ensures selected + 1 < count ==> next == selected + 1
    ensures selected + 1 == count ==> next == 0
  {
    if selected + 1 < count then
      Turns.ModBelow(selected + 1, count); (selected + 1) % count
    else if selected + 1 == count then
      Turns.ModSelf(count); (selected + 1) % count
    else
      (selected + 1) % count
  }

  /** The selection after k presses of the switch key. */
  function Cycle(selected: nat, count: nat, k: nat): (s: nat)
    requires selected < count
    ensures s < count
    decreases k
  {
    if k == 0 then selected else Cycle(NextSelection(selected, count), count, k - 1)
  }

  lemma {:induction false} CycleAdd(selected: nat, count: nat, a: nat, b: nat)
    requires selected < count
    ensures Cycle(selected, count, a + b) == Cycle(Cycle(selected, count, a), count, b)
    decreases a
  {
    if a > 0 {
      CycleAdd(NextSelection(selected, count), count, a - 1, b);
    }
  }

  /** Below the last weapon each press moves the selection on by exactly one. */
  lemma {:induction false} CycleAhead(selected: nat, count: nat, k: nat)
    requires selected + k < count
    ensures Cycle(selected, count, k) == selected + k
    decreases k
  {
    if k > 0 {
      CycleAhead(selected + 1, count, k - 1);
    }
  }

  /** Pressing the switch key once per weapon brings the selection back to
      where it was; on the way it runs up to the last weapon, wraps to 0 and
      climbs back, so every weapon is selected once. */
  lemma {:induction false} CycleVisitsAll(selected: nat, count: nat)
    requires selected < count
    ensures Cycle(selected, count, count) == selected
    ensures forall k :: 0 <= k < count - selected ==> Cycle(selected, count, k) == selected + k
    ensures forall k :: count - selected <= k < count ==> Cycle(selected, count, k) == k - (count - selected)
  {
    var toWrap := count - selected;
    CycleAhead(selected, count, toWrap - 1);
    CycleAdd(selected, count, toWrap - 1, 1);
    assert Cycle(selected, count, toWrap) == 0;
    forall k | 0 <= k < toWrap
      ensures Cycle(selected, count, k) == selected + k
    {
      CycleAhead(selected, count, k);
    }
    forall k | toWrap <= k <= count
      ensures Cycle(selected, count, k) == k - toWrap
    {
      CycleAdd(selected, count, toWrap, k - toWrap);
      CycleAhead(0, count, k - toWrap);
    }
  }
}
