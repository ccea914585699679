/** The turn machinery every scene shares: the phase of gameState and the
    round-robin rotation of gameState.currentPlayer together with each player's
    activeCharacter cursor over that player's character slots. */
module Turns {

  /** gameState.phase: 'waiting' before the first turn, then 'moving',
      'aiming' and 'firing'. */
  datatype Phase = Waiting | Moving | Aiming | Firing

  /** gameState.currentPlayer and players[p].activeCharacter for every p. */
  datatype Rotation = Rotation(player: nat, cursors: seq<nat>)

  /** players[p].characters for every p: there is a player, every player owns at
      least one slot, and every slot names one of the scene's `characters`. */
  predicate RostersOk(rosters: seq<seq<nat>>, characters: nat) {
    && Staffed(rosters)
    && (forall p, j :: 0 <= p < |rosters| && 0 <= j < |rosters[p]| ==> rosters[p][j] < characters)
  }

  /** There is a player and every player owns at least one slot. */
  predicate Staffed(rosters: seq<seq<nat>>) {
    |rosters| > 0 && forall p :: 0 <= p < |rosters| ==> |rosters[p]| > 0
  }

  /** The rosters every scene is built with: player 1 owns the cat (0) and
      the dog (1), player 2 the duck (2). */
  const SceneRosters: seq<seq<nat>> := [[0, 1], [2]]

  /** What nextTurn needs in order to index: a current player and one cursor per player. */
  predicate Shaped(rosters: seq<seq<nat>>, r: Rotation) {
    |r.cursors| == |rosters| && r.player < |rosters|
  }

  /** Every cursor points at a slot of its own player's roster. */
  predicate InRange(rosters: seq<seq<nat>>, r: Rotation) {
    Shaped(rosters, r) && forall p :: 0 <= p < |rosters| ==> r.cursors[p] < |rosters[p]|
  }

  /** Players who are not on turn rest on their first slot (true of every reachable state). */
  predicate Settled(rosters: seq<seq<nat>>, r: Rotation) {
    InRange(rosters, r) && forall p :: 0 <= p < |rosters| && p != r.player ==> r.cursors[p] == 0
  }

  /** The character whose turn it is: player.characters[player.activeCharacter]. */
  function Active(rosters: seq<seq<nat>>, r: Rotation): (c: nat)
    requires InRange(rosters, r)
    ensures c in rosters[r.player]
  {
    rosters[r.player][r.cursors[r.player]]
  }

  /** nextTurn: advance the current player's cursor; once it runs off the end of
      that player's roster, put it back on 0 and pass the turn to the next player. */
  function Advance(rosters: seq<seq<nat>>, r: Rotation): (next: Rotation)
    requires Shaped(rosters, r)
    ensures Shaped(rosters, next)
    ensures InRange(rosters, r) ==> InRange(rosters, next)
    ensures Settled(rosters, r) ==> Settled(rosters, next)
    ensures forall p :: 0 <= p < |rosters| && p != r.player ==> next.cursors[p] == r.cursors[p]
    ensures next.player == r.player || next.player == (r.player + 1) % |rosters|
  {
    var p := r.player;
    var c := r.cursors[p] + 1;
    if c >= |rosters[p]| then Rotation((p + 1) % |rosters|, r.cursors[p := 0])
    else Rotation(p, r.cursors[p := c])
  }

  /** A cursor sequence of n zeros. */
  function Zeros(n: nat): (z: seq<nat>)
    ensures |z| == n && forall i :: 0 <= i < n ==> z[i] == 0
  {
    seq(n, _ => 0)
  }

  /** The rotation a match starts from: player 0, every cursor on slot 0. */
  function Start(rosters: seq<seq<nat>>): (r: Rotation)
    requires |rosters| > 0
    ensures Shaped(rosters, r)
  {
    Rotation(0, Zeros(|rosters|))
  }

  /** The rotation after k consecutive nextTurn calls. */
  function Steps(rosters: seq<seq<nat>>, r: Rotation, k: nat): (last: Rotation)
    requires Shaped(rosters, r)
    ensures Shaped(rosters, last)
    ensures InRange(rosters, r) ==> InRange(rosters, last)
    decreases k
  {
    if k == 0 then r else Steps(rosters, Advance(rosters, r), k - 1)
  }

  /** Number of character slots over all players: the length of one round. */
  function Total(rosters: seq<seq<nat>>): nat {
    if |rosters| == 0 then 0 else Total(rosters[..|rosters| - 1]) + |rosters[|rosters| - 1]|
  }

  /** The player index arithmetic nextTurn relies on. */
  lemma ModBelow(a: int, n: int)
    requires 0 <= a < n
    ensures a % n == a
  {
  }

  lemma ModSelf(n: int)
    requires 0 < n
    ensures n % n == 0
  {
  }

  lemma {:induction false} StepsAdd(rosters: seq<seq<nat>>, r: Rotation, a: nat, b: nat)
    requires Shaped(rosters, r)
    ensures Steps(rosters, r, a + b) == Steps(rosters, Steps(rosters, r, a), b)
    decreases a
  {
    if a > 0 {
      StepsAdd(rosters, Advance(rosters, r), a - 1, b);
    }
  }

  /** While the current player has slots left, each nextTurn moves that
      player's cursor on by exactly one and keeps the turn with the player. */
  lemma {:induction false} StaysWithPlayer(rosters: seq<seq<nat>>, r: Rotation, i: nat)
    requires InRange(rosters, r)
    requires r.cursors[r.player] + i < |rosters[r.player]|
    ensures Steps(rosters, r, i) == Rotation(r.player, r.cursors[r.player := r.cursors[r.player] + i])
    decreases i
  {
    var p := r.player;
    if i == 0 {
      assert r.cursors[p := r.cursors[p]] == r.cursors;
    } else {
      var next := Advance(rosters, r);
      assert next == Rotation(p, r.cursors[p := r.cursors[p] + 1]);
      StaysWithPlayer(rosters, next, i - 1);
      assert next.cursors[p := next.cursors[p] + (i - 1)] == r.cursors[p := r.cursors[p] + i];
    }
  }

  /** From cursor c the player keeps the turn for |roster| - c turns; then the
      cursor is back on 0 and the next player (cyclically) is on turn. */
  lemma {:induction false} HandsOver(rosters: seq<seq<nat>>, r: Rotation)
    requires InRange(rosters, r)
    ensures Steps(rosters, r, |rosters[r.player]| - r.cursors[r.player])
         == Rotation((r.player + 1) % |rosters|, r.cursors[r.player := 0])
  {
    var p := r.player;
    var k := |rosters[p]| - r.cursors[p];
    StaysWithPlayer(rosters, r, k - 1);
    StepsAdd(rosters, r, k - 1, 1);
    var last := Rotation(p, r.cursors[p := |rosters[p]| - 1]);
    assert Steps(rosters, r, k - 1) == last;
    assert Steps(rosters, last, 1) == Steps(rosters, Advance(rosters, last), 0);
    assert last.cursors[p := 0] == r.cursors[p := 0];
  }

  /** After the turns of players 0 .. j-1 have all been played from the start,
      player j (cyclically) is on turn and every cursor is back on 0. */
  lemma {:induction false} RoundPrefix(rosters: seq<seq<nat>>, j: nat)
    requires Staffed(rosters)
    requires j <= |rosters|
    ensures Steps(rosters, Start(rosters), Total(rosters[..j])) == Rotation(j % |rosters|, Zeros(|rosters|))
  {
    var n := |rosters|;
    if j == 0 {
      assert rosters[..0] == [];
      ModBelow(0, n);
      assert Total(rosters[..0]) == 0;
      assert Steps(rosters, Start(rosters), 0) == Start(rosters);
    } else {
      RoundPrefix(rosters, j - 1);
      var before := Total(rosters[..j - 1]);
      var len := |rosters[j - 1]|;
      var at := Rotation(j - 1, Zeros(n));
      ModBelow(j - 1, n);
      assert Steps(rosters, Start(rosters), before) == at;
      assert rosters[..j][..j - 1] == rosters[..j - 1];
      assert Total(rosters[..j]) == before + len;
      StepsAdd(rosters, Start(rosters), before, len);
      assert InRange(rosters, at);
      HandsOver(rosters, at);
      assert Steps(rosters, at, len) == Rotation(j % n, Zeros(n)[j - 1 := 0]);
      assert Zeros(n)[j - 1 := 0] == Zeros(n);
      assert Steps(rosters, Start(rosters), Total(rosters[..j])) == Steps(rosters, at, len);
    }
  }

  /** Round-robin order: counted from the start of a match, slot i of player p
      is on turn exactly at turn number (slots of players before p) + i. */
  lemma {:induction false} TurnOrder(rosters: seq<seq<nat>>, p: nat, i: nat)
    requires Staffed(rosters)
    requires p < |rosters| && i < |rosters[p]|
    ensures Steps(rosters, Start(rosters), Total(rosters[..p]) + i)
         == Rotation(p, Zeros(|rosters|)[p := i])
  {
    var n := |rosters|;
    RoundPrefix(rosters, p);
    ModBelow(p, n);
    StepsAdd(rosters, Start(rosters), Total(rosters[..p]), i);
    StaysWithPlayer(rosters, Rotation(p, Zeros(n)), i);
  }

  /** After one full round (one turn per slot) the rotation is back where the match started. */
  lemma {:induction false} FullRound(rosters: seq<seq<nat>>)
    requires Staffed(rosters)
    ensures Steps(rosters, Start(rosters), Total(rosters)) == Start(rosters)
  {
    RoundPrefix(rosters, |rosters|);
    assert rosters[..|rosters|] == rosters;
  }

  /** The scenes' rosters, players [0, 1] and [2] (cat and dog against duck):
      the slots are visited P0/0, P0/1, P1/0 and then P0/0 again. */
  lemma SceneRotation()
    ensures var rosters := [[0, 1], [2]];
      && Steps(rosters, Start(rosters), 1) == Rotation(0, [1, 0])
      && Steps(rosters, Start(rosters), 2) == Rotation(1, [0, 0])
      && Steps(rosters, Start(rosters), 3) == Rotation(0, [0, 0])
      && Active(rosters, Start(rosters)) == 0
      && Active(rosters, Steps(rosters, Start(rosters), 1)) == 1
      && Active(rosters, Steps(rosters, Start(rosters), 2)) == 2
  {
    var rosters: seq<seq<nat>> := [[0, 1], [2]];
    TurnOrder(rosters, 0, 1);
    TurnOrder(rosters, 1, 0);
    FullRound(rosters);
    assert rosters[..0] == [] && rosters[..1] == [[0, 1]];
    assert Total(rosters) == 3;
  }
}
