/** js/scenes/Game2.js: turns of 30 seconds in which the active character can
    only move. The turn clock is driven both by a 1 s timer and by every
    frame's update, and the space bar ends the turn early. There is no
    health in this scene. */
module Game2Scene {
  import opened Turns

  /** gameState.turnTime: seconds per turn. */
  const TurnTime := 30
  /** The cat, the dog and the duck. */
  const Characters := 3

  class Game {
    const turnTime: int
    const rosters: seq<seq<nat>>

    var rotation: Rotation
    var phase: Phase
    var timeRemaining: int
    /** Number of live repeating 1 s turn timers. */
    var turnTimers: nat

    /** Everything that holds in every state, except how many timers are live.
        Nothing in this scene enters the aiming phase, though the timer and
        the space bar both test for it. */
    ghost predicate Coherent()
      reads this
    {
      && RostersOk(rosters, Characters)
      && Settled(rosters, rotation)
      && 1 <= timeRemaining <= turnTime
      && (phase == Waiting || phase == Moving)
    }

    /** No timer before the first turn and exactly one afterwards. */
    ghost predicate Valid()
      reads this
    {
      Coherent() && turnTimers == (if phase == Waiting then 0 else 1)
    }

    constructor ()
      ensures Valid() && phase == Waiting
      ensures rosters == SceneRosters && rotation == Start(rosters)
      ensures turnTime == TurnTime && timeRemaining == TurnTime
    {
      turnTime := TurnTime;
      rosters := SceneRosters;
      rotation := Start(SceneRosters);
      phase := Waiting;
      timeRemaining := TurnTime;
      turnTimers := 0;
    }

    /** startTurn: the moving phase with a full clock and a new timer. */
    method StartTurn()
      requires Coherent() && turnTimers == 0
      modifies this`phase, this`timeRemaining, this`turnTimers
      ensures Valid()
      ensures phase == Moving && timeRemaining == turnTime && turnTimers == 1
    {
      phase := Moving;
      timeRemaining := turnTime;
      turnTimers := turnTimers + 1;
    }

    /** nextTurn: the next slot of the current player, or the next player. */
    method NextTurn()
      requires Coherent() && turnTimers == 0
      modifies this`rotation, this`phase, this`timeRemaining, this`turnTimers
      ensures Valid()
      ensures phase == Moving && timeRemaining == turnTime
      ensures rotation == Advance(rosters, old(rotation))
    {
      var p := rotation.player;
      var next := rotation.cursors[p] + 1;
      if next >= |rosters[p]| {
        rotation := Rotation((p + 1) % |rosters|, rotation.cursors[p := 0]);
      } else {
        rotation := Rotation(p, rotation.cursors[p := next]);
      }
      StartTurn();
    }

    /** endTurn: cancel the turn timer, then nextTurn. */
    method EndTurn()
      requires Coherent() && turnTimers <= 1
      modifies this`rotation, this`phase, this`timeRemaining, this`turnTimers
      ensures Valid()
      ensures phase == Moving && timeRemaining == turnTime
      ensures rotation == Advance(rosters, old(rotation))
    {
      if turnTimers > 0 {
        turnTimers := turnTimers - 1;
      }
      NextTurn();
    }

    /** updateTimer: counts down while moving or aiming; at 0 the turn ends. */
    method UpdateTimer()
      requires Valid()
      modifies this`rotation, this`phase, this`timeRemaining, this`turnTimers
      ensures Valid()
      ensures old(phase) == Waiting ==> unchanged(this)
      ensures old(phase) == Moving && old(timeRemaining) > 1 ==>
        timeRemaining == old(timeRemaining) - 1 && phase == Moving && rotation == old(rotation)
      ensures old(phase) == Moving && old(timeRemaining) <= 1 ==>
        rotation == Advance(rosters, old(rotation)) && timeRemaining == turnTime
        && phase == Moving && turnTimers == 1
    {
      if phase == Moving || phase == Aiming {
        timeRemaining := timeRemaining - 1;
        if timeRemaining <= 0 {
          timeRemaining := 1;
          EndTurn();
        }
      }
    }

    /** update, once per frame: while moving or aiming it calls updateTimer
        too, so the clock loses a second on every frame as well as on every
        timer tick. */
    method Update()
      requires Valid()
      modifies this`rotation, this`phase, this`timeRemaining, this`turnTimers
      ensures Valid()
      ensures old(phase) == Waiting ==> unchanged(this)
      ensures old(phase) == Moving && old(timeRemaining) > 1 ==>
        timeRemaining == old(timeRemaining) - 1 && phase == Moving && rotation == old(rotation)
      ensures old(phase) == Moving && old(timeRemaining) <= 1 ==>
        rotation == Advance(rosters, old(rotation)) && timeRemaining == turnTime
        && phase == Moving && turnTimers == 1
    {
      if phase == Moving || phase == Aiming {
        UpdateTimer();
      }
    }

    /** The space bar: ends the turn while moving or aiming. */
    method Spacebar()
      requires Valid()
      modifies this`rotation, this`phase, this`timeRemaining, this`turnTimers
      ensures Valid()
      ensures old(phase) == Moving ==>
        rotation == Advance(rosters, old(rotation)) && timeRemaining == turnTime && phase == Moving && turnTimers == 1
      ensures old(phase) == Waiting ==> unchanged(this)
    {
      if phase == Moving || phase == Aiming {
        EndTurn();
      }
    }
  }
}
