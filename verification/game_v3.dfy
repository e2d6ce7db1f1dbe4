/** nao_showgame_v3: one screen, the three fixed platforms, one enemy that
    bounces between the window edges, the start/stop menu, fall detection and
    a one-shot level-complete applause. */
module GameV3 {
  import opened Geometry
  import opened Reactions
  import opened Physics
  import opened Enemies
  import FallWatch
  import Stage

  /** Falling means dropping faster than this while airborne. */
  const FallThreshold: int := 6
  /** Frames of one enemy animation cycle; each image shows for half. */
  const EnemyCycle: nat := 10

  datatype World = World(player: Player, enemies: seq<Enemy>, fallTimer: nat, levelDone: bool)

  /** The game as it stands when the menu is left with START. */
  function Begin(playerSize: Size, enemySize: Size): (w: World)
    ensures w.player.rect == At(Stage.SpawnX, Stage.SpawnY, playerSize) && w.player.velY == 0
    ensures |w.enemies| == 1 && w.fallTimer == 0 && !w.levelDone
  {
    World(Spawn(Stage.SpawnX, Stage.SpawnY, playerSize), [NewEnemy(300, 410, enemySize)], 0, false)
  }

  /** One pass of the game loop: player, enemies, fall detection, level latch. */
  function Tick(w: World, keys: Keys): (r: Step<World>)
    ensures r.state.player.velY <= MaxFallSpeed
    ensures r.state.player == Update(w.player, keys, Stage.Course).state
    ensures r.state.enemies == BounceAll(w.enemies, EnemyCycle)
    ensures FallWatch.Falling(r.state.player.velY, r.state.player.onGround, FallThreshold) ==>
              r.state.fallTimer == w.fallTimer + 1
    ensures !FallWatch.Falling(r.state.player.velY, r.state.player.onGround, FallThreshold) ==>
              r.state.fallTimer == 0
    ensures Count(r.events, Fall) == (if r.state.fallTimer == FallWatch.Alarm
                                        && FallWatch.Falling(r.state.player.velY, r.state.player.onGround, FallThreshold)
                                      then 1 else 0)
    ensures r.state.levelDone <==> w.levelDone || r.state.player.rect.x > Stage.FinishLine
    ensures Count(r.events, Applause) == (if !w.levelDone && r.state.player.rect.x > Stage.FinishLine then 1 else 0)
    ensures Count(r.events, Jump) == (if Jumps(w.player, keys) then 1 else 0)
  {
    var u := FallWatch.UpdateWatched(w.player, keys, Stage.Course, w.fallTimer, FallThreshold);
    var latch := Stage.Latch(w.levelDone, u.state.player.rect.x);
    CountAppend(u.events, latch.events, Fall);
    CountAppend(u.events, latch.events, Applause);
    CountAppend(u.events, latch.events, Jump);
    Step(World(u.state.player, BounceAll(w.enemies, EnemyCycle), u.state.timer, latch.state), u.events + latch.events)
  }

  /** The world and all reactions after a run of ticks. */
  function Play(w: World, inputs: seq<Keys>): Step<World>
    decreases |inputs|
  {
    if |inputs| == 0 then Step(w, [])
    else
      var first := Tick(w, inputs[0]);
      var rest := Play(first.state, inputs[1..]);
      Step(rest.state, first.events + rest.events)
  }

  /** Because the level latch is never reset, the applause fires at most once
      in a whole game, and never once the level is done. */
  lemma {:induction false} ApplauseAtMostOnce(w: World, inputs: seq<Keys>)
    ensures Count(Play(w, inputs).events, Applause) <= (if w.levelDone then 0 else 1)
    ensures w.levelDone ==> Play(w, inputs).state.levelDone
    decreases |inputs|
  {
    if |inputs| > 0 {
      var first := Tick(w, inputs[0]);
      ApplauseAtMostOnce(first.state, inputs[1..]);
      CountAppend(first.events, Play(first.state, inputs[1..]).events, Applause);
    }
  }

  /** Every enemy keeps a unit direction, stays within one step of the window
      and keeps its animation counter in [0, 10) over a whole game. */
  lemma {:induction false} EnemiesStayOk(w: World, inputs: seq<Keys>)
    requires forall i :: 0 <= i < |w.enemies| ==> Bouncing(w.enemies[i], EnemyCycle)
    ensures forall i :: 0 <= i < |Play(w, inputs).state.enemies| ==> Bouncing(Play(w, inputs).state.enemies[i], EnemyCycle)
    decreases |inputs|
  {
    if |inputs| > 0 {
      var next := Tick(w, inputs[0]).state;
      forall i | 0 <= i < |next.enemies| ensures Bouncing(next.enemies[i], EnemyCycle) {
        BounceKeepsBouncing(w.enemies[i], EnemyCycle);
      }
      EnemiesStayOk(next, inputs[1..]);
    }
  }
}
