/** superNAO: the first single-screen platformer. The game loop itself only
    talks to the robot when it is connected, and the falling warning uses a
    lower speed threshold. */
module SuperNao {
  import opened Geometry
  import opened Reactions
  import opened Physics
  import FallWatch
  import Stage

  const FallThreshold: int := 5

  datatype World = World(player: Player, fallingTimer: nat)

  function Begin(playerSize: Size): (w: World)
    ensures w.player.rect == At(Stage.SpawnX, Stage.SpawnY, playerSize) && w.player.velY == 0
    ensures w.fallingTimer == 0
  {
    World(Spawn(Stage.SpawnX, Stage.SpawnY, playerSize), 0)
  }

  /** One pass of the loop: the player update against the three fixed
      platforms, then the falling timer. Jump and landing reactions and the
      falling warning happen only when the robot is connected. */
  function Tick(w: World, keys: Keys, connected: bool): (r: Step<World>)
    ensures r.state.player == Update(w.player, keys, Stage.Course).state
    ensures !connected ==> r.events == []
    ensures connected ==> Count(r.events, Jump) == (if Jumps(w.player, keys) then 1 else 0)
    ensures connected ==> (Count(r.events, Land) > 0 <==> r.state.player.onGround)
    ensures FallWatch.Falling(r.state.player.velY, r.state.player.onGround, FallThreshold) ==>
              r.state.fallingTimer == w.fallingTimer + 1
    ensures !FallWatch.Falling(r.state.player.velY, r.state.player.onGround, FallThreshold) ==>
              r.state.fallingTimer == 0
    ensures Count(r.events, Say(FallingWarning)) ==
              (if connected && r.state.fallingTimer == FallWatch.Alarm
                  && FallWatch.Falling(r.state.player.velY, r.state.player.onGround, FallThreshold)
               then 1 else 0)
  {
    var u := Update(w.player, keys, Stage.Course);
    var p := u.state;
    var watch := FallWatch.Observe(w.fallingTimer, FallWatch.Falling(p.velY, p.onGround, FallThreshold));
    var warn := if watch.fires && connected then [Say(FallingWarning)] else [];
    assert Say(FallingWarning) !in u.events;
    CountAppend(u.events, warn, Say(FallingWarning));
    CountAppend(u.events, warn, Jump);
    CountAppend(u.events, warn, Land);
    Step(World(p, watch.timer), (if connected then u.events else []) + warn)
  }

  function Play(w: World, inputs: seq<Keys>, connected: bool): Step<World>
    decreases |inputs|
  {
    if |inputs| == 0 then Step(w, [])
    else
      var first := Tick(w, inputs[0], connected);
      var rest := Play(first.state, inputs[1..], connected);
      Step(rest.state, first.events + rest.events)
  }

  /** Without a robot connection the whole game is silent, and the player
      moves exactly as with one. */
  lemma {:induction false} DisconnectedIsSilent(w: World, inputs: seq<Keys>)
    ensures Play(w, inputs, false).events == []
    ensures Play(w, inputs, false).state == Play(w, inputs, true).state
    decreases |inputs|
  {
    if |inputs| > 0 {
      DisconnectedIsSilent(Tick(w, inputs[0], false).state, inputs[1..]);
    }
  }
}
