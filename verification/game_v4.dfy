/** nao_showgame_v4: a list of levels, each with shuttling platforms and
    drifting enemies; crossing the right edge loads the next level or ends
    the game. */
module GameV4 {
  import opened Geometry
  import opened Reactions
  import opened Physics
  import opened Oscillators
  import opened Enemies
  import FallWatch
  import Stage

  const FallThreshold: int := 6
  /** Frames of one enemy animation cycle; each image shows for half. */
  const EnemyCycle: nat := 20
  /** Where the player appears when a new level is loaded. */
  const EntryX: int := 50
  const EntryY: int := Height - 100

  /** MovingPlatform: a rectangle shuttling horizontally over
      [startX, startX + rangeX] at `speed` per tick. */
  datatype Platform = Platform(rect: Rect, startX: int, rangeX: int, speed: int, dir: int)

  function NewPlatform(x: int, y: int, w: int, h: int, rangeX: int, speed: int): (p: Platform)
    ensures p.rect == Rect(x, y, w, h) && p.startX == x && p.dir == 1
  {
    Platform(Rect(x, y, w, h), x, rangeX, speed, 1)
  }

  /** A platform's shuttle state within its band. */
  predicate PlatformOk(p: Platform) {
    ShuttleInv(Swing(p.rect.x, p.dir), p.startX, p.rangeX, p.speed)
  }

  /** MovingPlatform.update: keeps its direction at +-1 and its x within
      [startX - speed, startX + rangeX + speed]; a speed-0 platform stays put. */
  function PlatformUpdate(p: Platform): (r: Platform)
    ensures r.rect == p.rect.(x := r.rect.x)
    ensures r.startX == p.startX && r.rangeX == p.rangeX && r.speed == p.speed
    ensures PlatformOk(p) ==> PlatformOk(r)
    ensures PlatformOk(p) ==> (r.dir == 1 || r.dir == -1) && p.startX - p.speed <= r.rect.x <= p.startX + p.rangeX + p.speed
    ensures p.speed == 0 ==> r.rect == p.rect
  {
    var s := Shuttle(Swing(p.rect.x, p.dir), p.startX, p.rangeX, p.speed);
    assert PlatformOk(p) ==> ShuttleInv(s, p.startX, p.rangeX, p.speed) by {
      if PlatformOk(p) {
        ShuttleInvStep(Swing(p.rect.x, p.dir), p.startX, p.rangeX, p.speed);
      }
    }
    p.(rect := p.rect.(x := s.pos), dir := s.dir)
  }

  datatype Level = Level(platforms: seq<Platform>, enemies: seq<Enemy>)

  /** The two built-in levels. */
  function Levels(enemySize: Size): (ls: seq<Level>)
    ensures |ls| == 2
    ensures forall l :: l in ls ==> forall p :: p in l.platforms ==> PlatformOk(p)
  {
    [ Level([ NewPlatform(0, Height - 40, Width, 40, 0, 0),
              NewPlatform(200, 450, 200, 20, 100, 2),
              NewPlatform(500, 350, 200, 20, 150, 3) ],
            [ NewEnemy(300, 310, enemySize) ]),
      Level([ NewPlatform(0, Height - 40, Width, 40, 0, 0),
              NewPlatform(150, 400, 150, 20, 100, 2),
              NewPlatform(400, 300, 200, 20, 200, 3),
              NewPlatform(650, 200, 100, 20, 50, 1) ],
            [ NewEnemy(200, 360, enemySize),
              NewEnemy(500, 260, enemySize) ]) ]
  }

  function Rects(ps: seq<Platform>): (rs: seq<Rect>)
    ensures |rs| == |ps| && forall i :: 0 <= i < |ps| ==> rs[i] == ps[i].rect
  {
    seq(|ps|, i requires 0 <= i < |ps| => ps[i].rect)
  }

  datatype World = World(player: Player, level: nat, platforms: seq<Platform>, enemies: seq<Enemy>, fallTimer: nat)

  /** The game in progress, or won after the last level. */
  datatype Progress = Playing(world: World) | Won

  function Begin(playerSize: Size, levels: seq<Level>): (w: World)
    requires |levels| > 0
    ensures w.level == 0 && w.platforms == levels[0].platforms && w.enemies == levels[0].enemies
    ensures w.player.rect == At(Stage.SpawnX, Stage.SpawnY, playerSize) && w.player.velY == 0
  {
    World(Spawn(Stage.SpawnX, Stage.SpawnY, playerSize), 0, levels[0].platforms, levels[0].enemies, 0)
  }

  /** Level completion: past the right edge, the level index advances; the next
      level is loaded with the player at its entry point and applause, or, if
      none is left, the game is won. */
  function Advance(w: World, levels: seq<Level>): (r: Step<Progress>)
    ensures w.player.rect.x <= Stage.FinishLine ==> r == Step(Playing(w), [])
    ensures w.player.rect.x > Stage.FinishLine && w.level + 1 < |levels| ==>
              r.state.Playing? && r.events == [Applause]
              && r.state.world.level == w.level + 1
              && r.state.world.platforms == levels[w.level + 1].platforms
              && r.state.world.enemies == levels[w.level + 1].enemies
              && r.state.world.player.rect.x == EntryX && r.state.world.player.rect.y == EntryY
              && r.state.world.player.velY == w.player.velY && r.state.world.fallTimer == w.fallTimer
    ensures w.player.rect.x > Stage.FinishLine && w.level + 1 >= |levels| ==>
              r == Step(Won, [Say(AllLevelsDone)])
  {
    if w.player.rect.x > Stage.FinishLine then
      var next := w.level + 1;
      if next < |levels| then
        var p := w.player.(rect := w.player.rect.(x := EntryX, y := EntryY));
        Step(Playing(w.(player := p, level := next, platforms := levels[next].platforms,
                        enemies := levels[next].enemies)), [Applause])
      else Step(Won, [Say(AllLevelsDone)])
    else Step(Playing(w), [])
  }

  /** Every platform takes its own step. */
  function PlatformsUpdate(ps: seq<Platform>): (rs: seq<Platform>)
    ensures |rs| == |ps| && forall i :: 0 <= i < |ps| ==> rs[i] == PlatformUpdate(ps[i])
    ensures (forall p :: p in ps ==> PlatformOk(p)) ==> forall p :: p in rs ==> PlatformOk(p)
  {
    seq(|ps|, i requires 0 <= i < |ps| => PlatformUpdate(ps[i]))
  }

  /** Player (against the platforms where they stand), enemies, platforms,
      then fall detection. */
  function Move(w: World, keys: Keys): (r: Step<World>)
    ensures r.state.player == Update(w.player, keys, Rects(w.platforms)).state
    ensures r.state.level == w.level
    ensures r.state.enemies == WalkAll(w.enemies, EnemyCycle)
    ensures r.state.platforms == PlatformsUpdate(w.platforms)
    ensures (forall p :: p in w.platforms ==> PlatformOk(p)) ==> forall p :: p in r.state.platforms ==> PlatformOk(p)
    ensures var falling := FallWatch.Falling(r.state.player.velY, r.state.player.onGround, FallThreshold);
      && (falling ==> r.state.fallTimer == w.fallTimer + 1)
      && (!falling ==> r.state.fallTimer == 0)
      && Count(r.events, Fall) == (if falling && r.state.fallTimer == FallWatch.Alarm then 1 else 0)
    ensures Count(r.events, Jump) == (if Jumps(w.player, keys) then 1 else 0)
    ensures Count(r.events, Applause) == 0
  {
    var u := FallWatch.UpdateWatched(w.player, keys, Rects(w.platforms), w.fallTimer, FallThreshold);
    Step(World(u.state.player, w.level, PlatformsUpdate(w.platforms), WalkAll(w.enemies, EnemyCycle), u.state.timer),
         u.events)
  }

  /** Level completion after the moves, with the moves' reactions first. */
  function Complete(m: Step<World>, levels: seq<Level>): (r: Step<Progress>)
    ensures m.state.player.rect.x <= Stage.FinishLine ==> r == Step(Playing(m.state), m.events)
    ensures m.state.player.rect.x > Stage.FinishLine && m.state.level + 1 < |levels| ==>
              r.state.Playing? && r.state.world.level == m.state.level + 1
              && Count(r.events, Applause) == Count(m.events, Applause) + 1
              && r.state.world.platforms == levels[m.state.level + 1].platforms
              && r.state.world.enemies == levels[m.state.level + 1].enemies
              && r.state.world.fallTimer == m.state.fallTimer
              && r.state.world.player.velY == m.state.player.velY
    ensures r.state.Won? <==> m.state.player.rect.x > Stage.FinishLine && m.state.level + 1 >= |levels|
    ensures Count(r.events, Fall) == Count(m.events, Fall)
    ensures ((forall p :: p in m.state.platforms ==> PlatformOk(p)) &&
             (forall l :: l in levels ==> forall p :: p in l.platforms ==> PlatformOk(p)) &&
             r.state.Playing?) ==> forall p :: p in r.state.world.platforms ==> PlatformOk(p)
  {
    var done := Advance(m.state, levels);
    CountAppend(m.events, done.events, Applause);
    CountAppend(m.events, done.events, Fall);
    assert m.events + [] == m.events;
    Step(done.state, m.events + done.events)
  }

  /** One pass of the game loop: move everything, then level completion. */
  function Tick(w: World, keys: Keys, levels: seq<Level>): (r: Step<Progress>)
    ensures var m := Move(w, keys);
      && (m.state.player.rect.x <= Stage.FinishLine ==> r == Step(Playing(m.state), m.events))
      && (m.state.player.rect.x > Stage.FinishLine && w.level + 1 < |levels| ==>
            r.state.Playing? && r.state.world.level == w.level + 1 && Count(r.events, Applause) == 1
            && r.state.world.platforms == levels[w.level + 1].platforms
            && r.state.world.enemies == levels[w.level + 1].enemies
            && r.state.world.fallTimer == m.state.fallTimer)
      && (r.state.Won? <==> m.state.player.rect.x > Stage.FinishLine && w.level + 1 >= |levels|)
      && Count(r.events, Fall) == Count(m.events, Fall)
    ensures r.state.Playing? ==> r.state.world.player.velY <= MaxFallSpeed
    ensures r.state.Playing? && r.state.world.level == w.level ==>
              |r.state.world.platforms| == |w.platforms| && |r.state.world.enemies| == |w.enemies|
    ensures ((forall p :: p in w.platforms ==> PlatformOk(p)) &&
             (forall l :: l in levels ==> forall p :: p in l.platforms ==> PlatformOk(p)) &&
             r.state.Playing?) ==> forall p :: p in r.state.world.platforms ==> PlatformOk(p)
  {
    TickKeeps(w, keys, levels);
    Complete(Move(w, keys), levels)
  }

  /** What a tick keeps: the speed bound, the collection sizes within a level,
      and the platforms' bands. */
  lemma TickKeeps(w: World, keys: Keys, levels: seq<Level>)
    ensures var r := Complete(Move(w, keys), levels);
      && (r.state.Playing? ==> r.state.world.player.velY <= MaxFallSpeed)
      && (r.state.Playing? && r.state.world.level == w.level ==>
            |r.state.world.platforms| == |w.platforms| && |r.state.world.enemies| == |w.enemies|)
      && (((forall p :: p in w.platforms ==> PlatformOk(p)) &&
           (forall l :: l in levels ==> forall p :: p in l.platforms ==> PlatformOk(p)) &&
           r.state.Playing?) ==> forall p :: p in r.state.world.platforms ==> PlatformOk(p))
  {
  }

  /** The game after a run of ticks; it stops at the win. */
  function Play(w: World, inputs: seq<Keys>, levels: seq<Level>): Progress
    decreases |inputs|
  {
    if |inputs| == 0 then Playing(w)
    else
      match Tick(w, inputs[0], levels).state
      case Won => Won
      case Playing(next) => Play(next, inputs[1..], levels)
  }

  /** While the game runs, across level changes, every platform keeps a unit
      direction and stays within one step of its band. */
  lemma {:induction false} PlatformsStayInBand(w: World, inputs: seq<Keys>, levels: seq<Level>)
    requires forall p :: p in w.platforms ==> PlatformOk(p)
    requires forall l :: l in levels ==> forall p :: p in l.platforms ==> PlatformOk(p)
    ensures Play(w, inputs, levels).Playing? ==>
              forall p :: p in Play(w, inputs, levels).world.platforms ==>
                (p.dir == 1 || p.dir == -1) && p.startX - p.speed <= p.rect.x <= p.startX + p.rangeX + p.speed
    decreases |inputs|
  {
    if |inputs| > 0 {
      match Tick(w, inputs[0], levels).state
      case Won =>
      case Playing(next) => PlatformsStayInBand(next, inputs[1..], levels);
    }
  }

  /** The player's vertical speed stays within [-14, 10] for the whole game,
      across level changes, when it starts at rest. */
  lemma {:induction false} VelocityBoundedAcrossLevels(w: World, inputs: seq<Keys>, levels: seq<Level>)
    requires JumpPower + Gravity <= w.player.velY <= MaxFallSpeed
    ensures Play(w, inputs, levels).Playing? ==>
              JumpPower + Gravity <= Play(w, inputs, levels).world.player.velY <= MaxFallSpeed
    decreases |inputs|
  {
    if |inputs| > 0 {
      match Tick(w, inputs[0], levels).state
      case Won =>
      case Playing(next) => VelocityBoundedAcrossLevels(next, inputs[1..], levels);
    }
  }
}
