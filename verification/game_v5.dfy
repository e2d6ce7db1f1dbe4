/** nao_showgame_v5: a side-scroller over generated levels. Each level is ten
    platforms 250 apart at random heights, some shuttling, with random enemies;
    the view follows the player; the game waits in a menu until S is pressed. */
module GameV5 {
  import opened Geometry
  import opened Reactions
  import opened Physics
  import opened Oscillators
  import opened Enemies
  import FallWatch

  const FallThreshold: int := 6
  const EnemyCycle: nat := 20
  /** The view scrolls so that the player is never right of the window's middle. */
  const ScrollMargin: int := Width / 2
  const LevelLength: int := 2500
  const Spacing: int := 250
  const PlatformsPerLevel: nat := 10
  const PlatformSpeed: int := 2
  const StartX: int := 100
  const StartY: int := 400

  /** Platform: fixed, or shuttling over [startX, startX + rangeX] at speed 2. */
  datatype Platform = Platform(rect: Rect, movable: bool, startX: int, rangeX: int, dir: int)

  predicate PlatformOk(p: Platform) {
    p.movable ==> ShuttleInv(Swing(p.rect.x, p.dir), p.startX, p.rangeX, PlatformSpeed)
  }

  /** Platform.update: a fixed platform never changes; a movable one keeps a
      unit direction and its x within [startX - 2, startX + rangeX + 2]. */
  function PlatformUpdate(p: Platform): (r: Platform)
    ensures !p.movable ==> r == p
    ensures r.movable == p.movable && r.startX == p.startX && r.rangeX == p.rangeX
    ensures r.rect == p.rect.(x := r.rect.x)
    ensures PlatformOk(p) ==> PlatformOk(r)
    ensures PlatformOk(p) && p.movable ==>
              (r.dir == 1 || r.dir == -1) && p.startX - 2 <= r.rect.x <= p.startX + p.rangeX + 2
  {
    if p.movable then
      var s := Shuttle(Swing(p.rect.x, p.dir), p.startX, p.rangeX, PlatformSpeed);
      assert PlatformOk(p) ==> ShuttleInv(s, p.startX, p.rangeX, PlatformSpeed) by {
        if PlatformOk(p) {
          ShuttleInvStep(Swing(p.rect.x, p.dir), p.startX, p.rangeX, PlatformSpeed);
        }
      }
      p.(rect := p.rect.(x := s.pos), dir := s.dir)
    else p
  }

  /** The random choices made for one platform of a generated level: its
      height, its block image, whether it moves, its travel, and whether an
      enemy stands on it. */
  datatype Draw = Draw(y: int, block: Size, movable: bool, rangeX: int, enemy: bool)

  /** What the random draws guarantee: height in [300, 500], travel in
      [100, 300] for a movable platform. */
  predicate ValidDraw(d: Draw) {
    300 <= d.y <= 500 && (d.movable ==> 100 <= d.rangeX <= 300)
  }

  function NewPlatform(x: int, d: Draw): Platform
  {
    Platform(At(x, d.y, d.block), d.movable, x, if d.movable then d.rangeX else 0, 1)
  }

  /** The enemy standing on the platform of draw `i` of a level starting at
      `startX`: 50 right of the platform's left edge and 40 above its top. */
  function EnemyFor(startX: int, draws: seq<Draw>, i: nat, size: Size): Enemy
    requires i < |draws|
  {
    NewEnemy(startX + Spacing * i + 50, draws[i].y - 40, size)
  }

  /** The enemies of a level: one for each draw that asks for one, in order. */
  function Spawns(startX: int, draws: seq<Draw>, size: Size): (es: seq<Enemy>)
    decreases |draws|
    ensures |es| <= |draws|
  {
    if |draws| == 0 then []
    else (if draws[0].enemy then [EnemyFor(startX, draws, 0, size)] else []) + Spawns(startX + Spacing, draws[1..], size)
  }

  lemma EnemyForShift(startX: int, draws: seq<Draw>, j: nat, size: Size)
    requires j + 1 < |draws|
    ensures EnemyFor(startX + Spacing, draws[1..], j, size) == EnemyFor(startX, draws, j + 1, size)
  {
    assert draws[1..][j] == draws[j + 1];
  }

  /** Every spawned enemy stands on a platform whose draw asked for one. */
  lemma {:induction false} SpawnsSound(startX: int, draws: seq<Draw>, size: Size)
    ensures forall e :: e in Spawns(startX, draws, size) ==>
              exists i :: 0 <= i < |draws| && draws[i].enemy && e == EnemyFor(startX, draws, i, size)
    decreases |draws|
  {
    if |draws| > 0 {
      SpawnsSound(startX + Spacing, draws[1..], size);
      forall e | e in Spawns(startX, draws, size)
        ensures exists i :: 0 <= i < |draws| && draws[i].enemy && e == EnemyFor(startX, draws, i, size)
      {
        if e !in Spawns(startX + Spacing, draws[1..], size) {
          assert draws[0].enemy && e == EnemyFor(startX, draws, 0, size);
        } else {
          var j :| 0 <= j < |draws[1..]| && draws[1..][j].enemy && e == EnemyFor(startX + Spacing, draws[1..], j, size);
          EnemyForShift(startX, draws, j, size);
        }
      }
    }
  }

  /** Every draw that asks for an enemy gets one. */
  lemma {:induction false} SpawnsComplete(startX: int, draws: seq<Draw>, size: Size)
    ensures forall i :: 0 <= i < |draws| && draws[i].enemy ==> EnemyFor(startX, draws, i, size) in Spawns(startX, draws, size)
    decreases |draws|
  {
    if |draws| > 0 {
      SpawnsComplete(startX + Spacing, draws[1..], size);
      forall i | 1 <= i < |draws| && draws[i].enemy
        ensures EnemyFor(startX, draws, i, size) in Spawns(startX, draws, size)
      {
        EnemyForShift(startX, draws, i - 1, size);
      }
    }
  }

  datatype Level = Level(platforms: seq<Platform>, enemies: seq<Enemy>)

  /** create_level: ten platforms 250 apart from `startX`, with the enemies the
      draws ask for. */
  function CreateLevel(startX: int, draws: seq<Draw>, enemySize: Size): (l: Level)
    requires |draws| == PlatformsPerLevel && forall i :: 0 <= i < |draws| ==> ValidDraw(draws[i])
    ensures |l.platforms| == PlatformsPerLevel
    ensures forall i :: 0 <= i < PlatformsPerLevel ==>
              && l.platforms[i].rect.x == startX + Spacing * i
              && 300 <= l.platforms[i].rect.y <= 500
              && (l.platforms[i].movable ==> 100 <= l.platforms[i].rangeX <= 300)
              && (!l.platforms[i].movable ==> l.platforms[i].rangeX == 0)
              && l.platforms[i].startX == l.platforms[i].rect.x && l.platforms[i].dir == 1
    ensures forall p :: p in l.platforms ==> PlatformOk(p)
    ensures |l.enemies| <= PlatformsPerLevel
    ensures forall e :: e in l.enemies ==>
              (exists i :: 0 <= i < PlatformsPerLevel && draws[i].enemy && StandsOn(e, l.platforms[i]))
    ensures forall i :: 0 <= i < PlatformsPerLevel && draws[i].enemy ==>
              (exists e :: e in l.enemies && StandsOn(e, l.platforms[i]))
  {
    var plats := seq(PlatformsPerLevel, i requires 0 <= i < PlatformsPerLevel => NewPlatform(startX + Spacing * i, draws[i]));
    var es := Spawns(startX, draws, enemySize);
    assert forall i :: 0 <= i < PlatformsPerLevel ==> plats[i] == NewPlatform(startX + Spacing * i, draws[i]) && ValidDraw(draws[i]);
    SpawnsSound(startX, draws, enemySize);
    SpawnsComplete(startX, draws, enemySize);
    assert forall i :: 0 <= i < PlatformsPerLevel ==> StandsOn(EnemyFor(startX, draws, i, enemySize), plats[i]);
    Level(plats, es)
  }

  /** An enemy stands on a platform: 50 right of its left edge, 40 above its top. */
  predicate StandsOn(e: Enemy, p: Platform) {
    e.rect.x == p.rect.x + 50 && e.rect.y == p.rect.y - 40
  }

  datatype World = World(player: Player, platforms: seq<Platform>, enemies: seq<Enemy>, scroll: int,
                         menu: bool, levelEnd: int, levelDone: bool, fallTimer: nat)

  /** The program at start: the first level generated from 0, the player at
      (100, 400), the menu showing. */
  function Begin(playerSize: Size, draws: seq<Draw>, enemySize: Size): (w: World)
    requires |draws| == PlatformsPerLevel && forall i :: 0 <= i < |draws| ==> ValidDraw(draws[i])
    ensures w.menu && w.scroll == 0 && w.levelEnd == LevelLength && !w.levelDone && w.fallTimer == 0
    ensures w.platforms == CreateLevel(0, draws, enemySize).platforms
    ensures w.enemies == CreateLevel(0, draws, enemySize).enemies
    ensures w.player == Spawn(StartX, StartY, playerSize)
    ensures InView(w) && w.player.rect.x <= w.levelEnd
    ensures forall p :: p in w.platforms ==> PlatformOk(p)
  {
    var l := CreateLevel(0, draws, enemySize);
    World(Spawn(StartX, StartY, playerSize), l.platforms, l.enemies, 0, true, LevelLength, false, 0)
  }

  /** Side-scrolling: the view moves right just enough to keep the player at
      most ScrollMargin right of its left edge, and never moves left. */
  function Scroll(scroll: int, x: int): (r: int)
    ensures r >= scroll
    ensures x - r <= ScrollMargin
    ensures r == scroll || x - r == ScrollMargin
  {
    if x - scroll > ScrollMargin then x - ScrollMargin else scroll
  }

  /** Key presses read by the event loop. */
  datatype Key = KeyS | KeyQ | KeyP | KeyF | OtherKey

  datatype Control = Control(menu: bool, quit: bool)

  /** One key press: in the menu only S (start) and Q (quit) do anything; once
      playing, P applauds and F plays the fall reaction. */
  function Press(menu: bool, k: Key): (r: Step<Control>)
    ensures menu ==> (r.events == [Say(GameBegins)] <==> k == KeyS)
    ensures menu ==> (r.events == [] <==> k != KeyS)
    ensures menu ==> (r.state.quit <==> k == KeyQ)
    ensures menu ==> (r.state.menu <==> k != KeyS)
    ensures !menu ==> r.state == Control(false, false)
    ensures !menu ==> r.events == (if k == KeyP then [Applause] else if k == KeyF then [Fall] else [])
  {
    if menu then
      if k == KeyS then Step(Control(false, false), [Say(GameBegins)])
      else if k == KeyQ then Step(Control(true, true), [])
      else Step(Control(true, false), [])
    else
      if k == KeyP then Step(Control(false, false), [Applause])
      else if k == KeyF then Step(Control(false, false), [Fall])
      else Step(Control(false, false), [])
  }

  /** The keys of one tick in order; Q ends the program at once. */
  function Presses(menu: bool, keys: seq<Key>): Step<Control>
    decreases |keys|
  {
    if |keys| == 0 then Step(Control(menu, false), [])
    else
      var first := Press(menu, keys[0]);
      if first.state.quit then first
      else
        var rest := Presses(first.state.menu, keys[1..]);
        Step(rest.state, first.events + rest.events)
  }

  /** While the menu is showing, P and F do nothing: keys without S leave the
      menu up and fire no reaction at all. */
  lemma {:induction false} MenuIgnoresGameKeys(keys: seq<Key>)
    requires KeyS !in keys
    ensures Presses(true, keys).state.menu
    ensures Presses(true, keys).events == []
    ensures Presses(true, keys).state.quit <==> KeyQ in keys
    decreases |keys|
  {
    if |keys| > 0 {
      assert KeyS !in keys[1..];
      MenuIgnoresGameKeys(keys[1..]);
      assert KeyQ in keys <==> keys[0] == KeyQ || KeyQ in keys[1..];
    }
  }

  /** Once playing, a key press never brings the menu back or quits. */
  lemma {:induction false} PlayingStaysPlaying(keys: seq<Key>)
    ensures Presses(false, keys).state == Control(false, false)
    ensures Count(Presses(false, keys).events, Applause) == CountKey(keys, KeyP)
    ensures Count(Presses(false, keys).events, Fall) == CountKey(keys, KeyF)
    ensures forall e :: e in Presses(false, keys).events ==> e == Applause || e == Fall
    decreases |keys|
  {
    if |keys| > 0 {
      PlayingStaysPlaying(keys[1..]);
      CountAppend(Press(false, keys[0]).events, Presses(false, keys[1..]).events, Applause);
      CountAppend(Press(false, keys[0]).events, Presses(false, keys[1..]).events, Fall);
    }
  }

  function CountKey(keys: seq<Key>, k: Key): nat
  {
    if |keys| == 0 then 0 else (if keys[0] == k then 1 else 0) + CountKey(keys[1..], k)
  }

  function Rects(ps: seq<Platform>): (rs: seq<Rect>)
    ensures |rs| == |ps| && forall i :: 0 <= i < |ps| ==> rs[i] == ps[i].rect
  {
    seq(|ps|, i requires 0 <= i < |ps| => ps[i].rect)
  }

  /** Every platform takes its own step. */
  function PlatformsUpdate(ps: seq<Platform>): (rs: seq<Platform>)
    ensures |rs| == |ps| && forall i :: 0 <= i < |ps| ==> rs[i] == PlatformUpdate(ps[i])
    ensures (forall p :: p in ps ==> PlatformOk(p)) ==> forall p :: p in rs ==> PlatformOk(p)
  {
    seq(|ps|, i requires 0 <= i < |ps| => PlatformUpdate(ps[i]))
  }

  /** Player, platforms and enemies move, then fall detection. */
  function Move(w: World, keys: Keys): (r: Step<World>)
    ensures r.state.player == Update(w.player, keys, Rects(w.platforms)).state
    ensures r.state.platforms == PlatformsUpdate(w.platforms)
    ensures r.state.enemies == BounceAll(w.enemies, EnemyCycle)
    ensures r.state.scroll == w.scroll && r.state.levelEnd == w.levelEnd && r.state.levelDone == w.levelDone
    ensures r.state.menu == w.menu
    ensures (forall p :: p in w.platforms ==> PlatformOk(p)) ==> forall p :: p in r.state.platforms ==> PlatformOk(p)
    ensures var falling := FallWatch.Falling(r.state.player.velY, r.state.player.onGround, FallThreshold);
      && (falling ==> r.state.fallTimer == w.fallTimer + 1)
      && (!falling ==> r.state.fallTimer == 0)
      && Count(r.events, Fall) == (if falling && r.state.fallTimer == FallWatch.Alarm then 1 else 0)
    ensures Count(r.events, Jump) == (if Jumps(w.player, keys) then 1 else 0)
    ensures Count(r.events, Applause) == 0
    ensures forall e :: e in r.events ==> e == Jump || e == Land || e == Fall
  {
    var u := FallWatch.UpdateWatched(w.player, keys, Rects(w.platforms), w.fallTimer, FallThreshold);
    Step(World(u.state.player, PlatformsUpdate(w.platforms), BounceAll(w.enemies, EnemyCycle), w.scroll,
               w.menu, w.levelEnd, w.levelDone, u.state.timer),
         u.events)
  }

  /** The level extension: applaud, append the next generated level after the
      current end, move the end 2500 further, and reopen the latch. */
  function Extend(w: World, draws: seq<Draw>, enemySize: Size): (r: Step<World>)
    requires |draws| == PlatformsPerLevel && forall i :: 0 <= i < |draws| ==> ValidDraw(draws[i])
    ensures |r.state.platforms| == |w.platforms| + PlatformsPerLevel
    ensures r.state.platforms[..|w.platforms|] == w.platforms
    ensures |r.state.enemies| >= |w.enemies| && r.state.enemies[..|w.enemies|] == w.enemies
    ensures forall i :: |w.platforms| <= i < |r.state.platforms| ==>
              r.state.platforms[i].rect.x == w.levelEnd + Spacing * (i - |w.platforms|)
    ensures r.state.levelEnd == w.levelEnd + LevelLength && !r.state.levelDone
    ensures r.state.player == w.player && r.state.scroll == w.scroll
    ensures (forall p :: p in w.platforms ==> PlatformOk(p)) ==> forall p :: p in r.state.platforms ==> PlatformOk(p)
    ensures r.events == [Applause]
  {
    var l := CreateLevel(w.levelEnd, draws, enemySize);
    Step(w.(platforms := w.platforms + l.platforms, enemies := w.enemies + l.enemies,
            levelEnd := w.levelEnd + LevelLength, levelDone := false), [Applause])
  }

  /** The level-end test as written: the player's position in the window
      (level x minus scroll) against the level end in level coordinates. */
  predicate PastEndAsWritten(w: World) {
    w.player.rect.x - w.scroll > w.levelEnd && !w.levelDone
  }

  /** The level-end test as intended: the player's level x against the level end. */
  predicate PastEnd(w: World) {
    w.player.rect.x > w.levelEnd && !w.levelDone
  }

  /** Level check and scrolling as written. */
  function FinishAsWritten(w: World, draws: seq<Draw>, enemySize: Size): (r: Step<World>)
    requires |draws| == PlatformsPerLevel && forall i :: 0 <= i < |draws| ==> ValidDraw(draws[i])
    ensures !PastEndAsWritten(w) ==> r.state == w.(scroll := Scroll(w.scroll, w.player.rect.x)) && r.events == []
    ensures PastEndAsWritten(w) ==> r.state.levelEnd == w.levelEnd + LevelLength && r.events == [Applause]
  {
    var e := if PastEndAsWritten(w) then Extend(w, draws, enemySize) else Step(w, []);
    Step(e.state.(scroll := Scroll(e.state.scroll, e.state.player.rect.x)), e.events)
  }

  /** Level check (corrected) and scrolling. */
  function Finish(w: World, draws: seq<Draw>, enemySize: Size): (r: Step<World>)
    requires |draws| == PlatformsPerLevel && forall i :: 0 <= i < |draws| ==> ValidDraw(draws[i])
    ensures !PastEnd(w) ==> r.state == w.(scroll := Scroll(w.scroll, w.player.rect.x)) && r.events == []
    ensures PastEnd(w) ==> r.state.levelEnd == w.levelEnd + LevelLength && r.events == [Applause]
    ensures PastEnd(w) ==> |r.state.platforms| == |w.platforms| + PlatformsPerLevel
                           && r.state.platforms[..|w.platforms|] == w.platforms
    ensures r.state.player == w.player && r.state.levelDone == w.levelDone
    ensures !w.levelDone && w.player.rect.x <= w.levelEnd + LevelLength ==> r.state.player.rect.x <= r.state.levelEnd
    ensures (forall p :: p in w.platforms ==> PlatformOk(p)) ==> forall p :: p in r.state.platforms ==> PlatformOk(p)
  {
    var e := if PastEnd(w) then Extend(w, draws, enemySize) else Step(w, []);
    Step(e.state.(scroll := Scroll(e.state.scroll, e.state.player.rect.x)), e.events)
  }

  /** How the reactions of a running tick add up: the moves fire no applause,
      and the level check adds at most the one applause. */
  lemma TickLog(moves: seq<Event>, finish: seq<Event>)
    requires forall e :: e in moves ==> e == Jump || e == Land || e == Fall
    requires finish == [] || finish == [Applause]
    ensures Count(moves + finish, Applause) == |finish|
    ensures Count(moves + finish, Fall) == Count(moves, Fall)
    ensures forall e :: e in moves + finish ==> e == Jump || e == Land || e == Fall || e == Applause
  {
    CountAppend(moves, finish, Applause);
    CountAppend(moves, finish, Fall);
  }

  /** A whole tick of the running game, with the corrected level check: the
      moves, then a new level past the level end, then the view follows. */
  function Simulate(w: World, keys: Keys, draws: seq<Draw>, enemySize: Size): (r: Step<World>)
    requires |draws| == PlatformsPerLevel && forall i :: 0 <= i < |draws| ==> ValidDraw(draws[i])
    ensures r.state.player == Update(w.player, keys, Rects(w.platforms)).state
    ensures r.state.scroll == Scroll(w.scroll, r.state.player.rect.x)
    ensures r.state.fallTimer == Move(w, keys).state.fallTimer
    ensures Count(r.events, Fall) == Count(Move(w, keys).events, Fall)
    ensures !(r.state.player.rect.x > w.levelEnd && !w.levelDone) ==>
              && r.state.levelEnd == w.levelEnd && Count(r.events, Applause) == 0
              && r.state.platforms == PlatformsUpdate(w.platforms)
              && r.state.enemies == BounceAll(w.enemies, EnemyCycle)
    ensures r.state.player.rect.x > w.levelEnd && !w.levelDone ==>
              && r.state.levelEnd == w.levelEnd + LevelLength && Count(r.events, Applause) == 1
              && |r.state.platforms| == |w.platforms| + PlatformsPerLevel
              && r.state.platforms[..|w.platforms|] == PlatformsUpdate(w.platforms)
    ensures forall e :: e in r.events ==> e == Jump || e == Land || e == Fall || e == Applause
  {
    var m := Move(w, keys);
    var f := Finish(m.state, draws, enemySize);
    TickLog(m.events, f.events);
    Step(f.state, m.events + f.events)
  }

  /** A whole tick of the running game as written: the level-end test
      compares the player's position in the window with the level end. */
  function SimulateAsWritten(w: World, keys: Keys, draws: seq<Draw>, enemySize: Size): (r: Step<World>)
    requires |draws| == PlatformsPerLevel && forall i :: 0 <= i < |draws| ==> ValidDraw(draws[i])
    ensures r.state.player == Update(w.player, keys, Rects(w.platforms)).state
    ensures r.state.scroll == Scroll(w.scroll, r.state.player.rect.x)
    ensures r.state.fallTimer == Move(w, keys).state.fallTimer
    ensures Count(r.events, Fall) == Count(Move(w, keys).events, Fall)
    ensures !(r.state.player.rect.x - w.scroll > w.levelEnd && !w.levelDone) ==>
              && r.state.levelEnd == w.levelEnd && Count(r.events, Applause) == 0
              && r.state.platforms == PlatformsUpdate(w.platforms)
              && r.state.enemies == BounceAll(w.enemies, EnemyCycle)
    ensures r.state.player.rect.x - w.scroll > w.levelEnd && !w.levelDone ==>
              r.state.levelEnd == w.levelEnd + LevelLength && Count(r.events, Applause) == 1
    ensures forall e :: e in r.events ==> e == Jump || e == Land || e == Fall || e == Applause
  {
    var m := Move(w, keys);
    var f := FinishAsWritten(m.state, draws, enemySize);
    TickLog(m.events, f.events);
    Step(f.state, m.events + f.events)
  }

  /** What holds at the start of every tick of the running game: the view
      keeps the player within ScrollMargin of its left edge, and the level end
      is at least one level length out. */
  predicate InView(w: World) {
    w.player.rect.x - w.scroll <= ScrollMargin && w.levelEnd >= LevelLength
  }

  /** The scroll rule establishes InView whatever the player did. */
  lemma {:induction false} SimulateKeepsInView(w: World, keys: Keys, draws: seq<Draw>, enemySize: Size)
    requires |draws| == PlatformsPerLevel && forall i :: 0 <= i < |draws| ==> ValidDraw(draws[i])
    requires w.levelEnd >= LevelLength
    ensures InView(SimulateAsWritten(w, keys, draws, enemySize).state)
    ensures InView(Simulate(w, keys, draws, enemySize).state)
  {
  }

  /** The finding: in view, one tick moves the player at most 5 to the right,
      so the as-written test compares at most 405 with at least 2500 and the
      level is never extended. */
  lemma ExtensionUnreachable(w: World, keys: Keys, draws: seq<Draw>, enemySize: Size)
    requires |draws| == PlatformsPerLevel && forall i :: 0 <= i < |draws| ==> ValidDraw(draws[i])
    requires InView(w)
    ensures !PastEndAsWritten(Move(w, keys).state)
    ensures SimulateAsWritten(w, keys, draws, enemySize).state.levelEnd == w.levelEnd
    ensures SimulateAsWritten(w, keys, draws, enemySize).state.platforms == Move(w, keys).state.platforms
    ensures Count(SimulateAsWritten(w, keys, draws, enemySize).events, Applause) == 0
  {
    var m := Move(w, keys);
    assert m.state.player.rect.x <= w.player.rect.x + WalkSpeed;
    CountAppend(m.events, FinishAsWritten(m.state, draws, enemySize).events, Applause);
  }

  /** Ticks of the running game, each with its own keys and level draws. */
  datatype Input = Input(keys: Keys, draws: seq<Draw>)

  predicate ValidInputs(inputs: seq<Input>) {
    forall k :: 0 <= k < |inputs| ==>
      |inputs[k].draws| == PlatformsPerLevel && forall i :: 0 <= i < |inputs[k].draws| ==> ValidDraw(inputs[k].draws[i])
  }

  function RunAsWritten(w: World, inputs: seq<Input>, enemySize: Size): World
    requires ValidInputs(inputs)
    decreases |inputs|
  {
    if |inputs| == 0 then w
    else RunAsWritten(SimulateAsWritten(w, inputs[0].keys, inputs[0].draws, enemySize).state, inputs[1..], enemySize)
  }

  /** As written, however long the game runs, the level end stays where it
      started and no platform is ever added. */
  lemma {:induction false} NeverExtended(w: World, inputs: seq<Input>, enemySize: Size)
    requires ValidInputs(inputs)
    requires InView(w)
    ensures RunAsWritten(w, inputs, enemySize).levelEnd == w.levelEnd
    ensures |RunAsWritten(w, inputs, enemySize).platforms| == |w.platforms|
    decreases |inputs|
  {
    if |inputs| > 0 {
      var next := SimulateAsWritten(w, inputs[0].keys, inputs[0].draws, enemySize).state;
      ExtensionUnreachable(w, inputs[0].keys, inputs[0].draws, enemySize);
      SimulateKeepsInView(w, inputs[0].keys, inputs[0].draws, enemySize);
      assert ValidInputs(inputs[1..]) by {
        forall k | 0 <= k < |inputs[1..]| ensures |inputs[1..][k].draws| == PlatformsPerLevel {
          assert inputs[1..][k] == inputs[k + 1];
        }
      }
      NeverExtended(next, inputs[1..], enemySize);
    }
  }

  /** A concrete case: the player at 2500 in the level with the view at 2100
      (400 into the window) walks right on an empty stretch. At 2505 it is past
      the level end of 2500, but only 405 into the window: the as-written test
      does not fire, the intended one does. */
  lemma AsWrittenMissesLevelEnd(p: Player)
    requires p.rect.x == 2500 && JumpPower + Gravity <= p.velY <= MaxFallSpeed
    ensures var w := World(p, [], [], 2100, false, LevelLength, false, 0);
      var m := Move(w, Keys(false, true, false)).state;
      && InView(w) && m.player.rect.x == 2505
      && !PastEndAsWritten(m) && PastEnd(m)
  {
  }

  /** One corrected tick keeps the player at or before the level end: a step
      past it extends the level by a whole level length. */
  lemma SimulateStaysAhead(w: World, keys: Keys, draws: seq<Draw>, enemySize: Size)
    requires |draws| == PlatformsPerLevel && forall i :: 0 <= i < |draws| ==> ValidDraw(draws[i])
    requires w.player.rect.x <= w.levelEnd && !w.levelDone
    requires forall p :: p in w.platforms ==> PlatformOk(p)
    ensures var r := Simulate(w, keys, draws, enemySize).state;
      && r.player.rect.x <= r.levelEnd && !r.levelDone && r.levelEnd >= w.levelEnd
      && forall p :: p in r.platforms ==> PlatformOk(p)
  {
    var m := Move(w, keys).state;
    assert m.player.rect.x <= w.player.rect.x + WalkSpeed;
  }

  function Run(w: World, inputs: seq<Input>, enemySize: Size): World
    requires ValidInputs(inputs)
    decreases |inputs|
  {
    if |inputs| == 0 then w
    else Run(Simulate(w, inputs[0].keys, inputs[0].draws, enemySize).state, inputs[1..], enemySize)
  }

  /** With the corrected test the level is always generated ahead of the
      player: the player never gets past the level end, and every platform
      keeps shuttling inside its band. */
  lemma {:induction false} LevelStaysAhead(w: World, inputs: seq<Input>, enemySize: Size)
    requires ValidInputs(inputs)
    requires w.player.rect.x <= w.levelEnd && !w.levelDone
    requires forall p :: p in w.platforms ==> PlatformOk(p)
    ensures Run(w, inputs, enemySize).player.rect.x <= Run(w, inputs, enemySize).levelEnd
    ensures !Run(w, inputs, enemySize).levelDone
    ensures Run(w, inputs, enemySize).levelEnd >= w.levelEnd
    ensures forall p :: p in Run(w, inputs, enemySize).platforms ==> PlatformOk(p)
    decreases |inputs|
  {
    if |inputs| > 0 {
      SimulateStaysAhead(w, inputs[0].keys, inputs[0].draws, enemySize);
      var next := Simulate(w, inputs[0].keys, inputs[0].draws, enemySize).state;
      assert ValidInputs(inputs[1..]) by {
        forall k | 0 <= k < |inputs[1..]| ensures |inputs[1..][k].draws| == PlatformsPerLevel {
          assert inputs[1..][k] == inputs[k + 1];
        }
      }
      LevelStaysAhead(next, inputs[1..], enemySize);
    }
  }

  /** What the program does next. */
  datatype Frame = Running(world: World) | Quit

  /** In the menu, pressing S before any Q starts the game: the menu closes
      and the program does not quit. */
  lemma {:induction false} MenuStarts(keys: seq<Key>)
    requires KeyS in keys && KeyQ !in keys
    ensures Presses(true, keys).state == Control(false, false)
    ensures Count(Presses(true, keys).events, Say(GameBegins)) == 1
    decreases |keys|
  {
    if keys[0] == KeyS {
      PlayingStaysPlaying(keys[1..]);
      CountAppend([Say(GameBegins)], Presses(false, keys[1..]).events, Say(GameBegins));
    } else {
      assert KeyS in keys[1..] && KeyQ !in keys[1..];
      MenuStarts(keys[1..]);
      assert Presses(true, keys).events == [] + Presses(true, keys[1..]).events;
      assert [] + Presses(true, keys[1..]).events == Presses(true, keys[1..]).events;
    }
  }

  /** The key presses of one pass of the main loop, with what they say about
      the menu and quitting. */
  lemma PressesFacts(menu: bool, pressed: seq<Key>)
    ensures var c := Presses(menu, pressed);
      && (menu && KeyS !in pressed ==> c.state.menu && c.events == [] && (c.state.quit <==> KeyQ in pressed))
      && (menu && KeyS in pressed && KeyQ !in pressed ==>
            c.state == Control(false, false) && Count(c.events, Say(GameBegins)) == 1)
      && (!menu ==>
            && c.state == Control(false, false)
            && Count(c.events, Applause) == CountKey(pressed, KeyP)
            && Count(c.events, Fall) == CountKey(pressed, KeyF))
  {
    if menu && KeyS !in pressed { MenuIgnoresGameKeys(pressed); }
    if menu && KeyS in pressed && KeyQ !in pressed { MenuStarts(pressed); }
    if !menu { PlayingStaysPlaying(pressed); }
  }

  /** How the reactions of one pass of the main loop add up: the running tick
      says nothing, so the start speech comes from the keys alone. */
  lemma LoopLog(presses: seq<Event>, running: seq<Event>)
    requires forall e :: e in running ==> e == Jump || e == Land || e == Fall || e == Applause
    ensures Count(presses + running, Applause) == Count(presses, Applause) + Count(running, Applause)
    ensures Count(presses + running, Fall) == Count(presses, Fall) + Count(running, Fall)
    ensures Count(presses + running, Say(GameBegins)) == Count(presses, Say(GameBegins))
  {
    CountAppend(presses, running, Applause);
    CountAppend(presses, running, Fall);
    CountAppend(presses, running, Say(GameBegins));
  }

  /** One pass of the main loop as written: keys first; while the menu shows
      nothing moves; otherwise the running tick with the level-end test of the
      source. */
  function Tick(w: World, pressed: seq<Key>, keys: Keys, draws: seq<Draw>, enemySize: Size): (r: Step<Frame>)
    requires |draws| == PlatformsPerLevel && forall i :: 0 <= i < |draws| ==> ValidDraw(draws[i])
    ensures w.menu && KeyS !in pressed ==> r.events == [] && (r.state.Quit? <==> KeyQ in pressed)
    ensures w.menu && KeyS !in pressed && KeyQ !in pressed ==> r.state == Running(w)
    ensures w.menu && KeyS in pressed && KeyQ !in pressed ==>
              r.state == Running(SimulateAsWritten(w.(menu := false), keys, draws, enemySize).state)
    ensures !w.menu ==> r.state == Running(SimulateAsWritten(w, keys, draws, enemySize).state)
    ensures !w.menu ==> Count(r.events, Applause) ==
                          CountKey(pressed, KeyP) + Count(SimulateAsWritten(w, keys, draws, enemySize).events, Applause)
    ensures !w.menu ==> Count(r.events, Fall) ==
                          CountKey(pressed, KeyF) + Count(SimulateAsWritten(w, keys, draws, enemySize).events, Fall)
    ensures !w.menu && InView(w) ==>
              r.state.world.levelEnd == w.levelEnd && Count(r.events, Applause) == CountKey(pressed, KeyP)
    ensures w.menu && KeyS in pressed && KeyQ !in pressed ==> Count(r.events, Say(GameBegins)) == 1
  {
    var c := Presses(w.menu, pressed);
    PressesFacts(w.menu, pressed);
    if c.state.quit then Step(Quit, c.events)
    else if c.state.menu then Step(Running(w), c.events)
    else
      var s := SimulateAsWritten(w.(menu := false), keys, draws, enemySize);
      LoopLog(c.events, s.events);
      assert !w.menu && InView(w) ==> s.state.levelEnd == w.levelEnd && Count(s.events, Applause) == 0 by {
        if !w.menu && InView(w) {
          assert w.(menu := false) == w;
          ExtensionUnreachable(w, keys, draws, enemySize);
        }
      }
      Step(Running(s.state), c.events + s.events)
  }

  /** One pass of the main loop with the corrected level-end test: from a
      level end ahead of the player, the level end stays ahead of it. */
  function TickCorrected(w: World, pressed: seq<Key>, keys: Keys, draws: seq<Draw>, enemySize: Size): (r: Step<Frame>)
    requires |draws| == PlatformsPerLevel && forall i :: 0 <= i < |draws| ==> ValidDraw(draws[i])
    ensures w.menu && KeyS !in pressed ==> r.events == [] && (r.state.Quit? <==> KeyQ in pressed)
    ensures w.menu && KeyS !in pressed && KeyQ !in pressed ==> r.state == Running(w)
    ensures w.menu && KeyS in pressed && KeyQ !in pressed ==>
              r.state == Running(Simulate(w.(menu := false), keys, draws, enemySize).state)
    ensures w.menu && KeyS in pressed && KeyQ !in pressed ==> Count(r.events, Say(GameBegins)) == 1
    ensures !w.menu ==> r.state == Running(Simulate(w, keys, draws, enemySize).state)
    ensures !w.menu ==> Count(r.events, Applause) ==
                          CountKey(pressed, KeyP) + Count(Simulate(w, keys, draws, enemySize).events, Applause)
    ensures !w.menu ==> Count(r.events, Fall) ==
                          CountKey(pressed, KeyF) + Count(Simulate(w, keys, draws, enemySize).events, Fall)
    ensures !w.menu && w.player.rect.x <= w.levelEnd && !w.levelDone && (forall p :: p in w.platforms ==> PlatformOk(p)) ==>
              r.state.world.player.rect.x <= r.state.world.levelEnd && r.state.world.levelEnd >= w.levelEnd
  {
    var c := Presses(w.menu, pressed);
    PressesFacts(w.menu, pressed);
    if c.state.quit then Step(Quit, c.events)
    else if c.state.menu then Step(Running(w), c.events)
    else
      var s := Simulate(w.(menu := false), keys, draws, enemySize);
      LoopLog(c.events, s.events);
      assert !w.menu && w.player.rect.x <= w.levelEnd && !w.levelDone && (forall p :: p in w.platforms ==> PlatformOk(p)) ==>
               s.state.player.rect.x <= s.state.levelEnd && s.state.levelEnd >= w.levelEnd by {
        if !w.menu && w.player.rect.x <= w.levelEnd && !w.levelDone && (forall p :: p in w.platforms ==> PlatformOk(p)) {
          assert w.(menu := false) == w;
          SimulateStaysAhead(w, keys, draws, enemySize);
        }
      }
      Step(Running(s.state), c.events + s.events)
  }
}
